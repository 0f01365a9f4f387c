/**
 Hiding sensitive values before anything is logged. Whether a key is sensitive is decided on the
 key alone; the walk is the same for any such decision, and takes it as a parameter.
 */
module Redact {
  import opened Wrappers

  datatype Primitive = Null | Undefined | Boolean(b: bool) | Number(n: real) | Str(s: string)

  /** Values without cycles. The entries of an object are in its own order, each key once. */
  datatype Value =
    | Prim(p: Primitive)
    | Date(iso: string)
    | Error(name: string, message: string)
    | Arr(items: seq<Value>)
    | Obj(entries: seq<(string, Value)>)

  const REDACTED := "[REDACTED]"
  const TRUNCATED := "[TRUNCATED]"
  const MAX_DEPTH: nat := 8

  /** Which keys are sensitive. */
  type Keys = string -> bool

  function Text(s: string): Value {
    Prim(Str(s))
  }

  function Shown(name: string, message: string): Value {
    Obj([("name", Text(name)), ("message", Text(message))])
  }

  function Redacted(secret: Keys, v: Value, depth: nat): Value
    decreases v
  {
    if depth > MAX_DEPTH then Text(TRUNCATED)
    else match v
      case Prim(_) => v
      case Date(iso) => Text(iso)
      case Error(name, message) => Shown(name, message)
      case Arr(items) =>
        Arr(seq(|items|, i requires 0 <= i < |items| => Redacted(secret, items[i], depth + 1)))
      case Obj(entries) =>
        Obj(seq(|entries|, i requires 0 <= i < |entries| =>
              (entries[i].0, if secret(entries[i].0) then Text(REDACTED) else Redacted(secret, entries[i].1, depth + 1))))
  }

  // --- nothing sensitive is left --------------------------------------------------------

  /** Every sensitive key, at every depth, holds nothing but the mark. */
  predicate Masked(secret: Keys, v: Value)
    decreases v
  {
    match v
    case Arr(items) => forall i :: 0 <= i < |items| ==> Masked(secret, items[i])
    case Obj(entries) =>
      forall i :: 0 <= i < |entries| ==>
        if secret(entries[i].0) then entries[i].1 == Text("[REDACTED]") else Masked(secret, entries[i].1)
    case _ => true
  }

  lemma {:induction false} OutputIsMasked(secret: Keys, v: Value, depth: nat)
    requires !secret("name") && !secret("message")
    ensures Masked(secret, Redacted(secret, v, depth))
    decreases v
  {
    if depth <= MAX_DEPTH {
      match v
      case Arr(items) =>
        forall i | 0 <= i < |items|
          ensures Masked(secret, Redacted(secret, items[i], depth + 1))
        {
          OutputIsMasked(secret, items[i], depth + 1);
        }
      case Obj(entries) =>
        forall i | 0 <= i < |entries|
          ensures Masked(secret, Redacted(secret, entries[i].1, depth + 1))
        {
          OutputIsMasked(secret, entries[i].1, depth + 1);
        }
      case _ =>
    }
  }

  /** Equal but for what stands under sensitive keys. */
  predicate SameOutside(secret: Keys, v: Value, w: Value)
    decreases v
  {
    match v
    case Arr(items) =>
      w.Arr? && |w.items| == |items| && forall i :: 0 <= i < |items| ==> SameOutside(secret, items[i], w.items[i])
    case Obj(entries) =>
      w.Obj? && |w.entries| == |entries|
      && forall i :: 0 <= i < |entries| ==>
           entries[i].0 == w.entries[i].0
           && (secret(entries[i].0) || SameOutside(secret, entries[i].1, w.entries[i].1))
    case _ => v == w
  }

  /** What stands under sensitive keys has no influence at all on the output. */
  lemma {:induction false} SecretsDoNotShow(secret: Keys, v: Value, w: Value, depth: nat)
    requires SameOutside(secret, v, w)
    ensures Redacted(secret, v, depth) == Redacted(secret, w, depth)
    decreases v
  {
    if depth <= MAX_DEPTH {
      match v
      case Arr(items) =>
        forall i | 0 <= i < |items|
          ensures Redacted(secret, items[i], depth + 1) == Redacted(secret, w.items[i], depth + 1)
        {
          SecretsDoNotShow(secret, items[i], w.items[i], depth + 1);
        }
        assert Redacted(secret, v, depth).items == Redacted(secret, w, depth).items;
      case Obj(entries) =>
        forall i | 0 <= i < |entries| && !secret(entries[i].0)
          ensures Redacted(secret, entries[i].1, depth + 1) == Redacted(secret, w.entries[i].1, depth + 1)
        {
          SecretsDoNotShow(secret, entries[i].1, w.entries[i].1, depth + 1);
        }
        assert Redacted(secret, v, depth).entries == Redacted(secret, w, depth).entries;
      case _ =>
    }
  }

  // --- a second pass --------------------------------------------------------------------

  /** An error shown at the last depth, outside sensitive keys: its two texts would be cut by a second pass. */
  predicate ErrorAtTheLimit(secret: Keys, v: Value, depth: nat)
    decreases v
  {
    match v
    case Error(name, message) => depth == MAX_DEPTH && !(name == TRUNCATED && message == TRUNCATED)
    case Arr(items) => exists i :: 0 <= i < |items| && ErrorAtTheLimit(secret, items[i], depth + 1)
    case Obj(entries) =>
      exists i :: 0 <= i < |entries| && !secret(entries[i].0) && ErrorAtTheLimit(secret, entries[i].1, depth + 1)
    case _ => false
  }

  lemma ShownAgain(secret: Keys, name: string, message: string, depth: nat)
    requires !secret("name") && !secret("message") && depth <= MAX_DEPTH
    ensures Redacted(secret, Shown(name, message), depth) == Shown(name, message)
            <==> depth < MAX_DEPTH || (name == TRUNCATED && message == TRUNCATED)
  {
    var once := Shown(name, message);
    var twice := Redacted(secret, once, depth);
    assert twice.entries[0] == ("name", Redacted(secret, Text(name), depth + 1));
    assert twice.entries[1] == ("message", Redacted(secret, Text(message), depth + 1));
    if depth < MAX_DEPTH {
      assert twice.entries == once.entries;
    } else if name == TRUNCATED && message == TRUNCATED {
      assert twice.entries == once.entries;
    } else {
      assert twice.entries[0] != once.entries[0] || twice.entries[1] != once.entries[1];
    }
  }

  lemma NoneBeyondTheLimit(secret: Keys, v: Value, depth: nat)
    requires depth > MAX_DEPTH
    ensures !ErrorAtTheLimit(secret, v, depth)
    decreases v
  {
    match v
    case Arr(items) =>
      forall i | 0 <= i < |items|
        ensures !ErrorAtTheLimit(secret, items[i], depth + 1)
      {
        NoneBeyondTheLimit(secret, items[i], depth + 1);
      }
    case Obj(entries) =>
      forall i | 0 <= i < |entries|
        ensures !ErrorAtTheLimit(secret, entries[i].1, depth + 1)
      {
        NoneBeyondTheLimit(secret, entries[i].1, depth + 1);
      }
    case _ =>
  }

  /** A second pass changes nothing, exactly when no error stands at the very last depth. */
  lemma {:induction false} SecondPassChangesNothingExactlyWhen(secret: Keys, v: Value, depth: nat)
    requires !secret("name") && !secret("message")
    ensures Redacted(secret, Redacted(secret, v, depth), depth) == Redacted(secret, v, depth)
            <==> !ErrorAtTheLimit(secret, v, depth)
    decreases v
  {
    if depth > MAX_DEPTH {
      NoneBeyondTheLimit(secret, v, depth);
    } else {
      match v
      case Error(name, message) => ShownAgain(secret, name, message, depth);
      case Arr(items) => SecondPassOverItems(secret, v, depth);
      case Obj(entries) => SecondPassOverEntries(secret, v, depth);
      case _ =>
    }
  }

  lemma {:induction false} SecondPassOverItems(secret: Keys, v: Value, depth: nat)
    requires !secret("name") && !secret("message") && v.Arr? && depth <= MAX_DEPTH
    ensures Redacted(secret, Redacted(secret, v, depth), depth) == Redacted(secret, v, depth)
            <==> !ErrorAtTheLimit(secret, v, depth)
    decreases v, 0
  {
    var once := Redacted(secret, v, depth);
    var twice := Redacted(secret, once, depth);
    forall i | 0 <= i < |v.items|
      ensures twice.items[i] == once.items[i] <==> !ErrorAtTheLimit(secret, v.items[i], depth + 1)
    {
      SecondPassChangesNothingExactlyWhen(secret, v.items[i], depth + 1);
    }
    if !ErrorAtTheLimit(secret, v, depth) {
      assert twice.items == once.items;
    }
  }

  lemma {:induction false} SecondPassOverEntries(secret: Keys, v: Value, depth: nat)
    requires !secret("name") && !secret("message") && v.Obj? && depth <= MAX_DEPTH
    ensures Redacted(secret, Redacted(secret, v, depth), depth) == Redacted(secret, v, depth)
            <==> !ErrorAtTheLimit(secret, v, depth)
    decreases v, 0
  {
    var once := Redacted(secret, v, depth);
    var twice := Redacted(secret, once, depth);
    forall i | 0 <= i < |v.entries|
      ensures twice.entries[i] == once.entries[i]
              <==> secret(v.entries[i].0) || !ErrorAtTheLimit(secret, v.entries[i].1, depth + 1)
    {
      SecondPassChangesNothingExactlyWhen(secret, v.entries[i].1, depth + 1);
    }
    if !ErrorAtTheLimit(secret, v, depth) {
      assert twice.entries == once.entries;
    }
  }

  // --- what is not sensitive stays ------------------------------------------------------

  datatype Hop = Index(i: nat) | Key(i: nat, k: string)

  /** What stands at the end of a path, if there is such a path. */
  function At(v: Value, path: seq<Hop>): Option<Value>
    decreases |path|
  {
    if path == [] then Some(v)
    else match path[0]
      case Index(i) => if v.Arr? && i < |v.items| then At(v.items[i], path[1..]) else None
      case Key(i, k) => if v.Obj? && i < |v.entries| && v.entries[i].0 == k then At(v.entries[i].1, path[1..]) else None
  }

  predicate Open(secret: Keys, path: seq<Hop>) {
    forall h :: 0 <= h < |path| && path[h].Key? ==> !secret(path[h].k)
  }

  /** Along a path without sensitive keys, redacting and looking are the same in either order. */
  lemma {:induction false} LookingCommutes(secret: Keys, v: Value, path: seq<Hop>, depth: nat)
    requires Open(secret, path) && depth + |path| <= MAX_DEPTH + 1 && At(v, path).Some?
    ensures At(Redacted(secret, v, depth), path) == Some(Redacted(secret, At(v, path).value, depth + |path|))
    decreases |path|
  {
    if path != [] {
      assert Open(secret, path[1..]);
      match path[0]
      case Index(i) => LookingCommutes(secret, v.items[i], path[1..], depth + 1);
      case Key(i, k) => LookingCommutes(secret, v.entries[i].1, path[1..], depth + 1);
    }
  }

  /** Past the limit there is nothing left to look at. */
  lemma {:induction false} BeyondTheLimitIsCut(secret: Keys, v: Value, path: seq<Hop>, depth: nat)
    requires Open(secret, path) && depth <= MAX_DEPTH + 1 < depth + |path| && At(v, path).Some?
    ensures At(Redacted(secret, v, depth), path).None?
    decreases |path|
  {
    if depth <= MAX_DEPTH {
      assert Open(secret, path[1..]);
      match path[0]
      case Index(i) => BeyondTheLimitIsCut(secret, v.items[i], path[1..], depth + 1);
      case Key(i, k) => BeyondTheLimitIsCut(secret, v.entries[i].1, path[1..], depth + 1);
    }
  }

  /**
   A primitive outside sensitive keys survives as it is exactly when it is nested at most eight
   deep, or happens to be, one deeper, the very text that stands for what was cut.
   */
  lemma OpenLeavesSurviveExactlyUpToTheLimit(secret: Keys, v: Value, path: seq<Hop>)
    requires Open(secret, path) && At(v, path).Some? && At(v, path).value.Prim?
    ensures At(Redacted(secret, v, 0), path) == At(v, path)
            <==> |path| <= 8 || (|path| == 9 && At(v, path).value == Text("[TRUNCATED]"))
  {
    if |path| <= MAX_DEPTH + 1 {
      LookingCommutes(secret, v, path, 0);
    } else {
      BeyondTheLimitIsCut(secret, v, path, 0);
    }
  }

  /** What stands at the end of an open path of at most eight keys: dates as text, errors as their two texts, and shapes as they were. */
  lemma OpenValuesAreShown(secret: Keys, v: Value, path: seq<Hop>)
    requires Open(secret, path) && |path| <= 8 && At(v, path).Some?
    ensures var was, r := At(v, path).value, At(Redacted(secret, v, 0), path);
            && r.Some?
            && (was.Prim? ==> r.value == was)
            && (was.Date? ==> r.value == Text(was.iso))
            && (was.Error? ==> r.value == Obj([("name", Text(was.name)), ("message", Text(was.message))]))
            && (was.Arr? ==> r.value.Arr? && |r.value.items| == |was.items|)
            && (was.Obj? ==>
                  r.value.Obj? && |r.value.entries| == |was.entries|
                  && forall i :: 0 <= i < |was.entries| ==> r.value.entries[i].0 == was.entries[i].0)
  {
    LookingCommutes(secret, v, path, 0);
  }

  /** One deeper, nothing but the text that stands for what was cut. */
  lemma NineDeepIsCut(secret: Keys, v: Value, path: seq<Hop>)
    requires Open(secret, path) && |path| == 9 && At(v, path).Some?
    ensures At(Redacted(secret, v, 0), path) == Some(Text("[TRUNCATED]"))
  {
    LookingCommutes(secret, v, path, 0);
  }

  // --- the walk as it is written --------------------------------------------------------

  method RedactValue(secret: Keys, v: Value, depth: nat) returns (r: Value)
    ensures r == Redacted(secret, v, depth)
    decreases v
  {
    if depth > MAX_DEPTH {
      return Text(TRUNCATED);
    }
    match v {
      case Prim(_) => return v;
      case Date(iso) => return Text(iso);
      case Error(name, message) => return Shown(name, message);
      case Arr(items) =>
        var mapped := [];
        for i := 0 to |items|
          invariant |mapped| == i && forall k :: 0 <= k < i ==> mapped[k] == Redacted(secret, items[k], depth + 1)
        {
          var item := RedactValue(secret, items[i], depth + 1);
          mapped := mapped + [item];
        }
        assert Redacted(secret, v, depth).items == mapped;
        return Arr(mapped);
      case Obj(entries) =>
        var result := [];
        for i := 0 to |entries|
          invariant |result| == i && forall k :: 0 <= k < i ==> result[k] == Redacted(secret, v, depth).entries[k]
        {
          var item := Text(REDACTED);
          if !secret(entries[i].0) {
            item := RedactValue(secret, entries[i].1, depth + 1);
          }
          result := result + [(entries[i].0, item)];
        }
        assert Redacted(secret, v, depth).entries == result;
        return Obj(result);
    }
  }
}
