/**
 The shared request signature: the text that is signed, and the checking of a signed request
 against a clock and a memory of nonces. The keyed hash itself is a parameter.
 */
module Hmac {
  import opened Wrappers
  import opened Text

  // --- the text that is signed ----------------------------------------------------------

  datatype CanonicalInput = CanonicalInput(
    keyId: string, timestamp: string, nonce: string, method_: string, path: string, rawBody: string)

  function Line(head: string, rest: string): string {
    head + "\n" + rest
  }

  function CanonicalString(i: CanonicalInput): string {
    Line(i.keyId, Line(i.timestamp, Line(i.nonce, Line(ToUpper(i.method_), Line(i.path, i.rawBody)))))
  }

  predicate OneLine(s: string) {
    forall k :: 0 <= k < |s| ==> s[k] != '\n'
  }

  predicate HeadersAreOneLine(i: CanonicalInput) {
    OneLine(i.keyId) && OneLine(i.timestamp) && OneLine(i.nonce) && OneLine(i.method_) && OneLine(i.path)
  }

  /** Before and after the first newline. */
  function Cut(s: string): (r: Option<(string, string)>)
    ensures r.Some? ==> s == Line(r.value.0, r.value.1) && OneLine(r.value.0)
    ensures r.None? ==> OneLine(s)
  {
    if s == "" then None
    else if s[0] == '\n' then
      assert s == Line("", s[1..]);
      Some(("", s[1..]))
    else
      match Cut(s[1..])
      case None => None
      case Some((a, b)) =>
        assert s == Line([s[0]] + a, b);
        Some(([s[0]] + a, b))
  }

  function Fields(s: string): Option<CanonicalInput> {
    match Cut(s)
    case None => None
    case Some((keyId, s1)) =>
      match Cut(s1)
      case None => None
      case Some((timestamp, s2)) =>
        match Cut(s2)
        case None => None
        case Some((nonce, s3)) =>
          match Cut(s3)
          case None => None
          case Some((m, s4)) =>
            match Cut(s4)
            case None => None
            case Some((path, rawBody)) => Some(CanonicalInput(keyId, timestamp, nonce, m, path, rawBody))
  }

  lemma FirstNewlineIsFound(head: string, rest: string)
    requires OneLine(head)
    ensures Cut(Line(head, rest)) == Some((head, rest))
  {
    var s := Line(head, rest);
    assert s[|head|] == '\n';
    var cut := Cut(s);
    if cut.Some? {
      var (a, b) := cut.value;
      assert s == Line(a, b) && s[|a|] == '\n';
      assert |a| == |head|;
      assert s[..|a|] == a && s[..|head|] == head && s[|a| + 1..] == b && s[|head| + 1..] == rest;
    }
  }

  lemma UpperKeepsLines(s: string)
    ensures OneLine(ToUpper(s)) == OneLine(s)
  {
    if OneLine(ToUpper(s)) {
      forall k | 0 <= k < |s|
        ensures s[k] != '\n'
      {
        assert ToUpper(s)[k] == UpperChar(s[k]);
      }
    }
  }

  /**
   Cutting the signed text at its first five newlines gives back all six fields, the method in
   upper case and the body whatever it holds, exactly when the first five are single lines.
   */
  lemma FieldsComeBackExactlyWhenOneLine(i: CanonicalInput)
    ensures Fields(CanonicalString(i)) == Some(i.(method_ := ToUpper(i.method_))) <==> HeadersAreOneLine(i)
  {
    UpperKeepsLines(i.method_);
    if HeadersAreOneLine(i) {
      var m := ToUpper(i.method_);
      FirstNewlineIsFound(i.path, i.rawBody);
      FirstNewlineIsFound(m, Line(i.path, i.rawBody));
      FirstNewlineIsFound(i.nonce, Line(m, Line(i.path, i.rawBody)));
      FirstNewlineIsFound(i.timestamp, Line(i.nonce, Line(m, Line(i.path, i.rawBody))));
      FirstNewlineIsFound(i.keyId, Line(i.timestamp, Line(i.nonce, Line(m, Line(i.path, i.rawBody)))));
    }
  }

  /** Two requests with one-line headers have the same signed text only if they are the same request. */
  lemma NoTwoRequestsShareAText(i: CanonicalInput, j: CanonicalInput)
    requires HeadersAreOneLine(i) && HeadersAreOneLine(j)
    ensures CanonicalString(i) == CanonicalString(j) <==> i.(method_ := ToUpper(i.method_)) == j.(method_ := ToUpper(j.method_))
  {
    FieldsComeBackExactlyWhenOneLine(i);
    FieldsComeBackExactlyWhenOneLine(j);
  }

  // --- checking a request ---------------------------------------------------------------

  const TIMESTAMP_TOLERANCE_MS: nat := 5 * 60 * 1000

  datatype Failure =
    | MissingHeaders | UnknownKey | MalformedTimestamp | TimestampOutOfRange | SignatureMismatch | NonceReplayed

  datatype Request = Request(
    keyId: Option<string>, timestamp: Option<string>, nonce: Option<string>, signature: Option<string>,
    method_: string, path: string, rawBody: string)

  /** The signature of a text under a secret. */
  type Signer = (string, string) -> string

  datatype Verifier = Verifier(secrets: map<string, string>, sign: Signer, toleranceMs: nat)

  predicate Present(h: Option<string>) {
    h.Some? && h.value != ""
  }

  predicate HasHeaders(r: Request) {
    Present(r.keyId) && Present(r.timestamp) && Present(r.nonce) && Present(r.signature)
  }

  predicate IsTimestamp(s: string) {
    1 <= |s| <= 15 && forall k :: 0 <= k < |s| ==> IsDigit(s[k])
  }

  function Number(s: string): nat
    requires forall k :: 0 <= k < |s| ==> IsDigit(s[k])
  {
    if s == "" then 0
    else
      assert IsDigit(s[|s| - 1]);
      Number(s[..|s| - 1]) * 10 + (s[|s| - 1] as int - '0' as int)
  }

  /** A number written out is read back. */
  lemma {:induction false} NumberReadsDecimal(n: nat)
    ensures Number(Decimal(n)) == n
    decreases n
  {
    var s := Decimal(n);
    if n < 10 {
      assert s[..0] == "" && Number(s[..0]) == 0;
      DigitIs(n);
    } else {
      NumberReadsDecimal(n / 10);
      assert s[..|s| - 1] == Decimal(n / 10);
      DigitIs(n % 10);
    }
  }

  function Abs(n: int): nat {
    if n < 0 then -n else n
  }

  function SignedPart(r: Request): CanonicalInput
    requires HasHeaders(r)
  {
    CanonicalInput(r.keyId.value, r.timestamp.value, r.nonce.value, r.method_, r.path, r.rawBody)
  }

  /** Everything that does not depend on what was accepted before. */
  function Check(v: Verifier, r: Request, now: int): Option<Failure> {
    if !HasHeaders(r) then Some(MissingHeaders)
    else if r.keyId.value !in v.secrets then Some(UnknownKey)
    else if !IsTimestamp(r.timestamp.value) then Some(MalformedTimestamp)
    else if Abs(now - Number(r.timestamp.value) * 1000) > v.toleranceMs then Some(TimestampOutOfRange)
    else if v.sign(v.secrets[r.keyId.value], CanonicalString(SignedPart(r))) != r.signature.value then Some(SignatureMismatch)
    else None
  }

  /** The memory of nonces: until when each is remembered. */
  type Memory = map<string, int>

  function NonceKey(keyId: string, nonce: string): string {
    keyId + " " + nonce
  }

  function Remember(seen: Memory, key: string, expiresAt: int, now: int): (Memory, bool) {
    if key in seen && seen[key] > now then (seen, false) else (seen[key := expiresAt], true)
  }

  function KeyOf(r: Request): string
    requires HasHeaders(r)
  {
    NonceKey(r.keyId.value, r.nonce.value)
  }

  function Verify(v: Verifier, seen: Memory, r: Request, now: int): (Memory, Result<string, Failure>) {
    match Check(v, r, now)
    case Some(failure) => (seen, Err(failure))
    case None =>
      var (seen', isNew) := Remember(seen, KeyOf(r), now + v.toleranceMs, now);
      (seen', if isNew then Ok(r.keyId.value) else Err(NonceReplayed))
  }

  /** The memory changes exactly when a request is accepted: nothing unproven uses up a nonce. */
  lemma OnlyAcceptedRequestsAreRemembered(v: Verifier, seen: Memory, r: Request, now: int)
    ensures var (seen', result) := Verify(v, seen, r, now);
            && (result.Err? ==> seen' == seen)
            && (result.Ok? <==> Check(v, r, now).None? && !(KeyOf(r) in seen && seen[KeyOf(r)] > now))
            && (result.Ok? ==> seen' == seen[KeyOf(r) := now + v.toleranceMs])
            && (HasHeaders(r) && r.keyId.value in v.secrets
                && r.signature.value != v.sign(v.secrets[r.keyId.value], CanonicalString(SignedPart(r)))
                ==> seen' == seen && result.Err?)
  {
  }

  /** Which answer a request gets, each exactly when, and in which order the faults are told. */
  ghost predicate VerdictSays(v: Verifier, seen: Memory, r: Request, now: int, result: Result<string, Failure>) {
    if r.keyId.None? || r.keyId.value == "" || r.timestamp.None? || r.timestamp.value == ""
       || r.nonce.None? || r.nonce.value == "" || r.signature.None? || r.signature.value == ""
    then result == Err(MissingHeaders)
    else
      var (keyId, timestamp, nonce) := (r.keyId.value, r.timestamp.value, r.nonce.value);
      if keyId !in v.secrets then result == Err(UnknownKey)
      else if |timestamp| > 15 || exists k :: 0 <= k < |timestamp| && !('0' <= timestamp[k] <= '9')
      then result == Err(MalformedTimestamp)
      else if now - Number(timestamp) * 1000 > v.toleranceMs || Number(timestamp) * 1000 - now > v.toleranceMs
      then result == Err(TimestampOutOfRange)
      else if r.signature.value != v.sign(v.secrets[keyId], SignedText(keyId, timestamp, nonce, r.method_, r.path, r.rawBody))
      then result == Err(SignatureMismatch)
      else if keyId + " " + nonce in seen && seen[keyId + " " + nonce] > now then result == Err(NonceReplayed)
      else result == Ok(keyId)
  }

  /** The six fields, one under the other, the method in capitals. */
  function SignedText(keyId: string, timestamp: string, nonce: string, method_: string, path: string, rawBody: string): string {
    keyId + "\n" + (timestamp + "\n" + (nonce + "\n" + (ToUpper(method_) + "\n" + (path + "\n" + rawBody))))
  }

  lemma VerifySays(v: Verifier, seen: Memory, r: Request, now: int)
    ensures VerdictSays(v, seen, r, now, Verify(v, seen, r, now).1)
    ensures Verify(v, seen, r, now).1.Ok? ==>
              Verify(v, seen, r, now).0 == seen[r.keyId.value + " " + r.nonce.value := now + v.toleranceMs]
  {
    if HasHeaders(r) {
      assert CanonicalString(SignedPart(r))
             == SignedText(r.keyId.value, r.timestamp.value, r.nonce.value, r.method_, r.path, r.rawBody);
    }
  }

  /** A request properly signed by a known key, in time and with a new nonce, is accepted and its nonce remembered. */
  lemma GenuineRequestIsAccepted(v: Verifier, seen: Memory, r: Request, n: nat, now: int)
    requires r.keyId.Some? && r.keyId.value != "" && r.keyId.value in v.secrets && r.nonce.Some? && r.nonce.value != ""
    requires r.timestamp == Some(Decimal(n)) && |Decimal(n)| <= 15
    requires n * 1000 - v.toleranceMs <= now <= n * 1000 + v.toleranceMs
    requires r.signature.Some? && r.signature.value != ""
    requires r.signature.value
             == v.sign(v.secrets[r.keyId.value],
                       SignedText(r.keyId.value, Decimal(n), r.nonce.value, r.method_, r.path, r.rawBody))
    requires var key := r.keyId.value + " " + r.nonce.value; key in seen ==> seen[key] <= now
    ensures Verify(v, seen, r, now)
            == (seen[r.keyId.value + " " + r.nonce.value := now + v.toleranceMs], Ok(r.keyId.value))
  {
    NumberReadsDecimal(n);
    VerifySays(v, seen, r, now);
  }

  // --- runs -----------------------------------------------------------------------------

  datatype Arrival = Arrival(request: Request, now: int)

  datatype Accepted = Accepted(request: Request, at: int)

  datatype State = State(seen: Memory, accepted: seq<Accepted>)

  function Step(v: Verifier, s: State, a: Arrival): State {
    var (seen, result) := Verify(v, s.seen, a.request, a.now);
    State(seen, if result.Ok? then s.accepted + [Accepted(a.request, a.now)] else s.accepted)
  }

  function Run(v: Verifier, s: State, arrivals: seq<Arrival>): State
    decreases |arrivals|
  {
    if arrivals == [] then s else Run(v, Step(v, s, arrivals[0]), arrivals[1..])
  }

  /** Acceptances with the same nonce key are in order of time and at least the tolerance apart. */
  ghost predicate Apart(v: Verifier, s: State) {
    && (forall i :: 0 <= i < |s.accepted| ==>
          HasHeaders(s.accepted[i].request) && KeyOf(s.accepted[i].request) in s.seen
          && s.seen[KeyOf(s.accepted[i].request)] >= s.accepted[i].at + v.toleranceMs)
    && (forall i, j :: 0 <= i < j < |s.accepted| && KeyOf(s.accepted[i].request) == KeyOf(s.accepted[j].request) ==>
          s.accepted[j].at >= s.accepted[i].at + v.toleranceMs)
  }

  ghost predicate AllChecked(v: Verifier, s: State) {
    forall i :: 0 <= i < |s.accepted| ==> Check(v, s.accepted[i].request, s.accepted[i].at).None?
  }

  lemma StepKeepsApart(v: Verifier, s: State, a: Arrival)
    requires Apart(v, s) && AllChecked(v, s)
    ensures Apart(v, Step(v, s, a)) && AllChecked(v, Step(v, s, a))
  {
    OnlyAcceptedRequestsAreRemembered(v, s.seen, a.request, a.now);
    var s' := Step(v, s, a);
    forall i | 0 <= i < |s.accepted|
      ensures s'.accepted[i] == s.accepted[i]
    {
    }
  }

  lemma {:induction false} RunKeepsApart(v: Verifier, s: State, arrivals: seq<Arrival>)
    requires Apart(v, s) && AllChecked(v, s)
    ensures Apart(v, Run(v, s, arrivals)) && AllChecked(v, Run(v, s, arrivals))
    decreases |arrivals|
  {
    if arrivals != [] {
      StepKeepsApart(v, s, arrivals[0]);
      RunKeepsApart(v, Step(v, s, arrivals[0]), arrivals[1..]);
    }
  }

  /**
   Over any run, whatever the clock does: two accepted requests with the same key id and nonce
   are at least the tolerance apart, and one accepted after its own time is not accepted again.
   */
  lemma AcceptedNoncesAreApart(v: Verifier, arrivals: seq<Arrival>, i: nat, j: nat)
    requires i < j < |Run(v, State(map[], []), arrivals).accepted|
    ensures var accepted := Run(v, State(map[], []), arrivals).accepted;
            var first, second := accepted[i], accepted[j];
            && (first.request.keyId == second.request.keyId && first.request.nonce == second.request.nonce ==>
                  second.at >= first.at + v.toleranceMs)
            && (first.request == second.request ==>
                  first.request.timestamp.Some? && IsTimestamp(first.request.timestamp.value)
                  && first.at <= Number(first.request.timestamp.value) * 1000)
  {
    RunKeepsApart(v, State(map[], []), arrivals);
  }

  /**
   A request accepted at one time can be accepted once more later exactly when that time was not
   after its own; an honest sender's clock ahead of ours is what leaves the gap.
   */
  lemma CanBeReplayedExactlyWhenEarly(v: Verifier, seen: Memory, r: Request, now: int)
    requires Verify(v, seen, r, now).1.Ok?
    ensures IsTimestamp(r.timestamp.value)
    ensures (exists later :: Verify(v, Verify(v, seen, r, now).0, r, later).1.Ok?)
            <==> now <= Number(r.timestamp.value) * 1000
  {
    var seen' := Verify(v, seen, r, now).0;
    assert Check(v, r, now).None?;
    if now <= Number(r.timestamp.value) * 1000 {
      var later := now + v.toleranceMs;
      assert Check(v, r, later).None?;
      assert Verify(v, seen', r, later).1.Ok?;
    }
  }

  // --- the verifier and its memories ----------------------------------------------------

  class InMemoryNonceStore {
    var seen: Memory

    constructor ()
      ensures seen == map[]
    {
      seen := map[];
    }

    method RememberNonce(keyId: string, nonce: string, expiresAt: int, now: int) returns (isNew: bool)
      modifies this
      ensures (seen, isNew) == Remember(old(seen), NonceKey(keyId, nonce), expiresAt, now)
    {
      var key := NonceKey(keyId, nonce);
      if key in seen && seen[key] > now {
        return false;
      }
      seen := seen[key := expiresAt];
      return true;
    }
  }

  class SenNoKuniHmacVerifier {
    const options: Verifier
    const nonces: InMemoryNonceStore

    /** Five minutes either way unless told otherwise. */
    constructor (secrets: map<string, string>, sign: Signer, toleranceMs: Option<nat>, nonces: InMemoryNonceStore)
      ensures this.nonces == nonces
      ensures options == Verifier(secrets, sign, if toleranceMs.Some? then toleranceMs.value else 300_000)
    {
      var tolerance := if toleranceMs.Some? then toleranceMs.value else TIMESTAMP_TOLERANCE_MS;
      this.options, this.nonces := Verifier(secrets, sign, tolerance), nonces;
    }

    method VerifyRequest(r: Request, now: int) returns (result: Result<string, Failure>)
      modifies nonces
      ensures (nonces.seen, result) == Verify(options, old(nonces.seen), r, now)
      ensures VerdictSays(options, old(nonces.seen), r, now, result)
    {
      VerifySays(options, nonces.seen, r, now);
      if !HasHeaders(r) {
        return Err(MissingHeaders);
      }
      if r.keyId.value !in options.secrets {
        return Err(UnknownKey);
      }
      if !IsTimestamp(r.timestamp.value) {
        return Err(MalformedTimestamp);
      }
      var skewMs := Abs(now - Number(r.timestamp.value) * 1000);
      if skewMs > options.toleranceMs {
        return Err(TimestampOutOfRange);
      }
      var expected := options.sign(options.secrets[r.keyId.value], CanonicalString(SignedPart(r)));
      if expected != r.signature.value {
        return Err(SignatureMismatch);
      }
      var isNew := nonces.RememberNonce(r.keyId.value, r.nonce.value, now + options.toleranceMs, now);
      return if isNew then Ok(r.keyId.value) else Err(NonceReplayed);
    }
  }

  // --- the memory in the database -------------------------------------------------------

  type NonceRows = map<(string, string), int>

  /** One transaction: drop an expired row of this pair, then insert unless one is there. */
  function RememberRow(rows: NonceRows, keyId: string, nonce: string, expiresAt: int, now: int): (NonceRows, bool) {
    var kept := if (keyId, nonce) in rows && rows[(keyId, nonce)] <= now then rows - {(keyId, nonce)} else rows;
    if (keyId, nonce) in kept then (kept, false) else (kept[(keyId, nonce) := expiresAt], true)
  }

  predicate SpaceFree(s: string) {
    forall k :: 0 <= k < |s| ==> s[k] != ' '
  }

  lemma KeysAreToldApart(keyId: string, nonce: string, keyId': string, nonce': string)
    requires SpaceFree(keyId) && SpaceFree(keyId') && NonceKey(keyId, nonce) == NonceKey(keyId', nonce')
    ensures keyId == keyId' && nonce == nonce'
  {
    var s := NonceKey(keyId, nonce);
    assert s[|keyId|] == ' ' && s[|keyId'|] == ' ';
    assert s[..|keyId|] == keyId && s[..|keyId'|] == keyId';
    assert s[|keyId| + 1..] == nonce && s[|keyId'| + 1..] == nonce';
  }

  /** With a space in the id, the joined key no longer says where the id ends. */
  lemma SpacesConfuseKeys(a: string, b: string, c: string)
    ensures NonceKey(a + " " + b, c) == NonceKey(a, b + " " + c) && (a + " " + b, c) != (a, b + " " + c)
  {
    assert (a + " " + b) + " " + c == a + " " + (b + " " + c);
    assert |a + " " + b| > |a|;
  }

  /** How a pair is written in the memory of the process. */
  type Joiner = ((string, string)) -> string

  /** The two memories hold the same pairs until the same times. */
  ghost predicate SameMemory(join: Joiner, seen: Memory, rows: NonceRows) {
    && (forall p :: p in rows ==> join(p) in seen && seen[join(p)] == rows[p])
    && (forall k :: k in seen ==> exists p :: p in rows && join(p) == k)
  }

  lemma JoinedMemoriesAnswerAlike(join: Joiner, seen: Memory, rows: NonceRows, p: (string, string), expiresAt: int, now: int)
    requires SameMemory(join, seen, rows)
    requires forall q :: q in rows && join(q) == join(p) ==> q == p
    ensures var (seen', isNew) := Remember(seen, join(p), expiresAt, now);
            var (rows', inserted) := RememberRow(rows, p.0, p.1, expiresAt, now);
            isNew == inserted && SameMemory(join, seen', rows') && rows'.Keys == rows.Keys + {p}
  {
    var (seen', isNew) := Remember(seen, join(p), expiresAt, now);
    var (rows', inserted) := RememberRow(rows, p.0, p.1, expiresAt, now);
    assert (p.0, p.1) == p;
    assert join(p) in seen <==> p in rows;
    forall k | k in seen'
      ensures exists q :: q in rows' && join(q) == k
    {
      if k == join(p) {
        assert p in rows';
      } else {
        var q :| q in rows && join(q) == k;
        assert q in rows';
      }
    }
  }

  /** As long as key ids contain no space, the memory in the process answers as the one in the database does, ever after. */
  lemma MemoriesAnswerAlike(seen: Memory, rows: NonceRows, keyId: string, nonce: string, expiresAt: int, now: int)
    requires SameMemory((p: (string, string)) => NonceKey(p.0, p.1), seen, rows)
    requires SpaceFree(keyId) && forall p :: p in rows ==> SpaceFree(p.0)
    ensures var join := (p: (string, string)) => NonceKey(p.0, p.1);
            var (seen', isNew) := Remember(seen, NonceKey(keyId, nonce), expiresAt, now);
            var (rows', inserted) := RememberRow(rows, keyId, nonce, expiresAt, now);
            isNew == inserted && SameMemory(join, seen', rows') && forall p :: p in rows' ==> SpaceFree(p.0)
  {
    var join := (p: (string, string)) => NonceKey(p.0, p.1);
    forall q | q in rows && join(q) == join((keyId, nonce))
      ensures q == (keyId, nonce)
    {
      KeysAreToldApart(q.0, q.1, keyId, nonce);
    }
    JoinedMemoriesAnswerAlike(join, seen, rows, (keyId, nonce), expiresAt, now);
  }

  // --- over any number of calls ---------------------------------------------------------

  datatype Remembering = Remembering(pair: (string, string), expiresAt: int, now: int)

  function AnswersOfProcess(join: Joiner, seen: Memory, rs: seq<Remembering>): seq<bool>
    decreases |rs|
  {
    if rs == [] then []
    else
      var (seen', isNew) := Remember(seen, join(rs[0].pair), rs[0].expiresAt, rs[0].now);
      [isNew] + AnswersOfProcess(join, seen', rs[1..])
  }

  function AnswersOfDatabase(rows: NonceRows, rs: seq<Remembering>): seq<bool>
    decreases |rs|
  {
    if rs == [] then []
    else
      var (rows', isNew) := RememberRow(rows, rs[0].pair.0, rs[0].pair.1, rs[0].expiresAt, rs[0].now);
      [isNew] + AnswersOfDatabase(rows', rs[1..])
  }

  /** Another pair that reads the same is still remembered. */
  ghost predicate Confused(join: Joiner, rows: NonceRows, r: Remembering) {
    exists p :: p in rows && rows[p] > r.now && p != r.pair && join(p) == join(r.pair)
  }

  ghost predicate NeverConfused(join: Joiner, rows: NonceRows, rs: seq<Remembering>)
    decreases |rs|
  {
    rs == [] ||
    (!Confused(join, rows, rs[0])
     && NeverConfused(join, RememberRow(rows, rs[0].pair.0, rs[0].pair.1, rs[0].expiresAt, rs[0].now).0, rs[1..]))
  }

  predicate InOrder(rs: seq<Remembering>, clock: int)
    decreases |rs|
  {
    rs == [] || (clock <= rs[0].now && InOrder(rs[1..], rs[0].now))
  }

  /** The two memories remember the same at this time, and no two pairs that read the same. */
  ghost predicate RememberAlike(join: Joiner, seen: Memory, rows: NonceRows, clock: int) {
    && (forall p :: p in rows && rows[p] > clock ==> join(p) in seen && seen[join(p)] == rows[p])
    && (forall k :: k in seen && seen[k] > clock ==> exists p :: p in rows && join(p) == k && rows[p] == seen[k])
    && (forall p, q :: p in rows && q in rows && rows[p] > clock && rows[q] > clock && join(p) == join(q) ==> p == q)
  }

  lemma OneCallAlike(join: Joiner, seen: Memory, rows: NonceRows, r: Remembering, clock: int)
    requires RememberAlike(join, seen, rows, clock) && clock <= r.now
    ensures var (seen', isNew) := Remember(seen, join(r.pair), r.expiresAt, r.now);
            var (rows', inserted) := RememberRow(rows, r.pair.0, r.pair.1, r.expiresAt, r.now);
            && (isNew == inserted <==> !Confused(join, rows, r))
            && (!Confused(join, rows, r) ==> RememberAlike(join, seen', rows', r.now))
  {
    var (seen', isNew) := Remember(seen, join(r.pair), r.expiresAt, r.now);
    var (rows', inserted) := RememberRow(rows, r.pair.0, r.pair.1, r.expiresAt, r.now);
    assert (r.pair.0, r.pair.1) == r.pair;
    if !Confused(join, rows, r) {
      forall k | k in seen' && seen'[k] > r.now
        ensures exists p :: p in rows' && join(p) == k && rows'[p] == seen'[k]
      {
        if k == join(r.pair) && isNew {
          assert r.pair in rows';
        } else {
          var p :| p in rows && join(p) == k && rows[p] == seen[k];
          assert p in rows' && rows'[p] == rows[p];
        }
      }
    }
  }

  /**
   With a clock that does not go back, the memory in the process answers as the one in the
   database exactly as long as no call comes for a pair that reads like another one remembered.
   */
  lemma {:induction false} MemoriesAgreeExactlyWhenNotConfused(
    join: Joiner, seen: Memory, rows: NonceRows, rs: seq<Remembering>, clock: int)
    requires RememberAlike(join, seen, rows, clock) && InOrder(rs, clock)
    ensures AnswersOfProcess(join, seen, rs) == AnswersOfDatabase(rows, rs) <==> NeverConfused(join, rows, rs)
    decreases |rs|
  {
    if rs != [] {
      var r := rs[0];
      OneCallAlike(join, seen, rows, r, clock);
      var (seen', isNew) := Remember(seen, join(r.pair), r.expiresAt, r.now);
      var (rows', inserted) := RememberRow(rows, r.pair.0, r.pair.1, r.expiresAt, r.now);
      var a, b := AnswersOfProcess(join, seen, rs), AnswersOfDatabase(rows, rs);
      assert a[0] == isNew && a[1..] == AnswersOfProcess(join, seen', rs[1..]);
      assert b[0] == inserted && b[1..] == AnswersOfDatabase(rows', rs[1..]);
      if isNew == inserted {
        MemoriesAgreeExactlyWhenNotConfused(join, seen', rows', rs[1..], r.now);
        assert a == [a[0]] + a[1..] && b == [b[0]] + b[1..];
      }
    }
  }
}
