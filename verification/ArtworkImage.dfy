/**
 Replacing and deleting artwork images: every interleaving of uploads, deletions and catalogue
 edits over one table and one object store. One event is one step of one party between two
 waits; a party that crashes takes no further step.
 */
module ArtworkImage {
  import opened Wrappers

  /** `rest` stands for every other column that a write of the whole row writes too. */
  datatype Row = Row(imageKey: Option<string>, rest: string)

  datatype Phase =
    | Loaded(row: Row)
    | Stored(row: Row, key: string)
    | Written(previous: Option<string>, key: string)
    | DeleteLoaded(row: Row)
    | Deleted(previous: Option<string>)
    | EditLoaded(row: Row)
    | Gone

  datatype Party = Party(artworkId: string, phase: Phase)

  /** `owner` tells for which artwork each key was made; `used` are the ids ever given to an artwork. */
  datatype World = World(
    rows: map<string, Row>, storage: set<string>, parties: seq<Party>, owner: map<string, string>, used: set<string>)

  datatype Event =
    | Create(id: string, rest: string)
    | UploadLoad(id: string)
    | UploadPut(who: nat, key: string)
    | UploadWrite(who: nat)
    | UploadRemove(who: nat, up: bool)
    | DeleteLoad(id: string)
    | DeleteWrite(who: nat)
    | DeleteRemove(who: nat, up: bool)
    | EditLoad(id: string)
    | EditWrite(who: nat, rest: string)
    | Crash(who: nat)

  function Start(): World {
    World(map[], {}, [], map[], {})
  }

  function Moved(w: World, who: nat, phase: Phase): World
    requires who < |w.parties|
  {
    w.(parties := w.parties[who := w.parties[who].(phase := phase)])
  }

  function Removed(storage: set<string>, key: Option<string>, up: bool): set<string> {
    if key.Some? && up then storage - {key.value} else storage
  }

  predicate Enabled(w: World, e: Event) {
    match e
    case Create(id, _) => id !in w.used
    case UploadLoad(id) => id in w.rows
    case DeleteLoad(id) => id in w.rows
    case EditLoad(id) => id in w.rows
    case UploadPut(who, key) => who < |w.parties| && w.parties[who].phase.Loaded? && key !in w.owner
    case UploadWrite(who) => who < |w.parties| && w.parties[who].phase.Stored?
    case UploadRemove(who, _) => who < |w.parties| && w.parties[who].phase.Written?
    case DeleteWrite(who) => who < |w.parties| && w.parties[who].phase.DeleteLoaded?
    case DeleteRemove(who, _) => who < |w.parties| && w.parties[who].phase.Deleted?
    case EditWrite(who, _) => who < |w.parties| && w.parties[who].phase.EditLoaded?
    case Crash(who) => who < |w.parties|
  }

  /** A write to a row that is gone fails, and so ends its party. */
  function Next(w: World, e: Event): World {
    if !Enabled(w, e) then w
    else match e
      case Create(id, rest) => w.(rows := w.rows[id := Row(None, rest)], used := w.used + {id})
      case UploadLoad(id) => w.(parties := w.parties + [Party(id, Loaded(w.rows[id]))])
      case DeleteLoad(id) => w.(parties := w.parties + [Party(id, DeleteLoaded(w.rows[id]))])
      case EditLoad(id) => w.(parties := w.parties + [Party(id, EditLoaded(w.rows[id]))])
      case UploadPut(who, key) =>
        Moved(w, who, Stored(w.parties[who].phase.row, key))
        .(storage := w.storage + {key}, owner := w.owner[key := w.parties[who].artworkId])
      case UploadWrite(who) =>
        var id, phase := w.parties[who].artworkId, w.parties[who].phase;
        if id !in w.rows then Moved(w, who, Gone)
        else Moved(w, who, Written(phase.row.imageKey, phase.key))
             .(rows := w.rows[id := phase.row.(imageKey := Some(phase.key))])
      case UploadRemove(who, up) =>
        var phase := w.parties[who].phase;
        Moved(w, who, Gone)
        .(storage := if phase.previous == Some(phase.key) then w.storage else Removed(w.storage, phase.previous, up))
      case DeleteWrite(who) =>
        var id := w.parties[who].artworkId;
        if id !in w.rows then Moved(w, who, Gone)
        else Moved(w, who, Deleted(w.parties[who].phase.row.imageKey)).(rows := w.rows - {id})
      case DeleteRemove(who, up) =>
        Moved(w, who, Gone).(storage := Removed(w.storage, w.parties[who].phase.previous, up))
      case EditWrite(who, rest) =>
        var id := w.parties[who].artworkId;
        if id !in w.rows then Moved(w, who, Gone)
        else Moved(w, who, Gone).(rows := w.rows[id := w.parties[who].phase.row.(rest := rest)])
      case Crash(who) => Moved(w, who, Gone)
  }

  function Run(w: World, es: seq<Event>): World
    decreases |es|
  {
    if es == [] then w else Run(Next(w, es[0]), es[1..])
  }

  // --- what every run keeps -------------------------------------------------------------

  /** Every existing artwork's image is in storage. */
  ghost predicate NothingDangles(w: World) {
    forall id :: id in w.rows && w.rows[id].imageKey.Some? ==> w.rows[id].imageKey.value in w.storage
  }

  /** A key that has been read or written for an artwork was made for it. */
  ghost predicate MadeFor(owner: map<string, string>, key: Option<string>, id: string) {
    key.Some? ==> key.value in owner && owner[key.value] == id
  }

  /** A key about to be removed is no longer the artwork's image. */
  ghost predicate Replaced(rows: map<string, Row>, key: Option<string>, id: string) {
    key.Some? && id in rows ==> rows[id].imageKey != key
  }

  /** The keys a party has read and may come to remove or write back. */
  function Held(p: Party): Option<string> {
    match p.phase
    case Loaded(row) => row.imageKey
    case Stored(row, _) => row.imageKey
    case Written(previous, _) => previous
    case DeleteLoaded(row) => row.imageKey
    case Deleted(previous) => previous
    case EditLoaded(row) => row.imageKey
    case Gone => None
  }

  ghost predicate PartyOk(w: World, p: Party) {
    && p.artworkId in w.used
    && MadeFor(w.owner, Held(p), p.artworkId)
    && (p.phase.Written? ==> p.phase.previous != Some(p.phase.key))
    && (p.phase.Written? || p.phase.Deleted? ==> Replaced(w.rows, Held(p), p.artworkId))
    && (p.phase.Stored? ==>
          MadeFor(w.owner, Some(p.phase.key), p.artworkId) && p.phase.key in w.storage && Unseen(w, p.phase.key))
  }

  /** No row shows this key and no party has read it. */
  ghost predicate Unseen(w: World, key: string) {
    && (forall id :: id in w.rows ==> w.rows[id].imageKey != Some(key))
    && (forall i :: 0 <= i < |w.parties| ==> Held(w.parties[i]) != Some(key))
  }

  ghost predicate RowsOk(w: World) {
    forall id :: id in w.rows ==> id in w.used && MadeFor(w.owner, w.rows[id].imageKey, id)
  }

  ghost predicate Inv(w: World) {
    && NothingDangles(w) && RowsOk(w)
    && (forall i :: 0 <= i < |w.parties| ==> PartyOk(w, w.parties[i]))
    && (forall i, j :: 0 <= i < j < |w.parties| && w.parties[i].phase.Stored? && w.parties[j].phase.Stored? ==>
          w.parties[i].phase.key != w.parties[j].phase.key)
  }

  /** Somebody has replaced or deleted this key and has yet to remove it. */
  predicate BeingRemoved(w: World, key: string) {
    exists i :: 0 <= i < |w.parties| && (w.parties[i].phase.Written? || w.parties[i].phase.Deleted?)
                && Held(w.parties[i]) == Some(key)
  }

  /** An edit writes back no key that has been removed, or is just being removed. */
  predicate Safe(w: World, e: Event) {
    e.EditWrite? && Enabled(w, e) && w.parties[e.who].artworkId in w.rows ==>
      var key := w.parties[e.who].phase.row.imageKey;
      key.Some? ==> key.value in w.storage && !BeingRemoved(w, key.value)
  }

  predicate SafeRun(w: World, es: seq<Event>)
    decreases |es|
  {
    es == [] || (Safe(w, es[0]) && SafeRun(Next(w, es[0]), es[1..]))
  }

  lemma LoadKeepsInv(w: World, e: Event)
    requires Inv(w) && (e.Create? || e.UploadLoad? || e.DeleteLoad? || e.EditLoad?)
    ensures Inv(Next(w, e))
  {
    var w' := Next(w, e);
    forall i | 0 <= i < |w'.parties|
      ensures PartyOk(w', w'.parties[i])
    {
      if i < |w.parties| {
        assert w'.parties[i] == w.parties[i] && PartyOk(w, w.parties[i]);
      }
    }
  }

  lemma PutKeepsInv(w: World, e: Event)
    requires Inv(w) && e.UploadPut?
    ensures Inv(Next(w, e))
  {
    if Enabled(w, e) {
      var w' := Next(w, e);
      forall i | 0 <= i < |w'.parties|
        ensures PartyOk(w', w'.parties[i])
      {
        assert PartyOk(w, w.parties[i]);
      }
      forall i | 0 <= i < |w.parties|
        ensures w.parties[i].phase.Stored? ==> w.parties[i].phase.key != e.key
      {
        assert PartyOk(w, w.parties[i]);
      }
    }
  }

  lemma WriteKeepsInv(w: World, e: Event)
    requires Inv(w) && e.UploadWrite?
    ensures Inv(Next(w, e))
  {
    if Enabled(w, e) {
      var w' := Next(w, e);
      assert PartyOk(w, w.parties[e.who]);
      forall i | 0 <= i < |w'.parties|
        ensures PartyOk(w', w'.parties[i])
      {
        assert PartyOk(w, w.parties[i]);
      }
    }
  }

  lemma RemoveKeepsInv(w: World, e: Event)
    requires Inv(w) && (e.UploadRemove? || e.DeleteRemove?)
    ensures Inv(Next(w, e))
  {
    if Enabled(w, e) {
      var w' := Next(w, e);
      assert PartyOk(w, w.parties[e.who]);
      forall i | 0 <= i < |w'.parties|
        ensures PartyOk(w', w'.parties[i])
      {
        assert PartyOk(w, w.parties[i]);
      }
    }
  }

  lemma DeleteWriteKeepsInv(w: World, e: Event)
    requires Inv(w) && e.DeleteWrite?
    ensures Inv(Next(w, e))
  {
    if Enabled(w, e) {
      var w' := Next(w, e);
      assert PartyOk(w, w.parties[e.who]);
      forall i | 0 <= i < |w'.parties|
        ensures PartyOk(w', w'.parties[i])
      {
        assert PartyOk(w, w.parties[i]);
      }
    }
  }

  lemma EditWriteKeepsInv(w: World, e: Event)
    requires Inv(w) && Safe(w, e) && e.EditWrite?
    ensures Inv(Next(w, e))
  {
    if Enabled(w, e) {
      var w' := Next(w, e);
      assert PartyOk(w, w.parties[e.who]);
      forall i | 0 <= i < |w'.parties|
        ensures PartyOk(w', w'.parties[i])
      {
        assert PartyOk(w, w.parties[i]);
      }
    }
  }

  lemma CrashKeepsInv(w: World, e: Event)
    requires Inv(w) && e.Crash?
    ensures Inv(Next(w, e))
  {
    if Enabled(w, e) {
      var w' := Next(w, e);
      forall i | 0 <= i < |w'.parties|
        ensures PartyOk(w', w'.parties[i])
      {
        assert PartyOk(w, w.parties[i]);
      }
    }
  }

  lemma StepKeepsInv(w: World, e: Event)
    requires Inv(w) && Safe(w, e)
    ensures Inv(Next(w, e))
  {
    if e.Create? || e.UploadLoad? || e.DeleteLoad? || e.EditLoad? {
      LoadKeepsInv(w, e);
    } else if e.UploadPut? {
      PutKeepsInv(w, e);
    } else if e.UploadWrite? {
      WriteKeepsInv(w, e);
    } else if e.UploadRemove? || e.DeleteRemove? {
      RemoveKeepsInv(w, e);
    } else if e.DeleteWrite? {
      DeleteWriteKeepsInv(w, e);
    } else if e.EditWrite? {
      EditWriteKeepsInv(w, e);
    } else {
      CrashKeepsInv(w, e);
    }
  }

  lemma {:induction false} RunKeepsInv(w: World, es: seq<Event>)
    requires Inv(w) && SafeRun(w, es)
    ensures Inv(Run(w, es))
    decreases |es|
  {
    if es != [] {
      StepKeepsInv(w, es[0]);
      RunKeepsInv(Next(w, es[0]), es[1..]);
    }
  }

  /** However uploads, deletions and safe edits interleave and crash, every artwork's image is in storage. */
  lemma ImagesNeverDangle(es: seq<Event>)
    requires SafeRun(Start(), es)
    ensures NothingDangles(Run(Start(), es))
  {
    RunKeepsInv(Start(), es);
  }

  lemma {:induction false} WithoutEditsIsSafe(w: World, es: seq<Event>)
    requires forall i :: 0 <= i < |es| ==> !es[i].EditWrite?
    ensures SafeRun(w, es)
    decreases |es|
  {
    if es != [] {
      WithoutEditsIsSafe(Next(w, es[0]), es[1..]);
    }
  }

  /** In particular, with uploads and deletions alone there is nothing to be unsafe. */
  lemma UploadsAndDeletionsNeverDangle(es: seq<Event>)
    requires forall i :: 0 <= i < |es| ==> !es[i].EditWrite?
    ensures NothingDangles(Run(Start(), es))
  {
    WithoutEditsIsSafe(Start(), es);
    ImagesNeverDangle(es);
  }

  predicate IsRemoval(e: Event) {
    (e.UploadRemove? || e.DeleteRemove?) && e.up
  }

  /** Nothing dangles now, and nothing will once any one of the removals still to come is made. */
  ghost predicate Whole(w: World) {
    NothingDangles(w) && forall r :: IsRemoval(r) ==> NothingDangles(Next(w, r))
  }

  ghost predicate StaysWhole(w: World, es: seq<Event>)
    decreases |es|
  {
    Whole(w) && (es == [] || StaysWhole(Next(w, es[0]), es[1..]))
  }

  lemma InvIsWhole(w: World)
    requires Inv(w)
    ensures Whole(w)
  {
    forall r | IsRemoval(r)
      ensures NothingDangles(Next(w, r))
    {
      RemoveKeepsInv(w, r);
    }
  }

  /** An unsafe edit leaves the image dangling at once, or as soon as the removal under way is made. */
  lemma UnsafeEditDangles(w: World, e: Event)
    requires Inv(w) && !Safe(w, e)
    ensures !Whole(Next(w, e))
  {
    var w' := Next(w, e);
    var id := w.parties[e.who].artworkId;
    var key := w.parties[e.who].phase.row.imageKey;
    assert w'.rows[id].imageKey == key;
    if key.value in w.storage {
      var i :| 0 <= i < |w.parties| && (w.parties[i].phase.Written? || w.parties[i].phase.Deleted?)
               && Held(w.parties[i]) == key;
      assert PartyOk(w, w.parties[i]);
      assert w'.parties[i] == w.parties[i];
      var r := if w.parties[i].phase.Written? then UploadRemove(i, true) else DeleteRemove(i, true);
      assert IsRemoval(r) && key.value !in Next(w', r).storage && Next(w', r).rows == w'.rows;
    }
  }

  /**
   Images stay in storage, whichever of the removals under way is made next, exactly when no edit
   of the run writes back a key that has been removed or is just being removed.
   */
  lemma {:induction false} ImagesStayExactlyWhenEditsAreSafe(w: World, es: seq<Event>)
    requires Inv(w)
    ensures StaysWhole(w, es) <==> SafeRun(w, es)
    decreases |es|
  {
    InvIsWhole(w);
    if es != [] {
      if Safe(w, es[0]) {
        StepKeepsInv(w, es[0]);
        ImagesStayExactlyWhenEditsAreSafe(Next(w, es[0]), es[1..]);
      } else {
        UnsafeEditDangles(w, es[0]);
      }
    }
  }

  /** An edit that writes back the key its artwork still has is safe. */
  lemma TimelyEditIsSafe(w: World, e: Event)
    requires Inv(w) && e.EditWrite? && Enabled(w, e) && w.parties[e.who].artworkId in w.rows
    requires w.rows[w.parties[e.who].artworkId].imageKey == w.parties[e.who].phase.row.imageKey
    ensures Safe(w, e)
  {
    var key := w.parties[e.who].phase.row.imageKey;
    assert PartyOk(w, w.parties[e.who]);
    forall i | 0 <= i < |w.parties| && (w.parties[i].phase.Written? || w.parties[i].phase.Deleted?)
      ensures key.Some? ==> Held(w.parties[i]) != key
    {
      assert PartyOk(w, w.parties[i]);
    }
  }

  /** At its own step, an edit leaves an image dangling exactly when the key it writes back has been removed already. */
  lemma EditDanglesExactlyWhenRemoved(w: World, e: Event)
    requires Inv(w) && e.EditWrite? && Enabled(w, e) && w.parties[e.who].artworkId in w.rows
    ensures var key := w.parties[e.who].phase.row.imageKey;
            NothingDangles(Next(w, e)) <==> key.None? || key.value in w.storage
  {
    var id := w.parties[e.who].artworkId;
    assert Next(w, e).rows[id].imageKey == w.parties[e.who].phase.row.imageKey;
  }

  /** An upload that replaces an image: of what was there before, only the old image is gone. */
  lemma UploadReplaces(w: World, who: nat, key: string)
    requires Inv(w) && who < |w.parties| && w.parties[who].phase.Loaded? && w.parties[who].artworkId in w.rows
    requires w.rows[w.parties[who].artworkId] == w.parties[who].phase.row && key !in w.owner
    requires w.parties[who].phase.row.imageKey.Some?
    ensures var id, row := w.parties[who].artworkId, w.parties[who].phase.row;
            var w' := Run(w, [UploadPut(who, key), UploadWrite(who), UploadRemove(who, true)]);
            Inv(w') && w'.rows == w.rows[id := row.(imageKey := Some(key))]
            && w'.storage == w.storage + {key} - {row.imageKey.value}
            && w'.parties == w.parties[who := Party(id, Gone)]
  {
    RunOfThree(w, UploadPut(who, key), UploadWrite(who), UploadRemove(who, true));
    var w1 := Next(w, UploadPut(who, key));
    var w2 := Next(w1, UploadWrite(who));
    PutKeepsInv(w, UploadPut(who, key));
    WriteKeepsInv(w1, UploadWrite(who));
    RemoveKeepsInv(w2, UploadRemove(who, true));
    assert PartyOk(w, w.parties[who]);
  }

  /** And that does happen: an edit begun before a replacement and saved after it. */
  lemma LateEditLeavesAnImageDangling(w: World, who: nat, editor: nat, key: string, rest: string)
    requires Inv(w) && who < |w.parties| && w.parties[who].phase.Loaded? && w.parties[who].artworkId in w.rows
    requires w.rows[w.parties[who].artworkId] == w.parties[who].phase.row && key !in w.owner
    requires w.parties[who].phase.row.imageKey.Some?
    requires editor < |w.parties| && w.parties[editor] == Party(w.parties[who].artworkId, EditLoaded(w.parties[who].phase.row))
    ensures var replaced := Run(w, [UploadPut(who, key), UploadWrite(who), UploadRemove(who, true)]);
            NothingDangles(replaced) && !NothingDangles(Next(replaced, EditWrite(editor, rest)))
  {
    UploadReplaces(w, who, key);
    var replaced := Run(w, [UploadPut(who, key), UploadWrite(who), UploadRemove(who, true)]);
    assert replaced.parties[editor] == w.parties[editor];
    assert PartyOk(w, w.parties[who]);
    EditDanglesExactlyWhenRemoved(replaced, EditWrite(editor, rest));
  }

  /** An artwork and its first image; and an edit, read before the image is replaced, saved between its write and its removal. */
  function FirstUpload(id: string, key: string, rest: string): seq<Event> {
    [Create(id, rest), UploadLoad(id), UploadPut(0, key), UploadWrite(0), UploadRemove(0, true)]
  }

  function EditDuringReplacement(id: string, key: string, rest: string): seq<Event> {
    [UploadLoad(id), EditLoad(id), UploadPut(1, key), UploadWrite(1), EditWrite(2, rest)]
  }

  lemma AfterFirstUpload(id: string, key: string, rest: string)
    ensures Run(Start(), FirstUpload(id, key, rest))
            == World(map[id := Row(Some(key), rest)], {key}, [Party(id, Gone)], map[key := id], {id})
  {
    RunOfFive(Start(), FirstUpload(id, key, rest));
    var w := Next(Next(Start(), Create(id, rest)), UploadLoad(id));
    assert w == World(map[id := Row(None, rest)], {}, [Party(id, Loaded(Row(None, rest)))], map[], {id});
  }

  /** Both have read the row; then the image is put, and the row is written twice. */
  lemma BothHaveRead(w: World, id: string)
    requires id in w.rows && |w.parties| == 1
    ensures Next(Next(w, UploadLoad(id)), EditLoad(id))
            == w.(parties := [w.parties[0], Party(id, Loaded(w.rows[id])), Party(id, EditLoaded(w.rows[id]))])
  {
  }

  lemma BothHaveWritten(w: World, p: Party, id: string, row: Row, key: string)
    requires w.rows == map[id := row] && w.parties == [p, Party(id, Loaded(row)), Party(id, EditLoaded(row))] && key !in w.owner
    ensures Next(Next(Next(w, UploadPut(1, key)), UploadWrite(1)), EditWrite(2, row.rest))
            == w.(parties := [p, Party(id, Written(row.imageKey, key)), Party(id, Gone)],
                  storage := w.storage + {key}, owner := w.owner[key := id])
  {
    var w1 := Next(w, UploadPut(1, key));
    assert w1.parties == [p, Party(id, Stored(row, key)), Party(id, EditLoaded(row))];
    var w2 := Next(w1, UploadWrite(1));
    assert w2.parties == [p, Party(id, Written(row.imageKey, key)), Party(id, EditLoaded(row))];
    assert w2.rows == map[id := row.(imageKey := Some(key))];
  }

  lemma AfterEditDuringReplacement(w: World, id: string, row: Row, key: string)
    requires w.rows == map[id := row] && |w.parties| == 1 && key !in w.owner
    ensures Run(w, EditDuringReplacement(id, key, row.rest))
            == w.(parties := [w.parties[0], Party(id, Written(row.imageKey, key)), Party(id, Gone)],
                  storage := w.storage + {key}, owner := w.owner[key := id])
  {
    RunOfFive(w, EditDuringReplacement(id, key, row.rest));
    BothHaveRead(w, id);
    BothHaveWritten(Next(Next(w, UploadLoad(id)), EditLoad(id)), w.parties[0], id, row, key);
  }

  /** Such an edit does no harm at its own step; the removal that follows leaves the image dangling. */
  lemma EditDuringReplacementDangles(id: string, first: string, second: string, rest: string)
    requires first != second
    ensures var w := Run(Start(), FirstUpload(id, first, rest) + EditDuringReplacement(id, second, rest));
            NothingDangles(w) && !NothingDangles(Next(w, UploadRemove(1, true)))
  {
    AfterFirstUpload(id, first, rest);
    AfterEditDuringReplacement(Run(Start(), FirstUpload(id, first, rest)), id, Row(Some(first), rest), second);
    RunOfBoth(Start(), FirstUpload(id, first, rest), EditDuringReplacement(id, second, rest));
    var w := Run(Start(), FirstUpload(id, first, rest) + EditDuringReplacement(id, second, rest));
    assert Next(w, UploadRemove(1, true)).storage == {second};
    assert Next(w, UploadRemove(1, true)).rows[id].imageKey == Some(first);
  }

  lemma RunOfFive(w: World, es: seq<Event>)
    requires |es| == 5
    ensures Run(w, es) == Next(Next(Next(Next(Next(w, es[0]), es[1]), es[2]), es[3]), es[4])
  {
    RunOfThree(Next(Next(w, es[0]), es[1]), es[2], es[3], es[4]);
    assert es[1..][1..] == [es[2], es[3], es[4]];
  }

  lemma {:induction false} RunOfBoth(w: World, es: seq<Event>, more: seq<Event>)
    ensures Run(w, es + more) == Run(Run(w, es), more)
    decreases |es|
  {
    if es == [] {
      assert es + more == more;
    } else {
      assert (es + more)[1..] == es[1..] + more;
      RunOfBoth(Next(w, es[0]), es[1..], more);
    }
  }

  lemma RunOfThree(w: World, a: Event, b: Event, c: Event)
    ensures Run(w, [a, b, c]) == Next(Next(Next(w, a), b), c)
  {
    assert [a, b, c][1..] == [b, c] && [b, c][1..] == [c];
    assert Run(Next(Next(w, a), b), [c]) == Next(Next(Next(w, a), b), c);
  }

  // --- the services ---------------------------------------------------------------------

  /** The table and the object store, with the bookkeeping of keys and ids beside them. */
  class Catalog {
    var rows: map<string, Row>
    var storage: set<string>
    ghost var owner: map<string, string>
    ghost var used: set<string>

    constructor ()
      ensures View() == Start()
    {
      rows, storage, owner, used := map[], {}, map[], {};
    }

    ghost function View(): World
      reads this
    {
      World(rows, storage, [], owner, used)
    }

    method Remove(key: string, up: bool)
      modifies this`storage
      ensures storage == Removed(old(storage), Some(key), up)
    {
      if up {
        storage := storage - {key};
      }
    }
  }

  /** What an upload alone, from the state before it, does to table and store. */
  ghost predicate LeftBy(before: World, es: seq<Event>, after: World) {
    var w := Run(before, es);
    after.rows == w.rows && after.storage == w.storage && after.owner == w.owner && after.used == w.used
  }

  class ArtworkImageService {
    const catalog: Catalog

    constructor (catalog: Catalog)
      ensures this.catalog == catalog
    {
      this.catalog := catalog;
    }

    /** `accepted` tells whether the bytes are an image, `key` is newly generated, `up` whether the last removal gets through. */
    method Upload(id: string, accepted: bool, key: string, up: bool) returns (uploaded: bool)
      requires Inv(catalog.View()) && key !in catalog.owner
      modifies catalog
      ensures Inv(catalog.View())
      ensures uploaded == (accepted && id in old(catalog.rows))
      ensures LeftBy(old(catalog.View()),
                     if uploaded then [UploadLoad(id), UploadPut(0, key), UploadWrite(0), UploadRemove(0, up)] else [],
                     catalog.View())
      ensures uploaded ==>
                var was := old(catalog.rows)[id];
                catalog.rows == old(catalog.rows)[id := Row(Some(key), was.rest)]
                && catalog.storage == old(catalog.storage) + {key} - (if up && was.imageKey.Some? then {was.imageKey.value} else {})
      ensures !uploaded ==> catalog.View() == old(catalog.View())
    {
      if id !in catalog.rows || !accepted {
        return false;
      }
      ghost var before := catalog.View();
      UploadUnfolds(before, id, key, up);
      var artwork := catalog.rows[id];
      catalog.storage := catalog.storage + {key};
      catalog.owner := catalog.owner[key := id];
      var previousKey := artwork.imageKey;
      catalog.rows := catalog.rows[id := artwork.(imageKey := Some(key))];
      if previousKey.Some? && previousKey.value != key {
        catalog.Remove(previousKey.value, up);
      }
      return true;
    }

  }

  class AdminCatalogService {
    const catalog: Catalog

    constructor (catalog: Catalog)
      ensures this.catalog == catalog
    {
      this.catalog := catalog;
    }

    /** `allowed` is the domain's answer; the image is removed only after the row is gone. */
    method DeleteArtwork(id: string, allowed: bool, up: bool) returns (deleted: bool)
      requires Inv(catalog.View())
      modifies catalog
      ensures Inv(catalog.View())
      ensures deleted == (allowed && id in old(catalog.rows))
      ensures LeftBy(old(catalog.View()), if deleted then [DeleteLoad(id), DeleteWrite(0), DeleteRemove(0, up)] else [],
                     catalog.View())
      ensures deleted ==>
                var was := old(catalog.rows)[id];
                catalog.rows == old(catalog.rows) - {id}
                && catalog.storage == old(catalog.storage) - (if up && was.imageKey.Some? then {was.imageKey.value} else {})
      ensures !deleted ==> catalog.View() == old(catalog.View())
    {
      if id !in catalog.rows || !allowed {
        return false;
      }
      ghost var before := catalog.View();
      DeletionUnfolds(before, id, up);
      var imageKey := catalog.rows[id].imageKey;
      catalog.rows := catalog.rows - {id};
      if imageKey.Some? {
        catalog.Remove(imageKey.value, up);
      }
      return true;
    }
  }

  lemma UploadUnfolds(w: World, id: string, key: string, up: bool)
    requires Inv(w) && w.parties == [] && id in w.rows && key !in w.owner
    ensures var r := Run(w, [UploadLoad(id), UploadPut(0, key), UploadWrite(0), UploadRemove(0, up)]);
            && r == World(w.rows[id := w.rows[id].(imageKey := Some(key))],
                          Removed(w.storage + {key}, w.rows[id].imageKey, up), [Party(id, Gone)], w.owner[key := id], w.used)
            && Inv(r.(parties := []))
  {
    var es := [UploadLoad(id), UploadPut(0, key), UploadWrite(0), UploadRemove(0, up)];
    var w1 := Next(w, es[0]);
    LoadKeepsInv(w, es[0]);
    assert es[1..] == [UploadPut(0, key), UploadWrite(0), UploadRemove(0, up)];
    assert w.rows[id].imageKey != Some(key);
    UploadFromLoaded(w1, id, key, up);
  }

  lemma UploadFromLoaded(w: World, id: string, key: string, up: bool)
    requires Inv(w) && id in w.rows && w.parties == [Party(id, Loaded(w.rows[id]))] && key !in w.owner
    requires w.rows[id].imageKey != Some(key)
    ensures var r := Run(w, [UploadPut(0, key), UploadWrite(0), UploadRemove(0, up)]);
            && r == World(w.rows[id := w.rows[id].(imageKey := Some(key))],
                          Removed(w.storage + {key}, w.rows[id].imageKey, up), [Party(id, Gone)], w.owner[key := id], w.used)
            && Inv(r.(parties := []))
  {
    RunOfThree(w, UploadPut(0, key), UploadWrite(0), UploadRemove(0, up));
    var w1 := Next(w, UploadPut(0, key));
    var w2 := Next(w1, UploadWrite(0));
    PutKeepsInv(w, UploadPut(0, key));
    WriteKeepsInv(w1, UploadWrite(0));
    RemoveKeepsInv(w2, UploadRemove(0, up));
  }

  lemma DeletionUnfolds(w: World, id: string, up: bool)
    requires Inv(w) && w.parties == [] && id in w.rows
    ensures var r := Run(w, [DeleteLoad(id), DeleteWrite(0), DeleteRemove(0, up)]);
            && r == World(w.rows - {id}, Removed(w.storage, w.rows[id].imageKey, up), [Party(id, Gone)], w.owner, w.used)
            && Inv(r.(parties := []))
  {
    RunOfThree(w, DeleteLoad(id), DeleteWrite(0), DeleteRemove(0, up));
    var w1 := Next(w, DeleteLoad(id));
    var w2 := Next(w1, DeleteWrite(0));
    LoadKeepsInv(w, DeleteLoad(id));
    DeleteWriteKeepsInv(w1, DeleteWrite(0));
    RemoveKeepsInv(w2, DeleteRemove(0, up));
  }

  /** An edit writes back the row it read with the new contents. */
  lemma EditSaves(w: World, who: nat, rest: string)
    requires Enabled(w, EditWrite(who, rest)) && w.parties[who].artworkId in w.rows
    ensures Next(w, EditWrite(who, rest)).rows
            == w.rows[w.parties[who].artworkId := Row(w.parties[who].phase.row.imageKey, rest)]
    ensures Next(w, EditWrite(who, rest)).storage == w.storage
  {
  }
}
