/**
 One undisturbed repair pass: what it does to the tables, how far it gets, and the two programs
 that run it.
 */
module RevocationPasses {
  import opened Wrappers
  import opened WalletEvents
  import opened Revocation
  import opened RevocationRepair

  /** What became of one listed row. */
  datatype RowResult =
    | Passed
    | Reviewed
    | Enqueued(stopped: nat, outcome: EnqueueOutcome)
    | Threw(stopped: nat)

  function RepairRow(hash: Hasher, db: Database, row: MissingRow): (Database, RowResult) {
    var id := row.entitlementId;
    var d := DecideRevocation(row, true);
    match d
    case RevokeOnly => (db, Passed)
    case NeedsReview => (db.(reviews := db.reviews + {(id, RecipientUnresolved)}), Reviewed)
    case RevokeAndNotify(_, _, _) =>
      var n := |StoppableEvents(db.outbox, id)|;
      var stopped := db.(outbox := Supersede(db.outbox, id));
      match PlanRevocation(hash, row, d)
      case Err(_) => (stopped, Threw(n))
      case Ok(p) =>
        var (outbox, outcome) := Enqueue(stopped.outbox, id, p);
        (stopped.(outbox := outbox,
                  reviews := if outcome.Conflict? then db.reviews + {(id, PayloadConflict)} else db.reviews),
         Enqueued(n, outcome))
  }

  datatype Totals = Totals(
    passed: nat, needsReview: nat, created: nat, duplicate: nat, conflicts: nat, superseded: nat, threw: bool)

  const NO_TOTALS := Totals(0, 0, 0, 0, 0, 0, false)

  function Added(t: Totals, r: RowResult): Totals {
    match r
    case Passed => t.(passed := t.passed + 1)
    case Reviewed => t.(needsReview := t.needsReview + 1)
    case Threw(n) => t.(superseded := t.superseded + n, threw := true)
    case Enqueued(n, outcome) =>
      var u := t.(superseded := t.superseded + n);
      match outcome
      case Created => u.(created := u.created + 1)
      case Duplicate => u.(duplicate := u.duplicate + 1)
      case Conflict(_, _) => u.(conflicts := u.conflicts + 1)
  }

  /** What is done about one row. */
  type Stepper = (Database, MissingRow) -> (Database, RowResult)

  /** The first `n` rows in turn; what is thrown ends the pass. */
  function InTurn(step: Stepper, db: Database, rows: seq<MissingRow>, n: nat): (Database, Totals)
    requires n <= |rows|
  {
    if n == 0 then (db, NO_TOTALS)
    else
      var (before, totals) := InTurn(step, db, rows, n - 1);
      if totals.threw then (before, totals)
      else
        var (after, result) := step(before, rows[n - 1]);
        (after, Added(totals, result))
  }

  function Repairing(hash: Hasher): Stepper {
    (db, row) => RepairRow(hash, db, row)
  }

  function RepairRows(hash: Hasher, db: Database, rows: seq<MissingRow>, n: nat): (Database, Totals)
    requires n <= |rows|
  {
    InTurn(Repairing(hash), db, rows, n)
  }

  // --- a row is two steps of the protocol -----------------------------------------------

  /** Deciding not to notify moves the pass on at once. */
  lemma OneStepWithoutNotice(hash: Hasher, w: World, who: nat)
    requires Enabled(w, Repair(who))
    requires !DecideRevocation(w.passes[who].rows[w.passes[who].next], true).RevokeAndNotify?
    ensures var pass := w.passes[who];
            var w' := StepRepair(hash, w, who);
            && w'.db == RepairRow(hash, w.db, pass.rows[pass.next]).0
            && !RepairRow(hash, w.db, pass.rows[pass.next]).1.Threw?
            && w'.passes == w.passes[who := pass.(next := pass.next + 1)] && !w'.passes[who].phase.Stopped?
  {
  }

  /** With a notice, the first step stops the grant and the second queues the notice, unless building it throws. */
  lemma TwoStepsWithNotice(hash: Hasher, w: World, who: nat)
    requires Enabled(w, Repair(who))
    requires DecideRevocation(w.passes[who].rows[w.passes[who].next], true).RevokeAndNotify?
    ensures var pass := w.passes[who];
            var row := pass.rows[pass.next];
            var planned := PlanRevocation(hash, row, DecideRevocation(row, true));
            var repaired := StepRepair(hash, w, who);
            && repaired.db == w.db.(outbox := Supersede(w.db.outbox, row.entitlementId))
            && repaired.passes == w.passes[who := pass.(phase := if planned.Ok? then Stopped(planned.value) else Over)]
  {
  }

  lemma QueueIsTheRest(hash: Hasher, w: World, who: nat)
    requires Enabled(w, Repair(who))
    requires DecideRevocation(w.passes[who].rows[w.passes[who].next], true).RevokeAndNotify?
    requires StepRepair(hash, w, who).passes[who].phase.Stopped?
    ensures var pass := w.passes[who];
            var w' := StepQueue(StepRepair(hash, w, who), who);
            && w'.db == RepairRow(hash, w.db, pass.rows[pass.next]).0
            && !RepairRow(hash, w.db, pass.rows[pass.next]).1.Threw?
            && w'.passes == w.passes[who := pass.(next := pass.next + 1)]
  {
    TwoStepsWithNotice(hash, w, who);
  }

  lemma RowIsTwoSteps(hash: Hasher, w: World, who: nat)
    requires Enabled(w, Repair(who))
    ensures var pass := w.passes[who];
            var (db, result) := RepairRow(hash, w.db, pass.rows[pass.next]);
            var repaired := StepRepair(hash, w, who);
            var w' := if repaired.passes[who].phase.Stopped? then StepQueue(repaired, who) else repaired;
            w'.db == db
            && w'.passes == w.passes[who := if result.Threw? then pass.(phase := Over) else pass.(next := pass.next + 1)]
  {
    if DecideRevocation(w.passes[who].rows[w.passes[who].next], true).RevokeAndNotify? {
      TwoStepsWithNotice(hash, w, who);
      if StepRepair(hash, w, who).passes[who].phase.Stopped? {
        QueueIsTheRest(hash, w, who);
      }
    } else {
      OneStepWithoutNotice(hash, w, who);
    }
  }

  // --- the backlog ----------------------------------------------------------------------

  /** The missing rows by entitlement. */
  type Backlog = map<string, MissingRow>

  ghost function BacklogOf(db: Database): Backlog {
    map id | id in MissingIds(db) :: RowOf(db, id, GrantedOf(db.outbox, id))
  }

  predicate CanResolve(row: MissingRow) {
    DecideRevocation(row, true).RevokeAndNotify?
  }

  /** Which rows can be resolved. */
  type Judge = MissingRow -> bool

  function Resolvable(can: Judge, b: Backlog): set<string> {
    set id | id in b && can(b[id])
  }

  function Unresolvable(can: Judge, b: Backlog): set<string> {
    set id | id in b && !can(b[id])
  }

  /** What repairing one row of the backlog comes to. */
  predicate Resolves(can: Judge, b: Backlog, row: MissingRow, b': Backlog, result: RowResult) {
    if can(row) then result.Enqueued? && result.outcome.Created? && b' == b - {row.entitlementId}
    else result.Reviewed? && b' == b
  }

  ghost predicate NoticeQueued(db: Database, db': Database, id: string) {
    && db' == db.(outbox := db'.outbox) && Shape(db')
    && RevocationEventId(id) !in db.outbox && RevocationEventId(id) in db'.outbox
    && db'.outbox[RevocationEventId(id)].eventType.RevokedEvent? && db'.outbox[RevocationEventId(id)].entitlementId == id
    && db'.outbox == Supersede(db.outbox, id)[RevocationEventId(id) := db'.outbox[RevocationEventId(id)]]
  }

  lemma NoticeIsQueued(hash: Hasher, db: Database, id: string)
    requires Shape(db) && id in MissingIds(db) && CanResolve(RowOf(db, id, GrantedOf(db.outbox, id)))
    ensures var (db', result) := RepairRow(hash, db, RowOf(db, id, GrantedOf(db.outbox, id)));
            result.Enqueued? && result.outcome.Created? && NoticeQueued(db, db', id)
  {
    var row := RowOf(db, id, GrantedOf(db.outbox, id));
    DecidedRowsCanBePlanned(hash, row);
    var p := PlanRevocation(hash, row, DecideRevocation(row, true)).value;
    SupersedeSeals(db.outbox, {}, id);
    var stopped := db.(outbox := Supersede(db.outbox, id));
    StatusesKeepShape(db, stopped.outbox);
    QueueGrows(stopped, id, p);
    if p.eventId in db.outbox {
      RevocationIdsDiffer(db, id, p.eventId);
    }
  }

  lemma QueuedLeavesOthers(db: Database, db': Database, id: string, other: string)
    requires Shape(db) && NoticeQueued(db, db', id) && other in db.entitlements && other != id
    ensures (other in MissingIds(db')) == (other in MissingIds(db))
    ensures other in MissingIds(db) ==>
              RowOf(db', other, GrantedOf(db'.outbox, other)) == RowOf(db, other, GrantedOf(db.outbox, other))
  {
    assert Kept(db, db', other);
    KeptKinds(db, db', other);
  }

  lemma QueuedShrinksMissing(db: Database, db': Database, id: string)
    requires Shape(db) && NoticeQueued(db, db', id)
    ensures MissingIds(db') == MissingIds(db) - {id}
    ensures forall other :: other in MissingIds(db') ==>
              RowOf(db', other, GrantedOf(db'.outbox, other)) == RowOf(db, other, GrantedOf(db.outbox, other))
  {
    assert HasRevoked(db'.outbox, id);
    forall other | other in db.entitlements && other != id
      ensures (other in MissingIds(db')) == (other in MissingIds(db))
      ensures other in MissingIds(db) ==>
                RowOf(db', other, GrantedOf(db'.outbox, other)) == RowOf(db, other, GrantedOf(db.outbox, other))
    {
      QueuedLeavesOthers(db, db', id, other);
    }
  }

  lemma SameRowsSameBacklog(db: Database, db': Database, gone: set<string>)
    requires MissingIds(db') == MissingIds(db) - gone
    requires forall other :: other in MissingIds(db') ==>
               RowOf(db', other, GrantedOf(db'.outbox, other)) == RowOf(db, other, GrantedOf(db.outbox, other))
    ensures BacklogOf(db') == BacklogOf(db) - gone
  {
    var m, m' := MissingIds(db), MissingIds(db');
    assert BacklogOf(db').Keys == m' && BacklogOf(db).Keys == m;
    assert (BacklogOf(db) - gone).Keys == m - gone;
    forall other | other in m'
      ensures BacklogOf(db')[other] == (BacklogOf(db) - gone)[other]
    {
    }
  }

  lemma QueuedShrinksBacklog(db: Database, db': Database, id: string)
    requires Shape(db) && NoticeQueued(db, db', id)
    ensures BacklogOf(db') == BacklogOf(db) - {id}
  {
    QueuedShrinksMissing(db, db', id);
    SameRowsSameBacklog(db, db', {id});
  }

  lemma RowResolves(hash: Hasher, db: Database, id: string)
    requires Shape(db) && id in BacklogOf(db)
    ensures var (db', result) := RepairRow(hash, db, BacklogOf(db)[id]);
            Shape(db') && Resolves(CanResolve, BacklogOf(db), BacklogOf(db)[id], BacklogOf(db'), result)
  {
    var row := BacklogOf(db)[id];
    if CanResolve(row) {
      NoticeIsQueued(hash, db, id);
      QueuedShrinksBacklog(db, RepairRow(hash, db, row).0, id);
    } else {
      var db' := RepairRow(hash, db, row).0;
      StatusesKeepShape(db, db.outbox);
      assert db' == db.(outbox := db.outbox, reviews := db'.reviews);
      assert MissingIds(db') == MissingIds(db);
    }
  }

  // --- a full pass ----------------------------------------------------------------------

  /** Rows of the backlog, each once. */
  ghost predicate Drawn(b: Backlog, rows: seq<MissingRow>) {
    && (forall i :: 0 <= i < |rows| ==> rows[i].entitlementId in b && rows[i] == b[rows[i].entitlementId])
    && (forall i, j :: 0 <= i < j < |rows| ==> rows[i].entitlementId != rows[j].entitlementId)
  }

  lemma ListedIsDrawn(db: Database, rows: seq<MissingRow>)
    requires Listed(db, rows)
    ensures Drawn(BacklogOf(db), rows)
  {
    forall i | 0 <= i < |rows|
      ensures rows[i].entitlementId in BacklogOf(db) && rows[i] == BacklogOf(db)[rows[i].entitlementId]
    {
      assert rows[i].entitlementId in MissingIds(db);
    }
  }

  lemma {:induction false} IdsAreListed(rows: seq<MissingRow>, n: nat, id: string)
    requires n <= |rows| && id in IdsOf(rows, n)
    ensures exists i :: 0 <= i < n && rows[i].entitlementId == id
  {
    if id != rows[n - 1].entitlementId {
      IdsAreListed(rows, n - 1, id);
    }
  }

  /** How the backlog stands after the first `n` rows. */
  ghost predicate SoFar(can: Judge, b: Backlog, rows: seq<MissingRow>, n: nat, b': Backlog, t: Totals)
    requires n <= |rows|
  {
    var done := Resolvable(can, b) * IdsOf(rows, n);
    && !t.threw && t.conflicts == 0 && t.duplicate == 0 && t.passed == 0
    && t.created == |done| && t.created + t.needsReview == n
    && b' == b - done
  }

  lemma OneMoreDone(res: set<string>, ids: set<string>, id: string)
    requires id !in ids
    ensures id in res ==> res * (ids + {id}) == res * ids + {id} && |res * (ids + {id})| == |res * ids| + 1
    ensures id !in res ==> res * (ids + {id}) == res * ids
  {
    if id in res {
      assert res * (ids + {id}) == res * ids + {id};
    } else {
      assert res * (ids + {id}) == res * ids;
    }
  }

  lemma PassGoesOn(can: Judge, b: Backlog, rows: seq<MissingRow>, n: nat, before: Backlog, t: Totals, after: Backlog, result: RowResult)
    requires Drawn(b, rows) && n < |rows| && SoFar(can, b, rows, n, before, t)
    requires Resolves(can, before, rows[n], after, result)
    ensures SoFar(can, b, rows, n + 1, after, Added(t, result))
  {
    var id, res, ids := rows[n].entitlementId, Resolvable(can, b), IdsOf(rows, n);
    if id in ids {
      IdsAreListed(rows, n, id);
    }
    OneMoreDone(res, ids, id);
    assert IdsOf(rows, n + 1) == ids + {id};
    assert id in res <==> can(rows[n]);
    if id in res {
      assert after == b - (res * ids + {id});
    }
  }

  lemma NextRowWaits(can: Judge, b: Backlog, rows: seq<MissingRow>, n: nat, before: Backlog, t: Totals)
    requires Drawn(b, rows) && n < |rows| && SoFar(can, b, rows, n, before, t)
    ensures rows[n].entitlementId in before && before[rows[n].entitlementId] == rows[n]
  {
    if rows[n].entitlementId in IdsOf(rows, n) {
      IdsAreListed(rows, n, rows[n].entitlementId);
    }
  }

  /** Tables as they should be, and the backlog in them. */
  type Sound = Database -> bool

  type View = Database -> Backlog

  /** Whoever repairs a row of the backlog resolves it, and leaves the tables in order. */
  ghost predicate Resolving(can: Judge, step: Stepper, sound: Sound, view: View) {
    forall db: Database, id: string :: sound(db) && id in view(db) ==>
      var (db', result) := step(db, view(db)[id]);
      sound(db') && Resolves(can, view(db), view(db)[id], view(db'), result)
  }

  lemma RepairingResolves(hash: Hasher)
    ensures Resolving(CanResolve, Repairing(hash), db => Shape(db), db => BacklogOf(db))
  {
    forall db: Database, id: string | Shape(db) && id in BacklogOf(db)
      ensures var (db', result) := Repairing(hash)(db, BacklogOf(db)[id]);
              Shape(db') && Resolves(CanResolve, BacklogOf(db), BacklogOf(db)[id], BacklogOf(db'), result)
    {
      RowResolves(hash, db, id);
    }
  }

  lemma RowGoesOn(
    can: Judge, step: Stepper, sound: Sound, view: View, before: Database, b: Backlog, rows: seq<MissingRow>, n: nat, t: Totals)
    requires Resolving(can, step, sound, view) && Drawn(b, rows) && n < |rows|
    requires sound(before) && SoFar(can, b, rows, n, view(before), t)
    ensures var (after, result) := step(before, rows[n]);
            sound(after) && SoFar(can, b, rows, n + 1, view(after), Added(t, result))
  {
    NextRowWaits(can, b, rows, n, view(before), t);
    assert rows[n] == view(before)[rows[n].entitlementId];
    var (after, result) := step(before, rows[n]);
    PassGoesOn(can, b, rows, n, view(before), t, view(after), result);
  }

  lemma NothingSoFar(can: Judge, b: Backlog, rows: seq<MissingRow>)
    ensures SoFar(can, b, rows, 0, b, NO_TOTALS)
  {
    assert Resolvable(can, b) * IdsOf(rows, 0) == {};
  }

  lemma InTurnUnfolds(step: Stepper, db: Database, rows: seq<MissingRow>, n: nat)
    requires 0 < n <= |rows| && !InTurn(step, db, rows, n - 1).1.threw
    ensures var (before, t) := InTurn(step, db, rows, n - 1);
            InTurn(step, db, rows, n) == (step(before, rows[n - 1]).0, Added(t, step(before, rows[n - 1]).1))
  {
  }

  lemma {:induction false} PassGoesThrough(
    can: Judge, step: Stepper, sound: Sound, view: View, db: Database, b: Backlog, rows: seq<MissingRow>, n: nat)
    returns (end: Database, t: Totals)
    requires Resolving(can, step, sound, view) && sound(db) && b == view(db) && Drawn(b, rows) && n <= |rows|
    ensures (end, t) == InTurn(step, db, rows, n)
    ensures sound(end) && SoFar(can, b, rows, n, view(end), t)
  {
    if n == 0 {
      NothingSoFar(can, b, rows);
      end, t := db, NO_TOTALS;
    } else {
      var before, u := PassGoesThrough(can, step, sound, view, db, b, rows, n - 1);
      RowGoesOn(can, step, sound, view, before, b, rows, n - 1, u);
      InTurnUnfolds(step, db, rows, n);
      end, t := step(before, rows[n - 1]).0, Added(u, step(before, rows[n - 1]).1);
    }
  }

  lemma RepairGoesThrough(hash: Hasher, db: Database, rows: seq<MissingRow>)
    requires Shape(db) && Drawn(BacklogOf(db), rows)
    ensures var (end, t) := RepairRows(hash, db, rows, |rows|);
            Shape(end) && SoFar(CanResolve, BacklogOf(db), rows, |rows|, BacklogOf(end), t)
  {
    RepairingResolves(hash);
    var _, _ := PassGoesThrough(CanResolve, Repairing(hash), d => Shape(d), d => BacklogOf(d), db, BacklogOf(db), rows, |rows|);
  }

  lemma {:induction false} IdsCount(b: Backlog, rows: seq<MissingRow>, n: nat)
    requires Drawn(b, rows) && n <= |rows|
    ensures |IdsOf(rows, n)| == n && IdsOf(rows, n) <= b.Keys
  {
    if n > 0 {
      IdsCount(b, rows, n - 1);
      var id := rows[n - 1].entitlementId;
      if id in IdsOf(rows, n - 1) {
        IdsAreListed(rows, n - 1, id);
      }
    }
  }

  lemma SubsetCount(a: set<string>, b: set<string>)
    requires a <= b
    ensures |a| <= |b| && (|a| == |b| ==> a == b)
  {
    assert b == a + (b - a);
    if |a| == |b| {
      assert b - a == {};
    }
  }

  lemma Counting(all: set<string>, res: set<string>, ids: set<string>)
    requires res <= all && ids <= all
    ensures |res - res * ids| == |res| - |res * ids|
    ensures |all| == |res| + |all - res|
    ensures |res * ids| >= |ids| - |all - res|
    ensures |ids| == |all| ==> res * ids == res
  {
    assert res == (res - res * ids) + res * ids;
    assert all == res + (all - res);
    assert ids == res * ids + (ids - res);
    SubsetCount(ids - res, all - res);
    SubsetCount(ids, all);
  }

  /** What a full pass has done to the backlog. */
  ghost predicate GotAhead(can: Judge, b: Backlog, limit: nat, b': Backlog, t: Totals) {
    && Unresolvable(can, b') == Unresolvable(can, b)
    && Resolvable(can, b') <= Resolvable(can, b) && |Resolvable(can, b')| == |Resolvable(can, b)| - t.created
    && t.created >= (if |Unresolvable(can, b)| < limit then Min(limit - |Unresolvable(can, b)|, |Resolvable(can, b)|) else 0)
  }

  lemma WhatIsLeft(can: Judge, b: Backlog, done: set<string>)
    requires done <= Resolvable(can, b)
    ensures Resolvable(can, b - done) == Resolvable(can, b) - done && Unresolvable(can, b - done) == Unresolvable(can, b)
    ensures Resolvable(can, b) <= b.Keys && b.Keys - Resolvable(can, b) == Unresolvable(can, b)
  {
  }

  lemma PassAccounts(can: Judge, b: Backlog, limit: nat, rows: seq<MissingRow>, b': Backlog, t: Totals)
    requires Drawn(b, rows) && |rows| == Min(limit, |b.Keys|) && SoFar(can, b, rows, |rows|, b', t)
    ensures GotAhead(can, b, limit, b', t)
  {
    IdsCount(b, rows, |rows|);
    WhatIsLeft(can, b, Resolvable(can, b) * IdsOf(rows, |rows|));
    Counting(b.Keys, Resolvable(can, b), IdsOf(rows, |rows|));
  }

  /**
   A full pass never throws, never conflicts and never meets a duplicate. Every row it listed is
   queued or put up for review, nobody else's backlog grows, and of the rows that can be
   resolved at least as many are as the limit leaves room for beside the unresolvable ones.
   */
  lemma FullPassGetsAhead(hash: Hasher, db: Database, limit: nat, rows: seq<MissingRow>)
    requires Shape(db) && IsListing(db, limit, rows)
    ensures var (db', t) := RepairRows(hash, db, rows, |rows|);
            && Shape(db') && !t.threw && t.conflicts == 0 && t.duplicate == 0 && t.passed == 0
            && t.created + t.needsReview == |rows|
            && GotAhead(CanResolve, BacklogOf(db), limit, BacklogOf(db'), t)
  {
    var b := BacklogOf(db);
    ListedIsDrawn(db, rows);
    assert b.Keys == MissingIds(db);
    RepairGoesThrough(hash, db, rows);
    var (db', t) := RepairRows(hash, db, rows, |rows|);
    PassAccounts(CanResolve, b, limit, rows, BacklogOf(db'), t);
  }

  /** Each listing with the tables it was answered from. */
  ghost predicate Passes(hash: Hasher, db: Database, limit: nat, listings: seq<seq<MissingRow>>, end: Database)
    decreases |listings|
  {
    if listings == [] then end == db
    else IsListing(db, limit, listings[0])
         && Passes(hash, RepairRows(hash, db, listings[0], |listings[0]|).0, limit, listings[1..], end)
  }

  /**
   With fewer than `limit` unresolvable rows, every full pass shrinks the resolvable backlog
   until it is empty, so as many passes as it has rows are enough, whichever program runs each.
   */
  lemma {:induction false} BacklogDrains(
    hash: Hasher, db: Database, limit: nat, listings: seq<seq<MissingRow>>, end: Database)
    requires Shape(db) && |Unresolvable(CanResolve, BacklogOf(db))| < limit && Passes(hash, db, limit, listings, end)
    ensures var before, after := |Resolvable(CanResolve, BacklogOf(db))|, |Resolvable(CanResolve, BacklogOf(end))|;
            after <= (if before > |listings| then before - |listings| else 0)
    ensures Unresolvable(CanResolve, BacklogOf(end)) == Unresolvable(CanResolve, BacklogOf(db))
    decreases |listings|
  {
    if listings != [] {
      FullPassGetsAhead(hash, db, limit, listings[0]);
      BacklogDrains(hash, RepairRows(hash, db, listings[0], |listings[0]|).0, limit, listings[1..], end);
    }
  }

  // --- when a pass does not get ahead ---------------------------------------------------

  /** The rows nobody can resolve that come before every row somebody can. */
  function InTheWay(res: set<string>, unres: set<string>, age: map<string, int>): set<string>
    requires res + unres <= age.Keys
  {
    set id | id in unres && forall other :: other in res ==> age[id] < age[other]
  }

  /** `ids` is a choice of the `limit` youngest keys. */
  ghost predicate Oldest(ids: set<string>, limit: nat, age: map<string, int>) {
    ids <= age.Keys && |ids| == Min(limit, |age.Keys|) && NoOlder(age, ids, age.Keys - ids)
  }

  lemma Apart(a: set<string>, b: set<string>, x: string)
    requires a * b == {} && x in a
    ensures x !in b
  {
    assert x !in a * b;
  }

  lemma ObstructedExactlyWhen(res: set<string>, unres: set<string>, age: map<string, int>, ids: set<string>, limit: nat)
    requires res + unres == age.Keys && res * unres == {} && res != {} && Oldest(ids, limit, age)
    requires forall a, b | a in age && b in age && a != b :: age[a] != age[b]
    ensures res * ids == {} <==> |InTheWay(res, unres, age)| >= limit
  {
    var blocking := InTheWay(res, unres, age);
    if res * ids == {} {
      var r :| r in res;
      Apart(res, ids, r);
      SubsetCount(ids, age.Keys);
      assert |ids| == limit;
      forall id | id in ids
        ensures id in blocking
      {
        Apart(ids, res, id);
        forall other | other in res
          ensures age[id] < age[other]
        {
          Apart(res, ids, other);
        }
      }
      SubsetCount(ids, blocking);
    } else {
      var r :| r in res * ids;
      forall id | id in blocking
        ensures id in ids - {r}
      {
        assert id in unres && age[id] < age[r];
      }
      SubsetCount(blocking, ids - {r});
    }
  }

  lemma KeysAreMissing(db: Database)
    ensures BacklogOf(db).Keys == Ages(db).Keys == MissingIds(db)
  {
  }

  lemma ListingIsOldest(db: Database, limit: nat, rows: seq<MissingRow>)
    requires IsListing(db, limit, rows)
    ensures Oldest(IdsOf(rows, |rows|), limit, Ages(db))
  {
    ListedIsDrawn(db, rows);
    KeysAreMissing(db);
    IdsCount(BacklogOf(db), rows, |rows|);
  }

  /** What a full pass comes to, seen from the sets. */
  ghost predicate StuckWhenObstructed(can: Judge, b: Backlog, age: map<string, int>, limit: nat, b': Backlog, t: Totals) {
    && Resolvable(can, b) + Unresolvable(can, b) == age.Keys
    && (t.created == 0 <==> |InTheWay(Resolvable(can, b), Unresolvable(can, b), age)| >= limit)
    && (t.created == 0 ==> b' == b)
  }

  lemma Obstruction(can: Judge, b: Backlog, age: map<string, int>, rows: seq<MissingRow>, limit: nat, b': Backlog, t: Totals)
    requires b.Keys == age.Keys && Resolvable(can, b) != {} && SoFar(can, b, rows, |rows|, b', t)
    requires Oldest(IdsOf(rows, |rows|), limit, age)
    requires forall a, c | a in age && c in age && a != c :: age[a] != age[c]
    ensures StuckWhenObstructed(can, b, age, limit, b', t)
  {
    WhatIsLeft(can, b, {});
    ObstructedExactlyWhen(Resolvable(can, b), Unresolvable(can, b), age, IdsOf(rows, |rows|), limit);
    Unchanged(b, Resolvable(can, b) * IdsOf(rows, |rows|), b', t.created);
  }

  lemma Unchanged(b: Backlog, done: set<string>, b': Backlog, n: nat)
    requires b' == b - done && n == |done|
    ensures n == 0 <==> done == {}
    ensures n == 0 ==> b' == b
  {
  }

  /**
   When no two missing entitlements are of the same age, a full pass queues nothing at all
   exactly when at least `limit` unresolvable rows stand before every resolvable one; and then
   the backlog, and with it the next pass, stays as it is.
   */
  lemma PassIsStuckExactlyWhenObstructed(hash: Hasher, db: Database, limit: nat, rows: seq<MissingRow>)
    requires Shape(db) && IsListing(db, limit, rows) && Resolvable(CanResolve, BacklogOf(db)) != {}
    requires forall a, b | a in Ages(db) && b in Ages(db) && a != b :: Ages(db)[a] != Ages(db)[b]
    ensures var (db', t) := RepairRows(hash, db, rows, |rows|);
            StuckWhenObstructed(CanResolve, BacklogOf(db), Ages(db), limit, BacklogOf(db'), t)
  {
    ListedIsDrawn(db, rows);
    RepairGoesThrough(hash, db, rows);
    ListingIsOldest(db, limit, rows);
    KeysAreMissing(db);
    var (db', t) := RepairRows(hash, db, rows, |rows|);
    Obstruction(CanResolve, BacklogOf(db), Ages(db), rows, limit, BacklogOf(db'), t);
  }

  // --- the two programs -----------------------------------------------------------------

  lemma RowsUnfold(hash: Hasher, db: Database, rows: seq<MissingRow>, n: nat, result: RowResult, after: Database)
    requires n < |rows| && !RepairRows(hash, db, rows, n).1.threw
    requires (after, result) == RepairRow(hash, RepairRows(hash, db, rows, n).0, rows[n])
    ensures RepairRows(hash, db, rows, n + 1) == (after, Added(RepairRows(hash, db, rows, n).1, result))
  {
  }

  lemma {:induction false} ThrownStays(step: Stepper, db: Database, rows: seq<MissingRow>, n: nat, m: nat)
    requires n <= m <= |rows| && InTurn(step, db, rows, n).1.threw
    ensures InTurn(step, db, rows, m) == InTurn(step, db, rows, n)
  {
    if n < m {
      ThrownStays(step, db, rows, n, m - 1);
    }
  }

  class RevocationDatabase {
    var entitlements: map<string, Entitlement>
    var settledAt: map<string, int>
    var outbox: Outbox
    var reviews: set<(string, ReviewReason)>

    constructor ()
      ensures View() == Start().db && Valid()
    {
      entitlements, settledAt, outbox, reviews := map[], map[], map[], {};
    }

    function View(): Database
      reads this
    {
      Database(entitlements, settledAt, outbox, reviews)
    }

    ghost predicate Valid()
      reads this
    {
      Shape(View())
    }

    /** The query: the oldest first, as many as are asked for. */
    method ListMissing(limit: nat) returns (rows: seq<MissingRow>)
      requires Valid()
      ensures IsListing(View(), limit, rows)
    {
      var rest := MissingIds(View());
      rows := [];
      KeysAreMissing(View());
      while |rows| < limit && rest != {}
        invariant |rows| <= limit && Drawing(View(), rows, rest)
        decreases |rest|
      {
        var id := PickOldest(Ages(View()), rest);
        var row := ReadRow(id);
        DrawingGoesOn(View(), rows, rest, row);
        rows := rows + [row];
        rest := rest - {id};
      }
      DrawingEnds(View(), rows, rest, limit);
    }

    method ReadRow(id: string) returns (row: MissingRow)
      requires Valid() && id in Ages(View())
      ensures id in entitlements && HasGranted(outbox, id) && row == RowOf(View(), id, GrantedOf(outbox, id))
    {
      var granted :| granted in outbox && IsGranted(outbox, granted, id);
      assert granted == GrantedOf(outbox, id);
      row := RowOf(View(), id, granted);
    }

    method SupersedePendingGranted(id: string) returns (count: nat)
      modifies this
      ensures View() == old(View()).(outbox := Supersede(old(outbox), id)) && count == |StoppableEvents(old(outbox), id)|
    {
      count := |StoppableEvents(outbox, id)|;
      outbox := Supersede(outbox, id);
    }

    method EnqueueIdempotent(id: string, p: Plan) returns (outcome: EnqueueOutcome)
      modifies this
      ensures (outbox, outcome) == Enqueue(old(outbox), id, p) && View() == old(View()).(outbox := outbox)
    {
      if p.eventId !in outbox {
        outbox := outbox[p.eventId := OutboxRow(RevokedEvent, id, Some(p.payload), p.payloadHash, p.correlationId, Pending)];
        return Created;
      }
      return if outbox[p.eventId].payloadHash == p.payloadHash then Duplicate
             else Conflict(p.payloadHash, outbox[p.eventId].payloadHash);
    }

    method OpenReview(id: string, reason: ReviewReason)
      modifies this
      ensures View() == old(View()).(reviews := old(reviews) + {(id, reason)})
    {
      reviews := reviews + {(id, reason)};
    }
  }

  lemma OldestExists(age: map<string, int>, ids: set<string>)
    requires ids != {} && ids <= age.Keys
    ensures exists id :: id in ids && forall other :: other in ids ==> age[id] <= age[other]
    decreases |ids|
  {
    var x :| x in ids;
    var others := ids - {x};
    if others == {} {
      assert ids == {x};
    } else {
      OldestExists(age, others);
      var y :| y in others && forall other :: other in others ==> age[y] <= age[other];
      var z := if age[x] <= age[y] then x else y;
      assert z in ids && forall other :: other in ids ==> age[z] <= age[other] by {
        assert ids == others + {x};
      }
    }
  }

  method PickOldest(age: map<string, int>, ids: set<string>) returns (id: string)
    requires ids != {} && ids <= age.Keys
    ensures id in ids && NoOlder(age, {id}, ids)
  {
    OldestExists(age, ids);
    id :| id in ids && forall other :: other in ids ==> age[id] <= age[other];
  }

  /** `rows` are drawn oldest first, `rest` are still to be drawn. */
  ghost predicate Drawing(db: Database, rows: seq<MissingRow>, rest: set<string>) {
    && Listed(db, rows) && OldestFirst(Ages(db), rows)
    && rest == Ages(db).Keys - IdsOf(rows, |rows|) && |rest| == |Ages(db).Keys| - |rows|
  }

  lemma RestShrinks(all: set<string>, ids: set<string>, id: string)
    requires id in all - ids
    ensures all - (ids + {id}) == (all - ids) - {id} && |(all - ids) - {id}| == |all - ids| - 1
  {
    assert all - (ids + {id}) == (all - ids) - {id};
  }

  lemma DrawingGoesOn(db: Database, rows: seq<MissingRow>, rest: set<string>, row: MissingRow)
    requires Drawing(db, rows, rest) && row.entitlementId in rest && NoOlder(Ages(db), {row.entitlementId}, rest)
    requires HasGranted(db.outbox, row.entitlementId) && row.entitlementId in db.entitlements
    requires row == RowOf(db, row.entitlementId, GrantedOf(db.outbox, row.entitlementId))
    ensures Drawing(db, rows + [row], rest - {row.entitlementId})
  {
    var age := Ages(db);
    KeysAreMissing(db);
    ListedGrows(db, rows, row);
    NoOlderThanOne(age, row.entitlementId, rest);
    OldestGrows(age, rows, row);
    RestShrinks(age.Keys, IdsOf(rows, |rows|), row.entitlementId);
  }

  lemma NoOlderThanOne(age: map<string, int>, id: string, rest: set<string>)
    requires rest <= age.Keys && id in rest && NoOlder(age, {id}, rest)
    ensures forall other :: other in rest ==> age[id] <= age[other]
  {
    assert id in {id};
  }

  lemma DrawingEnds(db: Database, rows: seq<MissingRow>, rest: set<string>, limit: nat)
    requires Drawing(db, rows, rest) && |rows| <= limit && (|rows| >= limit || rest == {})
    ensures IsListing(db, limit, rows)
  {
    KeysAreMissing(db);
  }

  lemma ListedGrows(db: Database, rows: seq<MissingRow>, row: MissingRow)
    requires Listed(db, rows) && row.entitlementId in MissingIds(db) - IdsOf(rows, |rows|)
    requires row == RowOf(db, row.entitlementId, GrantedOf(db.outbox, row.entitlementId))
    ensures Listed(db, rows + [row])
  {
    assert forall i :: 0 <= i < |rows| ==> rows[i].entitlementId in IdsOf(rows, |rows|);
  }

  lemma OldestGrows(age: map<string, int>, rows: seq<MissingRow>, row: MissingRow)
    requires OldestFirst(age, rows) && row.entitlementId in age.Keys - IdsOf(rows, |rows|)
    requires forall other :: other in age.Keys - IdsOf(rows, |rows|) ==> age[row.entitlementId] <= age[other]
    ensures IdsOf(rows + [row], |rows| + 1) == IdsOf(rows, |rows|) + {row.entitlementId}
    ensures OldestFirst(age, rows + [row])
  {
    IdsOfPrefix(rows, row, |rows|);
    assert (rows + [row])[..|rows|] == rows;
  }

  lemma {:induction false} IdsOfPrefix(rows: seq<MissingRow>, row: MissingRow, n: nat)
    requires n <= |rows|
    ensures IdsOf(rows + [row], n) == IdsOf(rows, n)
  {
    if n > 0 {
      IdsOfPrefix(rows, row, n - 1);
    }
  }

  /** The steps both programs write out for one row. */
  method RepairOne(db: RevocationDatabase, hash: Hasher, row: MissingRow) returns (result: RowResult)
    modifies db
    ensures (db.View(), result) == RepairRow(hash, old(db.View()), row)
  {
    var d := DecideRevocation(row, true);
    match d {
      case RevokeOnly => return Passed;
      case NeedsReview =>
        db.OpenReview(row.entitlementId, RecipientUnresolved);
        return Reviewed;
      case RevokeAndNotify(_, _, _) =>
    }
    var stopped := db.SupersedePendingGranted(row.entitlementId);
    var planned := PlanRevocation(hash, row, d);
    if planned.Err? {
      return Threw(stopped);
    }
    var outcome := db.EnqueueIdempotent(row.entitlementId, planned.value);
    if outcome.Conflict? {
      db.OpenReview(row.entitlementId, PayloadConflict);
    }
    return Enqueued(stopped, outcome);
  }

  datatype ReconcileResult = ReconcileResult(
    picked: nat, created: nat, duplicate: nat, needsReview: nat, conflicts: nat, superseded: nat, truncated: bool)

  class RevocationReconcileService {
    const db: RevocationDatabase
    const hash: Hasher

    constructor (db: RevocationDatabase, hash: Hasher)
      ensures this.db == db && this.hash == hash
    {
      this.db, this.hash := db, hash;
    }

    /** One pass of the service; `None` when building an event throws. A dry run only counts. */
    method Run(limit: nat, dryRun: bool) returns (result: Option<ReconcileResult>, ghost rows: seq<MissingRow>)
      requires db.Valid()
      modifies db
      ensures IsListing(old(db.View()), limit, rows)
      ensures dryRun ==>
                db.View() == old(db.View())
                && result == Some(ReconcileResult(|rows|, 0, 0, 0, 0, 0, rows != [] && |rows| == limit))
      ensures !dryRun ==>
                var (end, t) := RepairRows(hash, old(db.View()), rows, |rows|);
                db.View() == end
                && result == if t.threw then None
                             else Some(ReconcileResult(|rows|, t.created, t.duplicate, t.needsReview, t.conflicts,
                                                       t.superseded, rows != [] && |rows| == limit))
    {
      var missing := db.ListMissing(limit);
      rows := missing;
      if |missing| == 0 {
        return Some(ReconcileResult(0, 0, 0, 0, 0, 0, false)), rows;
      }
      var truncated := |missing| == limit;
      if dryRun {
        return Some(ReconcileResult(|missing|, 0, 0, 0, 0, 0, truncated)), rows;
      }
      result := Repair(missing, truncated);
    }

    method Repair(missing: seq<MissingRow>, truncated: bool) returns (result: Option<ReconcileResult>)
      modifies db
      ensures var (end, t) := RepairRows(hash, old(db.View()), missing, |missing|);
              db.View() == end
              && result == if t.threw then None
                           else Some(ReconcileResult(|missing|, t.created, t.duplicate, t.needsReview, t.conflicts,
                                                     t.superseded, truncated))
    {
      var t := NO_TOTALS;
      for i := 0 to |missing|
        invariant (db.View(), t) == RepairRows(hash, old(db.View()), missing, i) && !t.threw
      {
        var row := RepairOne(db, hash, missing[i]);
        RowsUnfold(hash, old(db.View()), missing, i, row, db.View());
        t := Added(t, row);
        if row.Threw? {
          ThrownStays(Repairing(hash), old(db.View()), missing, i + 1, |missing|);
          return None;
        }
      }
      return Some(ReconcileResult(|missing|, t.created, t.duplicate, t.needsReview, t.conflicts, t.superseded, truncated));
    }
  }

  const MAX_LISTED_IDS: nat := 20

  datatype BackfillReport =
    | GenerationDisabled
    | Counted(listed: seq<string>, missing: nat, truncated: bool)
    | Done(listed: seq<string>, missing: nat, truncated: bool, created: nat, duplicate: nat, skipped: nat, conflicts: nat)
    | Aborted

  /** The command-line program: it only counts unless told to write, and never writes while notices are switched off. */
  method Backfill(db: RevocationDatabase, hash: Hasher, execute: bool, generationEnabled: bool, limit: nat)
    returns (report: BackfillReport, ghost rows: seq<MissingRow>)
    requires db.Valid()
    modifies db
    ensures !execute || !generationEnabled ==> db.View() == old(db.View())
    ensures report.GenerationDisabled? <==> execute && !generationEnabled
    ensures !report.GenerationDisabled? ==> IsListing(old(db.View()), limit, rows)
    ensures report.Counted? || report.Done? ==>
              && report.missing == |rows| && report.truncated == (|rows| == limit)
              && report.listed == seq(Min(20, |rows|), i requires 0 <= i < |rows| => rows[i].entitlementId)
    ensures !execute ==> report.Counted?
    ensures execute && generationEnabled ==>
              var (end, t) := RepairRows(hash, old(db.View()), rows, |rows|);
              && db.View() == end
              && if t.threw then report.Aborted?
                 else report.Done? && report.created == t.created && report.duplicate == t.duplicate
                      && report.skipped == t.passed + t.needsReview && report.conflicts == t.conflicts
  {
    rows := [];
    if execute && !generationEnabled {
      return GenerationDisabled, rows;
    }
    var missing := db.ListMissing(limit);
    rows := missing;
    var listed := seq(Min(MAX_LISTED_IDS, |missing|), i requires 0 <= i < |missing| => missing[i].entitlementId);
    if !execute {
      return Counted(listed, |missing|, |missing| == limit), rows;
    }
    report := BackfillRows(db, hash, missing, listed, |missing| == limit);
  }

  method BackfillRows(db: RevocationDatabase, hash: Hasher, missing: seq<MissingRow>, listed: seq<string>, truncated: bool)
    returns (report: BackfillReport)
    modifies db
    ensures var (end, t) := RepairRows(hash, old(db.View()), missing, |missing|);
            db.View() == end
            && report == if t.threw then Aborted
                         else Done(listed, |missing|, truncated, t.created, t.duplicate, t.passed + t.needsReview, t.conflicts)
  {
    var t := NO_TOTALS;
    for i := 0 to |missing|
      invariant (db.View(), t) == RepairRows(hash, old(db.View()), missing, i) && !t.threw
    {
      var row := RepairOne(db, hash, missing[i]);
      RowsUnfold(hash, old(db.View()), missing, i, row, db.View());
      t := Added(t, row);
      if row.Threw? {
        ThrownStays(Repairing(hash), old(db.View()), missing, i + 1, |missing|);
        return Aborted;
      }
    }
    return Done(listed, |missing|, truncated, t.created, t.duplicate, t.passed + t.needsReview, t.conflicts);
  }
}
