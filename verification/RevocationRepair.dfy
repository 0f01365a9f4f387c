/**
 Repairing missing revocation events: that queueing one again never contradicts what is queued,
 that every full pass gets ahead while it can see past the rows nobody can resolve, and the two
 programs that run such a pass.
 */
module RevocationRepair {
  import opened Wrappers
  import opened WalletEvents
  import opened Revocation

  // --- queueing again never contradicts -------------------------------------------------

  function Planned(hash: Hasher, row: MissingRow): Option<Plan> {
    var d := DecideRevocation(row, true);
    if !d.RevokeAndNotify? then None
    else match PlanRevocation(hash, row, d)
      case Err(_) => None
      case Ok(p) => Some(p)
  }

  /** A row listed earlier still says what the tables say, but perhaps for the instant. */
  ghost predicate Describes(db: Database, row: MissingRow) {
    var id := row.entitlementId;
    && id in db.entitlements && db.entitlements[id].status.Revoked? && HasGranted(db.outbox, id)
    && row == RowOf(db, id, GrantedOf(db.outbox, id)).(occurredAt := row.occurredAt)
  }

  /** If it has a notice to queue: what is queued is that notice, and if nothing is, its instant is the one in the tables. */
  ghost predicate Agrees(hash: Hasher, db: Database, row: MissingRow) {
    var id := row.entitlementId;
    Planned(hash, row).Some? && id in db.entitlements ==>
      if HasRevoked(db.outbox, id)
      then RevocationEventId(id) in db.outbox
           && db.outbox[RevocationEventId(id)].payloadHash == Planned(hash, row).value.payloadHash
      else row.occurredAt == OccurredAt(db, id)
  }

  ghost predicate PassFits(hash: Hasher, db: Database, pass: Pass) {
    && (forall k :: 0 <= k < |pass.rows| ==> Describes(db, pass.rows[k]))
    && (pass.phase.Stopped? ==> pass.next < |pass.rows| && Planned(hash, pass.rows[pass.next]) == Some(pass.phase.plan))
  }

  /** Whatever has been revoked belongs to an order with a settled refund. */
  ghost predicate Settled(db: Database) {
    forall id :: id in db.entitlements && db.entitlements[id].status.Revoked? ==> db.entitlements[id].orderId in db.settledAt
  }

  ghost predicate Fits(hash: Hasher, w: World) {
    Inv(w) && Settled(w.db) && forall i :: 0 <= i < |w.passes| ==> PassFits(hash, w.db, w.passes[i])
  }

  predicate ToDo(pass: Pass, k: nat) {
    !pass.phase.Over? && pass.next <= k < |pass.rows|
  }

  ghost predicate NoConflict(w: World) {
    forall id :: (id, PayloadConflict) !in w.db.reviews
  }

  ghost predicate AllAgree(hash: Hasher, w: World) {
    && NoConflict(w)
    && (forall i, k: nat :: 0 <= i < |w.passes| && ToDo(w.passes[i], k) ==> Agrees(hash, w.db, w.passes[i].rows[k]))
  }

  /** The refund a step settles: of which order, and dated when. */
  function Settlement(db: Database, e: Event): Option<(string, int)> {
    match e
    case OtherRefund(orderId, settledAt) => Some((orderId, settledAt))
    case Refund(id, _, claimedToo, settledAt, _) =>
      if Revocable(db, id, claimedToo) then Some((db.entitlements[id].orderId, settledAt)) else None
    case _ => None
  }

  /** The step settles a refund dated before every settled refund of this entitlement's order. */
  predicate BackDates(db: Database, e: Event, id: string) {
    id in db.entitlements && var s := Settlement(db, e);
    s.Some? && s.value.0 == db.entitlements[id].orderId && s.value.1 < OccurredAt(db, id)
  }

  /** Such a step, while a pass still has to queue this entitlement's notice and nobody has queued it yet. */
  ghost predicate BackDatesListed(hash: Hasher, w: World, e: Event, i: nat, k: nat) {
    && i < |w.passes| && ToDo(w.passes[i], k)
    && var row := w.passes[i].rows[k];
       Planned(hash, row).Some? && !HasRevoked(w.db.outbox, row.entitlementId) && BackDates(w.db, e, row.entitlementId)
  }

  ghost predicate Upsets(hash: Hasher, w: World, e: Event) {
    exists i: nat, k: nat :: BackDatesListed(hash, w, e, i, k)
  }

  ghost predicate CalmRun(hash: Hasher, w: World, es: seq<Event>)
    decreases |es|
  {
    es == [] || (!Upsets(hash, w, es[0]) && CalmRun(hash, Next(hash, w, es[0]), es[1..]))
  }

  /** Nothing but statuses changes about the rows of this entitlement. */
  ghost predicate Kept(db: Database, db': Database, id: string) {
    && id in db.entitlements && id in db'.entitlements && db'.entitlements[id] == db.entitlements[id]
    && (forall event :: event in db.outbox ==>
          event in db'.outbox && db'.outbox[event].(status := db.outbox[event].status) == db.outbox[event])
    && (forall event :: event in db'.outbox && db'.outbox[event].entitlementId == id ==> event in db.outbox)
  }

  lemma KeptKinds(db: Database, db': Database, id: string)
    requires Kept(db, db', id)
    ensures HasGranted(db'.outbox, id) == HasGranted(db.outbox, id)
    ensures HasRevoked(db'.outbox, id) == HasRevoked(db.outbox, id)
    ensures OneGranted(db.outbox) && OneGranted(db'.outbox) && HasGranted(db.outbox, id) ==>
              GrantedOf(db'.outbox, id) == GrantedOf(db.outbox, id)
  {
    if HasGranted(db.outbox, id) {
      var event := GrantedOf(db.outbox, id);
      assert event in db'.outbox && IsGranted(db'.outbox, event, id);
    }
    if HasRevoked(db.outbox, id) {
      var event :| event in db.outbox && db.outbox[event].eventType.RevokedEvent? && db.outbox[event].entitlementId == id;
      assert event in db'.outbox && db'.outbox[event].eventType.RevokedEvent? && db'.outbox[event].entitlementId == id;
    }
    if HasGranted(db'.outbox, id) {
      var event := GrantedOf(db'.outbox, id);
      assert event in db.outbox && IsGranted(db.outbox, event, id);
    }
    if HasRevoked(db'.outbox, id) {
      var event :| event in db'.outbox && db'.outbox[event].eventType.RevokedEvent? && db'.outbox[event].entitlementId == id;
      assert event in db.outbox && db.outbox[event].eventType.RevokedEvent? && db.outbox[event].entitlementId == id;
    }
  }

  /** The granted rows of this entitlement are the same but for their statuses. */
  ghost predicate KeptGrants(db: Database, db': Database, id: string) {
    && id in db.entitlements && id in db'.entitlements && db'.entitlements[id] == db.entitlements[id]
    && (forall event :: IsGranted(db'.outbox, event, id) == IsGranted(db.outbox, event, id))
    && (forall event :: IsGranted(db.outbox, event, id) ==>
          db'.outbox[event].(status := db.outbox[event].status) == db.outbox[event])
  }

  lemma DescribesStays(db: Database, db': Database, row: MissingRow)
    requires OneGranted(db.outbox) && OneGranted(db'.outbox) && Describes(db, row) && KeptGrants(db, db', row.entitlementId)
    ensures Describes(db', row)
  {
    var id := row.entitlementId;
    assert IsGranted(db'.outbox, GrantedOf(db.outbox, id), id);
    assert HasGranted(db'.outbox, id);
    assert GrantedOf(db'.outbox, id) == GrantedOf(db.outbox, id);
  }

  lemma KeptIsKeptGrants(db: Database, db': Database, id: string)
    requires Kept(db, db', id)
    ensures KeptGrants(db, db', id)
  {
  }

  lemma AgreesStays(hash: Hasher, db: Database, db': Database, row: MissingRow)
    requires Agrees(hash, db, row) && Kept(db, db', row.entitlementId)
    requires Planned(hash, row).Some? && !HasRevoked(db.outbox, row.entitlementId) ==>
               OccurredAt(db', row.entitlementId) == OccurredAt(db, row.entitlementId)
    ensures Agrees(hash, db', row)
  {
    KeptKinds(db, db', row.entitlementId);
  }

  lemma RefundOfRevoked(hash: Hasher, db: Database, e: Event)
    requires e.Refund? && e.id in db.entitlements && db.entitlements[e.id].status.Revoked?
    ensures Refunded(hash, db, e.id, e.notify, e.claimedToo, e.settledAt, e.now) == db
  {
  }

  lemma StoppingKeeps(db: Database, db': Database, id: string, other: string)
    requires other in db.entitlements && db.entitlements[other].status.Revoked? && RevokedStay(db, db')
    requires db'.outbox == Supersede(db.outbox, id) || (id != other && RefundedOutbox(db.outbox, db'.outbox, id))
    ensures Kept(db, db', other)
  {
  }

  lemma RefundKeeps(hash: Hasher, w: World, e: Event, id: string)
    requires e.Refund? && id in w.db.entitlements && w.db.entitlements[id].status.Revoked?
    ensures Kept(w.db, Next(hash, w, e).db, id)
  {
    RefundMoves(hash, w.db, e);
    var db' := Next(hash, w, e).db;
    if e.id == id {
      RefundOfRevoked(hash, w.db, e);
    } else if db'.outbox != w.db.outbox {
      StoppingKeeps(w.db, db', e.id, id);
    }
  }

  lemma RepairKeeps(hash: Hasher, w: World, who: nat, id: string)
    requires Enabled(w, Repair(who)) && id in w.db.entitlements && w.db.entitlements[id].status.Revoked?
    ensures Kept(w.db, StepRepair(hash, w, who).db, id)
  {
    var db' := StepRepair(hash, w, who).db;
    if db'.outbox != w.db.outbox {
      StoppingKeeps(w.db, db', w.passes[who].rows[w.passes[who].next].entitlementId, id);
    }
  }

  /** The rows of a revoked entitlement change only by a pass queueing its own notice. */
  lemma StepKeeps(hash: Hasher, w: World, e: Event, id: string)
    requires !e.Queue? && id in w.db.entitlements && w.db.entitlements[id].status.Revoked?
    ensures Kept(w.db, Next(hash, w, e).db, id)
  {
    if !Enabled(w, e) {
    } else if e.Refund? {
      RefundKeeps(hash, w, e, id);
    } else if e.Repair? {
      RepairKeeps(hash, w, e.who, id);
    }
  }

  /** A pass has no rows but those it began with, and never goes back to one. */
  lemma PassesStay(hash: Hasher, w: World, e: Event, i: nat)
    requires i < |w.passes|
    ensures var w' := Next(hash, w, e);
            && i < |w'.passes| && w'.passes[i].rows == w.passes[i].rows
            && (forall k: nat :: ToDo(w'.passes[i], k) ==> ToDo(w.passes[i], k))
            && (w'.passes[i].phase.Stopped? ==>
                  w'.passes[i] == w.passes[i]
                  || (w'.passes[i].next < |w.passes[i].rows|
                      && Planned(hash, w.passes[i].rows[w'.passes[i].next]) == Some(w'.passes[i].phase.plan)))
  {
  }

  lemma PassesBegin(hash: Hasher, w: World, e: Event)
    ensures var w' := Next(hash, w, e);
            |w'.passes| == |w.passes|
            || (e.BeginPass? && Enabled(w, e) && w'.db == w.db && w'.passes == w.passes + [Pass(e.rows, 0, AtRow)])
  {
  }

  lemma ListedFit(hash: Hasher, db: Database, limit: nat, rows: seq<MissingRow>)
    requires IsListing(db, limit, rows)
    ensures forall k :: 0 <= k < |rows| ==> Describes(db, rows[k]) && Agrees(hash, db, rows[k])
  {
    forall k | 0 <= k < |rows|
      ensures Describes(db, rows[k]) && Agrees(hash, db, rows[k])
    {
      assert rows[k].entitlementId in MissingIds(db);
    }
  }

  lemma QueueKeepsGrants(w: World, who: nat, id: string)
    requires Inv(w) && Enabled(w, Queue(who)) && id in w.db.entitlements
    ensures KeptGrants(w.db, StepQueue(w, who).db, id)
  {
    EnqueueKinds(w.db.outbox, w.passes[who].rows[w.passes[who].next].entitlementId, w.passes[who].phase.plan);
  }

  /** What a row says about a revoked entitlement, but for the instant, stays said. */
  lemma StepKeepsDescription(hash: Hasher, w: World, e: Event, row: MissingRow)
    requires Inv(w) && Describes(w.db, row)
    ensures Describes(Next(hash, w, e).db, row)
  {
    StepKeepsInv(hash, w, e);
    if e.Queue? && Enabled(w, e) {
      QueueKeepsGrants(w, e.who, row.entitlementId);
    } else if !e.Queue? {
      StepKeeps(hash, w, e, row.entitlementId);
      KeptIsKeptGrants(w.db, Next(hash, w, e).db, row.entitlementId);
    }
    if Enabled(w, e) {
      DescribesStays(w.db, Next(hash, w, e).db, row);
    }
  }

  lemma RefundSettles(hash: Hasher, db: Database, e: Event)
    requires Settled(db) && e.Refund?
    ensures Settled(Refunded(hash, db, e.id, e.notify, e.claimedToo, e.settledAt, e.now))
  {
    RefundRevokes(hash, db, e);
  }

  lemma StepKeepsSettled(hash: Hasher, w: World, e: Event)
    requires Settled(w.db)
    ensures Settled(Next(hash, w, e).db)
  {
    if e.Refund? {
      RefundSettles(hash, w.db, e);
    }
  }

  lemma StepKeepsFit(hash: Hasher, w: World, e: Event)
    requires Fits(hash, w)
    ensures Fits(hash, Next(hash, w, e))
  {
    var w' := Next(hash, w, e);
    StepKeepsInv(hash, w, e);
    StepKeepsSettled(hash, w, e);
    PassesBegin(hash, w, e);
    if |w'.passes| != |w.passes| {
      ListedFit(hash, w.db, e.limit, e.rows);
    }
    forall i | 0 <= i < |w'.passes|
      ensures PassFits(hash, w'.db, w'.passes[i])
    {
      if i < |w.passes| {
        PassesStay(hash, w, e, i);
        assert PassFits(hash, w.db, w.passes[i]);
        forall k | 0 <= k < |w'.passes[i].rows|
          ensures Describes(w'.db, w'.passes[i].rows[k])
        {
          StepKeepsDescription(hash, w, e, w.passes[i].rows[k]);
        }
      }
    }
  }

  // --- when an instant moves ------------------------------------------------------------

  /** A refund is never undone for want of an event. */
  lemma RefundTakesEffect(hash: Hasher, db: Database, e: Event)
    requires Shape(db) && e.Refund?
    ensures var db' := Refunded(hash, db, e.id, e.notify, e.claimedToo, e.settledAt, e.now);
            if Revocable(db, e.id, e.claimedToo)
            then db' == RevokedBy(db, e.id, e.settledAt, e.now).(outbox := db'.outbox, reviews := db'.reviews)
            else db' == db
  {
    if Revocable(db, e.id, e.claimedToo) && HasGranted(db.outbox, e.id) {
      var row := RefundRow(db, e.id, e.settledAt, e.now);
      if DecideRevocation(row, true).RevokeAndNotify? {
        DecidedRowsCanBePlanned(hash, row);
      }
    }
  }

  lemma RefundMovesInstant(hash: Hasher, db: Database, e: Event, id: string)
    requires Shape(db) && Settled(db) && e.Refund? && id in db.entitlements && db.entitlements[id].status.Revoked?
    ensures var db' := Refunded(hash, db, e.id, e.notify, e.claimedToo, e.settledAt, e.now);
            id in db'.entitlements && db'.entitlements[id] == db.entitlements[id]
            && OccurredAt(db', id) == if BackDates(db, e, id) then Settlement(db, e).value.1 else OccurredAt(db, id)
  {
    RefundTakesEffect(hash, db, e);
  }

  lemma StepsMoveNoInstant(hash: Hasher, w: World, e: Event, id: string)
    requires !e.Refund? && !e.OtherRefund? && id in w.db.entitlements && w.db.entitlements[id].status.Revoked?
    ensures var db' := Next(hash, w, e).db;
            id in db'.entitlements && db'.entitlements[id] == w.db.entitlements[id] && db'.settledAt == w.db.settledAt
  {
  }

  /** The instant of a revoked entitlement moves by a refund dated before it, and by nothing else. */
  lemma InstantMovesExactlyWhenBackDated(hash: Hasher, w: World, e: Event, id: string)
    requires Inv(w) && Settled(w.db) && id in w.db.entitlements && w.db.entitlements[id].status.Revoked?
    ensures var db' := Next(hash, w, e).db;
            id in db'.entitlements && db'.entitlements[id] == w.db.entitlements[id]
            && OccurredAt(db', id) == if BackDates(w.db, e, id) then Settlement(w.db, e).value.1 else OccurredAt(w.db, id)
  {
    if e.Refund? {
      RefundMovesInstant(hash, w.db, e, id);
    } else if !e.OtherRefund? {
      StepsMoveNoInstant(hash, w, e, id);
    }
  }

  /** A refund's own notice is never one that was queued before. */
  lemma RefundNeverConflicts(hash: Hasher, db: Database, e: Event, other: string)
    requires Shape(db) && e.Refund?
    requires (other, PayloadConflict) !in db.reviews
    ensures (other, PayloadConflict) !in Refunded(hash, db, e.id, e.notify, e.claimedToo, e.settledAt, e.now).reviews
  {
    if e.id in db.entitlements && !db.entitlements[e.id].status.Revoked? {
      NotYetQueued(db, e.id);
    }
  }

  /** A notice queued by a pass: in the other passes, the rows of that entitlement are the very same row. */
  lemma QueueAgrees(hash: Hasher, db: Database, row: MissingRow, p: Plan, other: MissingRow)
    requires Shape(db) && Describes(db, row) && Agrees(hash, db, row) && Planned(hash, row) == Some(p)
    requires Describes(db, other) && Agrees(hash, db, other)
    ensures !Enqueue(db.outbox, row.entitlementId, p).1.Conflict?
    ensures Agrees(hash, db.(outbox := Enqueue(db.outbox, row.entitlementId, p).0), other)
  {
    var id := row.entitlementId;
    var db' := db.(outbox := Enqueue(db.outbox, id, p).0);
    QueueGrows(db, id, p);
    if p.eventId in db.outbox {
      RevocationIdsDiffer(db, id, p.eventId);
      assert HasRevoked(db.outbox, id);
    } else if other.entitlementId == id {
      if HasRevoked(db.outbox, id) {
        HasRevokedMeansRevoked(db, id);
      }
      assert Planned(hash, other).Some? ==> other == row;
    } else {
      assert Kept(db, db', other.entitlementId);
      AgreesStays(hash, db, db', other);
    }
  }

  lemma QueueKeepsAgreement(hash: Hasher, w: World, who: nat)
    requires Fits(hash, w) && AllAgree(hash, w) && Enabled(w, Queue(who))
    ensures AllAgree(hash, StepQueue(w, who))
  {
    var w' := StepQueue(w, who);
    assert PassFits(hash, w.db, w.passes[who]) && ToDo(w.passes[who], w.passes[who].next);
    var row, p := w.passes[who].rows[w.passes[who].next], w.passes[who].phase.plan;
    QueueAgrees(hash, w.db, row, p, row);
    forall i, k: nat | 0 <= i < |w'.passes| && ToDo(w'.passes[i], k)
      ensures Agrees(hash, w'.db, w'.passes[i].rows[k])
    {
      assert PassFits(hash, w.db, w.passes[i]) && ToDo(w.passes[i], k);
      QueueAgrees(hash, w.db, row, p, w.passes[i].rows[k]);
    }
  }

  lemma OthersRecordNothing(hash: Hasher, w: World, e: Event)
    requires Fits(hash, w) && NoConflict(w) && !e.Queue?
    ensures NoConflict(Next(hash, w, e))
  {
    var w' := Next(hash, w, e);
    forall id
      ensures (id, PayloadConflict) !in w'.db.reviews
    {
      if e.Refund? {
        RefundNeverConflicts(hash, w.db, e, id);
      }
    }
  }

  lemma OthersKeepAgreement(hash: Hasher, w: World, e: Event)
    requires Fits(hash, w) && AllAgree(hash, w) && !Upsets(hash, w, e) && !e.Queue? && !e.BeginPass?
    ensures AllAgree(hash, Next(hash, w, e))
  {
    var w' := Next(hash, w, e);
    OthersRecordNothing(hash, w, e);
    PassesBegin(hash, w, e);
    forall i, k: nat | 0 <= i < |w'.passes| && ToDo(w'.passes[i], k)
      ensures Agrees(hash, w'.db, w'.passes[i].rows[k])
    {
      PassesStay(hash, w, e, i);
      assert PassFits(hash, w.db, w.passes[i]) && ToDo(w.passes[i], k);
      var row := w.passes[i].rows[k];
      assert !BackDatesListed(hash, w, e, i, k);
      StepKeeps(hash, w, e, row.entitlementId);
      InstantMovesExactlyWhenBackDated(hash, w, e, row.entitlementId);
      AgreesStays(hash, w.db, w'.db, row);
    }
  }

  lemma BeginningKeepsAgreement(hash: Hasher, w: World, e: Event)
    requires Fits(hash, w) && AllAgree(hash, w) && e.BeginPass? && Enabled(w, e)
    ensures AllAgree(hash, Next(hash, w, e))
  {
    var w' := Next(hash, w, e);
    ListedFit(hash, w.db, e.limit, e.rows);
    forall i, k: nat | 0 <= i < |w'.passes| && ToDo(w'.passes[i], k)
      ensures Agrees(hash, w'.db, w'.passes[i].rows[k])
    {
      assert i < |w.passes| ==> w'.passes[i] == w.passes[i] && ToDo(w.passes[i], k);
    }
  }

  lemma StepKeepsAgreement(hash: Hasher, w: World, e: Event)
    requires Fits(hash, w) && AllAgree(hash, w) && !Upsets(hash, w, e)
    ensures AllAgree(hash, Next(hash, w, e))
  {
    if !Enabled(w, e) {
    } else if e.Queue? {
      QueueKeepsAgreement(hash, w, e.who);
    } else if e.BeginPass? {
      BeginningKeepsAgreement(hash, w, e);
    } else {
      OthersKeepAgreement(hash, w, e);
    }
  }

  lemma {:induction false} RunKeepsAgreement(hash: Hasher, w: World, es: seq<Event>)
    requires Fits(hash, w) && AllAgree(hash, w) && CalmRun(hash, w, es)
    ensures Fits(hash, Run(hash, w, es)) && AllAgree(hash, Run(hash, w, es))
    decreases |es|
  {
    if es != [] {
      StepKeepsFit(hash, w, es[0]);
      StepKeepsAgreement(hash, w, es[0]);
      RunKeepsAgreement(hash, Next(hash, w, es[0]), es[1..]);
    }
  }

  /**
   However passes of both programs overlap and crash, and whatever refunds and deliveries do
   meanwhile: as long as no refund is dated back while a pass has yet to queue a notice of that
   order, nothing queued again differs from what is queued, and no conflict is ever recorded.
   */
  lemma QueueingAgainNeverConflicts(hash: Hasher, es: seq<Event>, id: string)
    requires CalmRun(hash, Start(), es)
    ensures (id, PayloadConflict) !in Run(hash, Start(), es).db.reviews
  {
    RunKeepsAgreement(hash, Start(), es);
  }

  // --- refunds in the order of their dates ----------------------------------------------

  /** Refunds are settled in the order of their dates. */
  predicate Dated(db: Database, e: Event, clock: int) {
    var s := Settlement(db, e); s.Some? ==> clock <= s.value.1
  }

  ghost predicate DatedRun(hash: Hasher, w: World, es: seq<Event>, clock: int)
    decreases |es|
  {
    es == [] ||
    (Dated(w.db, es[0], clock)
     && DatedRun(hash, Next(hash, w, es[0]), es[1..],
                 if Settlement(w.db, es[0]).Some? then Settlement(w.db, es[0]).value.1 else clock))
  }

  lemma {:induction false} DatedIsCalm(hash: Hasher, w: World, es: seq<Event>, clock: int)
    requires Fits(hash, w) && DatedRun(hash, w, es, clock)
    requires forall orderId :: orderId in w.db.settledAt ==> w.db.settledAt[orderId] <= clock
    ensures CalmRun(hash, w, es)
    decreases |es|
  {
    if es != [] {
      var w' := Next(hash, w, es[0]);
      StepKeepsFit(hash, w, es[0]);
      forall i: nat, k: nat
        ensures !BackDatesListed(hash, w, es[0], i, k)
      {
        assert i < |w.passes| ==> PassFits(hash, w.db, w.passes[i]);
      }
      SettlesNoLater(hash, w, es[0], clock);
      DatedIsCalm(hash, w', es[1..], if Settlement(w.db, es[0]).Some? then Settlement(w.db, es[0]).value.1 else clock);
    }
  }

  lemma SettlesNoLater(hash: Hasher, w: World, e: Event, clock: int)
    requires Inv(w) && Dated(w.db, e, clock)
    requires forall orderId :: orderId in w.db.settledAt ==> w.db.settledAt[orderId] <= clock
    ensures var settledAt := Next(hash, w, e).db.settledAt;
            forall orderId :: orderId in settledAt ==>
              settledAt[orderId] <= if Settlement(w.db, e).Some? then Settlement(w.db, e).value.1 else clock
  {
    if e.Refund? {
      RefundTakesEffect(hash, w.db, e);
    }
  }

  /** So with refunds settled in the order of their dates there are no conflicts at all. */
  lemma DatedRefundsNeverConflict(hash: Hasher, es: seq<Event>, clock: int, id: string)
    requires DatedRun(hash, Start(), es, clock)
    ensures (id, PayloadConflict) !in Run(hash, Start(), es).db.reviews
  {
    DatedIsCalm(hash, Start(), es, clock);
    QueueingAgainNeverConflicts(hash, es, id);
  }

  /** Queued at two different instants, the same notice conflicts with itself. */
  lemma QueueingAgainConflictsExactlyWhenTimeMoved(hash: Hasher, o: Outbox, row: MissingRow, at: int)
    requires IsUuid(row.orderId) && Planned(hash, row).Some? && RevocationEventId(row.entitlementId) !in o
    requires forall a, b :: hash(a) == hash(b) ==> a == b
    ensures var later := row.(occurredAt := at);
            && Planned(hash, later).Some?
            && var (first, created) := Enqueue(o, row.entitlementId, Planned(hash, row).value);
               var (second, again) := Enqueue(first, row.entitlementId, Planned(hash, later).value);
               && created.Created? && second == first
               && (again.Duplicate? <==> at == row.occurredAt) && (again.Conflict? <==> at != row.occurredAt)
  {
    SameEventExactlyWhenSameInstant(hash, row, at);
  }
}
