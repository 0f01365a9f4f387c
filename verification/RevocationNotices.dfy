/**
 What a queued revocation says, over every run; what a listing shows of the tables, and what the
 counters of a pass count.
 */
module RevocationNotices {
  import opened Wrappers
  import opened WalletEvents
  import opened Revocation
  import opened RevocationRepair
  import opened RevocationPasses

  // --- what is queued -------------------------------------------------------------------

  /** The one the grant was sent to, or where none can be read from it, the recorded claimer. */
  ghost predicate IsRecipient(db: Database, id: string, commonUserId: string)
    requires id in db.entitlements && HasGranted(db.outbox, id)
  {
    var granted := db.outbox[GrantedOf(db.outbox, id)];
    if granted.payload.Some? && IsCommonUserId(granted.payload.value.envelope.commonUserId)
    then commonUserId == granted.payload.value.envelope.commonUserId
    else db.entitlements[id].claimedBy == Some(commonUserId)
  }

  /** The notice queued for this entitlement, if any, is about its order, line and artwork, and goes to its recipient. */
  ghost predicate NoticeRight(hash: Hasher, db: Database, id: string) {
    RevocationEventId(id) in db.outbox ==>
      && id in db.entitlements && db.entitlements[id].status.Revoked? && HasGranted(db.outbox, id)
      && var (row, e) := (db.outbox[RevocationEventId(id)], db.entitlements[id]);
         row.payload.Some? && row.payloadHash == hash(row.payload.value)
         && NoticeSays(row.payload.value, id, e.orderId, e.orderLineId, e.artworkId)
         && IsRecipient(db, id, row.payload.value.envelope.commonUserId)
  }

  ghost predicate NoticesRight(hash: Hasher, db: Database) {
    forall id :: NoticeRight(hash, db, id)
  }

  /** What a row says about an entitlement is what its notice says. */
  lemma DescribedIsRight(hash: Hasher, db: Database, row: MissingRow, p: Plan)
    requires OneGranted(db.outbox) && Describes(db, row) && Planned(hash, row) == Some(p)
    ensures var id, e := row.entitlementId, db.entitlements[row.entitlementId];
            p.eventId == RevocationEventId(id) && p.payloadHash == hash(p.payload)
            && NoticeSays(p.payload, id, e.orderId, e.orderLineId, e.artworkId)
            && IsRecipient(db, id, p.payload.envelope.commonUserId)
  {
    PlannedNoticeSays(hash, row);
    NoticeGoesToWhoWasTold(row);
  }

  lemma KeptGrantsKeepRecipient(db: Database, db': Database, id: string, commonUserId: string)
    requires OneGranted(db.outbox) && OneGranted(db'.outbox) && KeptGrants(db, db', id)
    requires HasGranted(db.outbox, id) && IsRecipient(db, id, commonUserId)
    ensures HasGranted(db'.outbox, id) && IsRecipient(db', id, commonUserId)
  {
    assert IsGranted(db'.outbox, GrantedOf(db.outbox, id), id);
    assert HasGranted(db'.outbox, id);
    assert GrantedOf(db'.outbox, id) == GrantedOf(db.outbox, id);
  }

  lemma KeptIsRight(hash: Hasher, db: Database, db': Database, id: string)
    requires OneGranted(db.outbox) && OneGranted(db'.outbox) && Kept(db, db', id)
    requires RevocationEventId(id) in db.outbox && NoticeRight(hash, db, id)
    ensures NoticeRight(hash, db', id)
  {
    KeptIsKeptGrants(db, db', id);
    KeptGrantsKeepRecipient(db, db', id, db.outbox[RevocationEventId(id)].payload.value.envelope.commonUserId);
  }

  lemma SameRevocationId(id: string, other: string)
    ensures RevocationEventId(id) == RevocationEventId(other) ==> id == other
  {
    assert RevocationEventId(id)[8..] == id && RevocationEventId(other)[8..] == other;
  }

  lemma EnqueueKeepsGrants(db: Database, id: string, p: Plan, other: string)
    requires other in db.entitlements
    ensures KeptGrants(db, db.(outbox := Enqueue(db.outbox, id, p).0), other)
  {
    EnqueueKinds(db.outbox, id, p);
  }

  lemma NewNoticeIsRight(hash: Hasher, db: Database, row: MissingRow, p: Plan)
    requires Shape(db) && Describes(db, row) && Planned(hash, row) == Some(p) && p.eventId !in db.outbox
    ensures NoticeRight(hash, db.(outbox := Enqueue(db.outbox, row.entitlementId, p).0), row.entitlementId)
  {
    var id := row.entitlementId;
    DescribedIsRight(hash, db, row, p);
    QueueGrows(db, id, p);
    EnqueueKeepsGrants(db, id, p, id);
    KeptGrantsKeepRecipient(db, db.(outbox := Enqueue(db.outbox, id, p).0), id, p.payload.envelope.commonUserId);
  }

  lemma OldNoticeStaysRight(hash: Hasher, db: Database, row: MissingRow, p: Plan, id: string)
    requires Shape(db) && Describes(db, row) && p.eventId == RevocationEventId(row.entitlementId)
    requires RevocationEventId(id) in db.outbox && NoticeRight(hash, db, id)
    ensures NoticeRight(hash, db.(outbox := Enqueue(db.outbox, row.entitlementId, p).0), id)
  {
    QueueGrows(db, row.entitlementId, p);
    EnqueueKeepsGrants(db, row.entitlementId, p, id);
    KeptGrantsKeepRecipient(db, db.(outbox := Enqueue(db.outbox, row.entitlementId, p).0), id,
                            db.outbox[RevocationEventId(id)].payload.value.envelope.commonUserId);
  }

  /** Reviews play no part. */
  lemma ReviewsDoNotMatter(hash: Hasher, db: Database, reviews: set<(string, ReviewReason)>, id: string)
    requires NoticeRight(hash, db, id)
    ensures NoticeRight(hash, db.(reviews := reviews), id)
  {
  }

  lemma QueueIsRight(hash: Hasher, w: World, who: nat, id: string)
    requires Fits(hash, w) && Enabled(w, Queue(who)) && NoticeRight(hash, w.db, id)
    ensures NoticeRight(hash, StepQueue(w, who).db, id)
  {
    var pass := w.passes[who];
    var row, p := pass.rows[pass.next], pass.phase.plan;
    assert PassFits(hash, w.db, pass) && PassOk(w.db, w.escaped, pass);
    assert Describes(w.db, row);
    var db' := w.db.(outbox := Enqueue(w.db.outbox, row.entitlementId, p).0);
    if RevocationEventId(id) in w.db.outbox {
      OldNoticeStaysRight(hash, w.db, row, p, id);
    } else if id == row.entitlementId {
      NewNoticeIsRight(hash, w.db, row, p);
    } else {
      SameRevocationId(id, row.entitlementId);
    }
    ReviewsDoNotMatter(hash, db', StepQueue(w, who).db.reviews, id);
  }

  lemma RefundKeepsGrants(hash: Hasher, db: Database, id: string, claimedToo: bool, settledAt: int, now: int, p: Plan)
    requires Shape(db) && Revocable(db, id, claimedToo) && HasGranted(db.outbox, id) && p.eventId == RevocationEventId(id)
    requires OneGranted(Enqueue(Supersede(db.outbox, id), id, p).0)
    ensures var o' := Enqueue(Supersede(db.outbox, id), id, p).0;
            HasGranted(o', id) && GrantedOf(o', id) == GrantedOf(db.outbox, id)
            && o'[GrantedOf(o', id)].payload == db.outbox[GrantedOf(db.outbox, id)].payload
  {
    StoppingWritesExactly(db.outbox, id);
    EnqueueKinds(Supersede(db.outbox, id), id, p);
    var o', granted := Enqueue(Supersede(db.outbox, id), id, p).0, GrantedOf(db.outbox, id);
    assert IsGranted(Supersede(db.outbox, id), granted, id);
    assert IsGranted(o', granted, id);
    assert HasGranted(o', id);
  }

  lemma RefundedNoticeIsRight(hash: Hasher, db: Database, id: string, claimedToo: bool, settledAt: int, now: int)
    requires Shape(db) && Revocable(db, id, claimedToo) && HasGranted(db.outbox, id)
    requires DecideRevocation(RefundRow(db, id, settledAt, now), true).RevokeAndNotify?
    requires OneGranted(Refunded(hash, db, id, true, claimedToo, settledAt, now).outbox)
    ensures NoticeRight(hash, Refunded(hash, db, id, true, claimedToo, settledAt, now), id)
  {
    var row := RefundRow(db, id, settledAt, now);
    var p := PlanRevocation(hash, row, DecideRevocation(row, true));
    DecidedRowsCanBePlanned(hash, row);
    NotYetQueued(db, id);
    StopThenQueueIsTheSame(db.outbox, id, p.value);
    RefundKeepsGrants(hash, db, id, claimedToo, settledAt, now, p.value);
    PlannedNoticeSays(hash, row);
    NoticeGoesToWhoWasTold(row);
  }

  /** A refund's own notice. */
  lemma RefundIsRight(hash: Hasher, w: World, e: Event)
    requires Inv(w) && e.Refund? && RevocationEventId(e.id) !in w.db.outbox
    ensures NoticeRight(hash, Next(hash, w, e).db, e.id)
  {
    var db, id := w.db, e.id;
    StepKeepsInv(hash, w, e);
    if Revocable(db, id, e.claimedToo) && e.notify && HasGranted(db.outbox, id)
       && DecideRevocation(RefundRow(db, id, e.settledAt, e.now), true).RevokeAndNotify?
    {
      RefundedNoticeIsRight(hash, db, id, e.claimedToo, e.settledAt, e.now);
    } else {
      RefundWritesExactly(hash, db, id, e.notify, e.claimedToo, e.settledAt, e.now);
      StoppingWritesExactly(db.outbox, id);
    }
  }

  /** No other step makes a revocation id. */
  lemma OthersQueueNothing(hash: Hasher, w: World, e: Event, id: string)
    requires !e.Queue? && !(e.Refund? && e.id == id) && RevocationEventId(id) !in w.db.outbox
    ensures RevocationEventId(id) !in Next(hash, w, e).db.outbox
  {
    if e.Refund? {
      RefundMoves(hash, w.db, e);
      SameRevocationId(id, e.id);
    } else if e.Claim? {
      if IsUuid(e.generatedId) {
        UuidIsNoRevocation(e.generatedId);
      }
      assert "evt_rvk_" <= RevocationEventId(id);
    }
  }

  lemma StepKeepsNotices(hash: Hasher, w: World, e: Event)
    requires Fits(hash, w) && NoticesRight(hash, w.db)
    ensures NoticesRight(hash, Next(hash, w, e).db)
  {
    var db' := Next(hash, w, e).db;
    StepKeepsInv(hash, w, e);
    forall id
      ensures NoticeRight(hash, db', id)
    {
      assert NoticeRight(hash, w.db, id);
      if e.Queue? {
        if Enabled(w, e) {
          QueueIsRight(hash, w, e.who, id);
        }
      } else if RevocationEventId(id) in w.db.outbox {
        StepKeeps(hash, w, e, id);
        KeptIsRight(hash, w.db, db', id);
      } else if e.Refund? && e.id == id {
        RefundIsRight(hash, w, e);
      } else {
        OthersQueueNothing(hash, w, e, id);
      }
    }
  }

  lemma {:induction false} RunKeepsNotices(hash: Hasher, w: World, es: seq<Event>)
    requires Fits(hash, w) && NoticesRight(hash, w.db)
    ensures NoticesRight(hash, Run(hash, w, es).db) && Fits(hash, Run(hash, w, es))
    decreases |es|
  {
    if es != [] {
      StepKeepsFit(hash, w, es[0]);
      StepKeepsNotices(hash, w, es[0]);
      RunKeepsNotices(hash, Next(hash, w, es[0]), es[1..]);
    }
  }

  /**
   Over every run of refunds, passes of both programs, deliveries and crashes: a revocation that
   is queued names the order, line and artwork of its own entitlement, as a full refund, and goes
   to whom the grant went, or else to the recorded claimer.
   */
  lemma QueuedRevocationsSay(hash: Hasher, es: seq<Event>, event: string)
    requires event in Run(hash, Start(), es).db.outbox && Run(hash, Start(), es).db.outbox[event].eventType.RevokedEvent?
    ensures var db := Run(hash, Start(), es).db;
            var row := db.outbox[event];
            && row.entitlementId in db.entitlements && HasGranted(db.outbox, row.entitlementId) && row.payload.Some?
            && var e := db.entitlements[row.entitlementId];
               NoticeSays(row.payload.value, row.entitlementId, e.orderId, e.orderLineId, e.artworkId)
               && IsRecipient(db, row.entitlementId, row.payload.value.envelope.commonUserId)
               && event == row.payload.value.envelope.eventId && row.payloadHash == hash(row.payload.value)
  {
    RunKeepsNotices(hash, Start(), es);
    var db := Run(hash, Start(), es).db;
    OnlyEscapedGrantsOutlive(hash, es, event, db.outbox[event].entitlementId);
    assert NoticeRight(hash, db, db.outbox[event].entitlementId);
  }

  // --- what is listed -------------------------------------------------------------------

  /** What is listed is revoked, was granted and has no notice, and is shown as the tables have it. */
  lemma ListingSays(db: Database, limit: nat, rows: seq<MissingRow>, k: nat)
    requires OneGranted(db.outbox) && IsListing(db, limit, rows) && k < |rows|
    ensures var row, id := rows[k], rows[k].entitlementId;
            && id in db.entitlements && db.entitlements[id].status == EntitlementStatus.Revoked
            && (forall event :: event in db.outbox && db.outbox[event].entitlementId == id ==>
                  db.outbox[event].eventType == GrantedEvent)
    ensures var row, e := rows[k], db.entitlements[rows[k].entitlementId];
            && row.orderId == e.orderId && row.orderLineId == e.orderLineId && row.artworkId == e.artworkId
            && row.claimedCommonUserId == e.claimedBy
            && row.occurredAt == (if e.orderId in db.settledAt then db.settledAt[e.orderId] else e.updatedAt)
    ensures var row, id := rows[k], rows[k].entitlementId;
            exists event :: event in db.outbox && db.outbox[event].entitlementId == id
                 && db.outbox[event].eventType == GrantedEvent
                 && row.grantedCorrelationId == Some(db.outbox[event].correlationId)
                 && row.grantedCommonUserId == if db.outbox[event].payload.None? then None
                                               else Some(db.outbox[event].payload.value.envelope.commonUserId)
  {
    var id := rows[k].entitlementId;
    assert id in MissingIds(db);
    var event := GrantedOf(db.outbox, id);
    assert event in db.outbox && IsGranted(db.outbox, event, id);
    forall other | other in db.outbox && db.outbox[other].entitlementId == id
      ensures db.outbox[other].eventType == GrantedEvent
    {
      assert db.outbox[other].eventType.RevokedEvent? ==> HasRevoked(db.outbox, id);
    }
  }

  /** Everything that is missing is listed if the limit has room for it. */
  lemma NothingMissingIsPassedOver(db: Database, limit: nat, rows: seq<MissingRow>, id: string)
    requires IsListing(db, limit, rows) && |rows| < limit
    requires id in db.entitlements && db.entitlements[id].status == EntitlementStatus.Revoked
    requires exists event :: event in db.outbox && db.outbox[event].entitlementId == id && db.outbox[event].eventType == GrantedEvent
    requires forall event :: event in db.outbox && db.outbox[event].entitlementId == id ==> db.outbox[event].eventType == GrantedEvent
    ensures exists k :: 0 <= k < |rows| && rows[k].entitlementId == id
  {
    var event :| event in db.outbox && db.outbox[event].entitlementId == id && db.outbox[event].eventType == GrantedEvent;
    assert IsGranted(db.outbox, event, id);
    assert id in MissingIds(db);
    ListedIsDrawn(db, rows);
    assert BacklogOf(db).Keys == MissingIds(db);
    IdsCount(BacklogOf(db), rows, |rows|);
    WholeOfSameSize(IdsOf(rows, |rows|), MissingIds(db));
    IdsAreListed(rows, |rows|, id);
  }

  lemma WholeOfSameSize(some: set<string>, all: set<string>)
    requires some <= all && |some| == |all|
    ensures some == all
  {
    assert all == some + (all - some);
    assert |all - some| == 0;
  }

  // --- what is counted ------------------------------------------------------------------

  /** Each row is counted once, by what became of its notice. */
  lemma RowIsCounted(hash: Hasher, db: Database, row: MissingRow, t: Totals)
    requires IsUuid(row.orderId)
    ensures var (db', result) := RepairRow(hash, db, row);
            var t' := Added(t, result);
            var event := "evt_rvk_" + row.entitlementId;
            match Planned(hash, row)
            case None =>
              t' == t.(needsReview := t.needsReview + 1)
              && db' == db.(reviews := db.reviews + {(row.entitlementId, RecipientUnresolved)})
            case Some(p) =>
              var stopped := t.(superseded := t.superseded + |StoppableEvents(db.outbox, row.entitlementId)|);
              if event !in db.outbox then
                t' == stopped.(created := t.created + 1) && db'.reviews == db.reviews
                && db'.outbox == Supersede(db.outbox, row.entitlementId)[
                     event := OutboxRow(RevokedEvent, row.entitlementId, Some(p.payload), p.payloadHash, p.correlationId,
                                        RowStatus.Pending)]
              else if db.outbox[event].payloadHash == p.payloadHash then
                t' == stopped.(duplicate := t.duplicate + 1) && db'.reviews == db.reviews
                && db'.outbox == Supersede(db.outbox, row.entitlementId)
              else
                t' == stopped.(conflicts := t.conflicts + 1)
                && db'.reviews == db.reviews + {(row.entitlementId, PayloadConflict)}
                && db'.outbox == Supersede(db.outbox, row.entitlementId)
  {
    NoticeGoesToWhoWasTold(row);
    StoppingWritesExactly(db.outbox, row.entitlementId);
    if DecideRevocation(row, true).RevokeAndNotify? {
      DecidedRowsCanBePlanned(hash, row);
      PlannedNoticeSays(hash, row);
    }
  }

  /** The grants that have been stopped. */
  function StoppedIn(o: Outbox): set<string> {
    set event | event in o && o[event].status == RowStatus.Superseded
  }

  lemma StoppingCounts(o: Outbox, id: string)
    ensures |StoppedIn(Supersede(o, id))| == |StoppedIn(o)| + |StoppableEvents(o, id)|
  {
    StoppingWritesExactly(o, id);
    assert StoppedIn(Supersede(o, id)) == StoppedIn(o) + StoppableEvents(o, id);
    assert StoppedIn(o) !! StoppableEvents(o, id);
  }

  lemma QueueingStopsNothing(o: Outbox, event: string, row: OutboxRow)
    requires event !in o && row.status == RowStatus.Pending
    ensures StoppedIn(o[event := row]) == StoppedIn(o) && |o[event := row].Keys| == |o.Keys| + 1
  {
    assert o[event := row].Keys == o.Keys + {event};
  }

  /** What one row adds to the counters is what it does to the tables. */
  ghost predicate Accounts(db: Database, db': Database, t: Totals, t': Totals) {
    && t'.threw == t.threw
    && t'.passed + t'.needsReview + t'.created + t'.duplicate + t'.conflicts
       == t.passed + t.needsReview + t.created + t.duplicate + t.conflicts + 1
    && t'.needsReview >= t.needsReview && t'.conflicts >= t.conflicts
    && |db'.outbox.Keys| - |db.outbox.Keys| == t'.created - t.created
    && |StoppedIn(db'.outbox)| - |StoppedIn(db.outbox)| == t'.superseded - t.superseded
    && (t'.conflicts == t.conflicts && t'.needsReview == t.needsReview ==> db'.reviews == db.reviews)
  }

  lemma RowAccounts(hash: Hasher, db: Database, row: MissingRow, t: Totals)
    requires IsUuid(row.orderId)
    ensures var (db', result) := RepairRow(hash, db, row);
            Accounts(db, db', t, Added(t, result))
  {
    RowIsCounted(hash, db, row, t);
    var o := db.outbox;
    var stopped := Supersede(o, row.entitlementId);
    StoppingCounts(o, row.entitlementId);
    assert stopped.Keys == o.Keys;
    var event := "evt_rvk_" + row.entitlementId;
    if Planned(hash, row).Some? && event !in o {
      QueueingStopsNothing(stopped, event, RepairRow(hash, db, row).0.outbox[event]);
    }
  }

  /** The counters of a pass, against the tables before and after it. */
  ghost predicate Tallied(db: Database, db': Database, t: Totals, n: nat) {
    && !t.threw && t.passed + t.needsReview + t.created + t.duplicate + t.conflicts == n
    && |db'.outbox.Keys| == |db.outbox.Keys| + t.created
    && |StoppedIn(db'.outbox)| == |StoppedIn(db.outbox)| + t.superseded
    && (t.conflicts == 0 && t.needsReview == 0 ==> db'.reviews == db.reviews)
  }

  lemma TallyGoesOn(db0: Database, db: Database, db': Database, t: Totals, t': Totals, n: nat)
    requires Tallied(db0, db, t, n) && Accounts(db, db', t, t')
    ensures Tallied(db0, db', t', n + 1)
  {
  }

  /** Whatever the listing: every row is counted once, as many notices are new and as many grants stopped as is said. */
  lemma {:induction false} PassIsTallied(hash: Hasher, db: Database, rows: seq<MissingRow>, n: nat)
    requires n <= |rows| && forall k :: 0 <= k < |rows| ==> IsUuid(rows[k].orderId)
    ensures Tallied(db, RepairRows(hash, db, rows, n).0, RepairRows(hash, db, rows, n).1, n)
  {
    if n > 0 {
      PassIsTallied(hash, db, rows, n - 1);
      var (before, t) := RepairRows(hash, db, rows, n - 1);
      InTurnUnfolds(Repairing(hash), db, rows, n);
      var (after, result) := RepairRow(hash, before, rows[n - 1]);
      RowAccounts(hash, before, rows[n - 1], t);
      TallyGoesOn(db, before, after, t, Added(t, result), n - 1);
    }
  }
}
