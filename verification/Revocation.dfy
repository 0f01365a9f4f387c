/**
 Revoking an entitlement and telling the wallet about it: the decision, the event built for
 it, the outgoing queue, and every interleaving of refunds, repair passes and the delivery
 worker over one database. A pass that crashes takes no further step.
 */
module Revocation {
  import opened Wrappers
  import opened Text
  import opened WalletEvents

  datatype EntitlementStatus = Issued | Claimed | Expired | Revoked

  datatype Entitlement = Entitlement(
    orderId: string, orderLineId: string, artworkId: string,
    status: EntitlementStatus, claimedBy: Option<string>, updatedAt: int)

  datatype RowStatus = Pending | Processing | Delivered | Failed | Dead | Superseded

  datatype EventType = GrantedEvent | RevokedEvent

  /** `payload` is `None` for a stored text in which no event can be read. */
  datatype OutboxRow = OutboxRow(
    eventType: EventType, entitlementId: string, payload: Option<WalletEvent>, payloadHash: string,
    correlationId: string, status: RowStatus)

  datatype ReviewReason = RecipientUnresolved | PayloadConflict

  type Outbox = map<string, OutboxRow>

  /** `settledAt` is the earliest settlement among an order's succeeded refunds. */
  datatype Database = Database(
    entitlements: map<string, Entitlement>, settledAt: map<string, int>, outbox: Outbox,
    reviews: set<(string, ReviewReason)>)

  /** The hash of the text an event is sent as. */
  type Hasher = WalletEvent -> string

  predicate IsUuidChar(c: char) {
    IsDigit(c) || 'a' <= c <= 'f' || c == '-'
  }

  predicate IsUuid(s: string) {
    |s| == 36 && forall i :: 0 <= i < |s| ==> IsUuidChar(s[i])
  }

  lemma UuidsAre(s: string)
    ensures IsUuid(s) <==> |s| == 36 && forall i :: 0 <= i < |s| ==> s[i] in "0123456789abcdef-"
  {
    forall i | 0 <= i < |s|
      ensures IsUuidChar(s[i]) <==> s[i] in "0123456789abcdef-"
    {
      UuidCharsAre(s[i]);
    }
  }

  lemma UuidCharsAre(c: char)
    ensures IsUuidChar(c) <==> c in "0123456789abcdef-"
  {
  }

  // --- the decision and the event -------------------------------------------------------

  datatype Decision =
    | RevokeOnly
    | RevokeAndNotify(eventId: string, commonUserId: string, correlationId: string)
    | NeedsReview

  function RevocationEventId(entitlementId: string): string {
    "evt_rvk_" + entitlementId
  }

  function FallbackCorrelationId(orderId: string): string {
    "ord-" + orderId
  }

  datatype MissingRow = MissingRow(
    entitlementId: string, orderId: string, orderLineId: string, artworkId: string,
    claimedCommonUserId: Option<string>, grantedCommonUserId: Option<string>, grantedCorrelationId: Option<string>,
    occurredAt: int)

  function FirstCommonUserId(a: Option<string>, b: Option<string>): Option<string> {
    if a.Some? && IsCommonUserId(a.value) then a
    else if b.Some? && IsCommonUserId(b.value) then b
    else None
  }

  function DecideRevocation(row: MissingRow, hasGrantedEvent: bool): Decision {
    if !hasGrantedEvent then RevokeOnly
    else match FirstCommonUserId(row.grantedCommonUserId, row.claimedCommonUserId)
      case None => NeedsReview
      case Some(commonUserId) =>
        RevokeAndNotify(
          RevocationEventId(row.entitlementId), commonUserId,
          if row.grantedCorrelationId.Some? && IsWalletCorrelationId(row.grantedCorrelationId.value)
          then row.grantedCorrelationId.value else FallbackCorrelationId(row.orderId))
  }

  /**
   A notice goes to whom the grant named; only where no recipient can be read from the grant, to
   whom the entitlement names, and where neither is one, to nobody. Its id is the entitlement's.
   */
  lemma NoticeGoesToWhoWasTold(row: MissingRow)
    ensures var d := DecideRevocation(row, true);
            var told := row.grantedCommonUserId.Some? && IsCommonUserId(row.grantedCommonUserId.value);
            var claimed := row.claimedCommonUserId.Some? && IsCommonUserId(row.claimedCommonUserId.value);
            && (told ==> d.RevokeAndNotify? && Some(d.commonUserId) == row.grantedCommonUserId)
            && (!told && claimed ==> d.RevokeAndNotify? && Some(d.commonUserId) == row.claimedCommonUserId)
            && (d.NeedsReview? <==> !told && !claimed)
            && (d.RevokeAndNotify? ==>
                  d.eventId == "evt_rvk_" + row.entitlementId
                  && d.correlationId == if row.grantedCorrelationId.Some? && IsWalletCorrelationId(row.grantedCorrelationId.value)
                                        then row.grantedCorrelationId.value else "ord-" + row.orderId)
    ensures DecideRevocation(row, false).RevokeOnly?
  {
  }

  datatype Plan = Plan(eventId: string, payload: WalletEvent, payloadHash: string, correlationId: string)

  /** The reconcile service, the backfill program and the refund build the event in this one way, from the row alone. */
  function PlanRevocation(hash: Hasher, row: MissingRow, d: Decision): Result<Plan, EventError>
    requires d.RevokeAndNotify?
  {
    var envelope := Envelope(d.eventId, row.occurredAt, d.correlationId, d.commonUserId, row.entitlementId,
                             row.orderId, row.orderLineId, row.artworkId);
    match BuildRevokedEvent(envelope, "full_refund")
    case Err(error) => Err(error)
    case Ok(event) => Ok(Plan(d.eventId, event, hash(event), d.correlationId))
  }

  /** The notice of a full refund of this entitlement, each thing in its own place. */
  ghost predicate NoticeSays(p: WalletEvent, entitlementId: string, orderId: string, orderLineId: string, artworkId: string) {
    && p.Revoked? && p.version == "1.1" && p.reasonCode == "full_refund"
    && p.envelope.eventId == "evt_rvk_" + entitlementId && p.envelope.entitlementId == entitlementId
    && p.envelope.orderId == orderId && p.envelope.orderLineId == orderLineId && p.envelope.artworkId == artworkId
  }

  /** A notice that is built says what the row says, at the row's instant, to whom it was decided to go. */
  lemma PlannedNoticeSays(hash: Hasher, row: MissingRow)
    requires DecideRevocation(row, true).RevokeAndNotify?
    ensures var d := DecideRevocation(row, true);
            var r := PlanRevocation(hash, row, d);
            r.Ok? ==>
              && NoticeSays(r.value.payload, row.entitlementId, row.orderId, row.orderLineId, row.artworkId)
              && r.value.payload.envelope.occurredAt == row.occurredAt
              && r.value.payload.envelope.commonUserId == d.commonUserId
              && r.value.payload.envelope.correlationId == d.correlationId == r.value.correlationId
              && r.value.eventId == d.eventId && r.value.payloadHash == hash(r.value.payload)
  {
  }

  lemma FallbackFits(orderId: string)
    requires IsUuid(orderId)
    ensures IsWalletCorrelationId(FallbackCorrelationId(orderId))
  {
    var s := FallbackCorrelationId(orderId);
    forall i | 0 <= i < |s|
      ensures IsCorrelationChar(s[i])
    {
      if i >= 4 {
        assert s[i] == orderId[i - 4];
      }
    }
  }

  /** Once a recipient is decided, building the event cannot fail. */
  lemma DecidedRowsCanBePlanned(hash: Hasher, row: MissingRow)
    requires IsUuid(row.orderId) && DecideRevocation(row, true).RevokeAndNotify?
    ensures PlanRevocation(hash, row, DecideRevocation(row, true)).Ok?
  {
    FallbackFits(row.orderId);
    assert RevocationEventId(row.entitlementId)[0] == 'e' && 'e' in RevocationEventId(row.entitlementId);
  }

  /**
   The same row read at another instant gives another event exactly when the instant differs;
   hence the time of the refund, not the time of the repair.
   */
  lemma SameEventExactlyWhenSameInstant(hash: Hasher, row: MissingRow, at: int)
    requires IsUuid(row.orderId) && DecideRevocation(row, true).RevokeAndNotify?
    requires forall a, b :: hash(a) == hash(b) ==> a == b
    ensures var d := DecideRevocation(row, true);
            var later := row.(occurredAt := at);
            && DecideRevocation(later, true) == d
            && PlanRevocation(hash, row, d).Ok? && PlanRevocation(hash, later, d).Ok?
            && (PlanRevocation(hash, row, d).value.payloadHash == PlanRevocation(hash, later, d).value.payloadHash
                <==> at == row.occurredAt)
  {
    DecidedRowsCanBePlanned(hash, row);
    DecidedRowsCanBePlanned(hash, row.(occurredAt := at));
    var d := DecideRevocation(row, true);
    assert PlanRevocation(hash, row, d).value.payload.envelope.occurredAt == row.occurredAt;
    assert PlanRevocation(hash, row.(occurredAt := at), d).value.payload.envelope.occurredAt == at;
  }

  // --- the queue ------------------------------------------------------------------------

  predicate IsGranted(outbox: Outbox, event: string, id: string) {
    event in outbox && outbox[event].eventType.GrantedEvent? && outbox[event].entitlementId == id
  }

  predicate HasRevoked(outbox: Outbox, id: string) {
    exists event :: event in outbox && outbox[event].eventType.RevokedEvent? && outbox[event].entitlementId == id
  }

  predicate HasGranted(outbox: Outbox, id: string) {
    exists event :: event in outbox && IsGranted(outbox, event, id)
  }

  predicate Stoppable(row: OutboxRow, id: string) {
    row.eventType.GrantedEvent? && row.entitlementId == id && (row.status.Pending? || row.status.Failed? || row.status.Dead?)
  }

  function StoppableEvents(outbox: Outbox, id: string): set<string> {
    set event | event in outbox && Stoppable(outbox[event], id)
  }

  /** Rows in delivery and delivered ones are left alone. */
  function Supersede(outbox: Outbox, id: string): Outbox {
    map event | event in outbox ::
      if Stoppable(outbox[event], id) then outbox[event].(status := Superseded) else outbox[event]
  }

  datatype EnqueueOutcome = Created | Duplicate | Conflict(expectedHash: string, actualHash: string)

  function Enqueue(outbox: Outbox, id: string, p: Plan): (Outbox, EnqueueOutcome) {
    if p.eventId !in outbox then
      (outbox[p.eventId := OutboxRow(RevokedEvent, id, Some(p.payload), p.payloadHash, p.correlationId, Pending)], Created)
    else if outbox[p.eventId].payloadHash == p.payloadHash then (outbox, Duplicate)
    else (outbox, Conflict(p.payloadHash, outbox[p.eventId].payloadHash))
  }

  // --- what is missing ------------------------------------------------------------------

  /** An entitlement has at most one granted row, so the oldest one is the one. */
  ghost function GrantedOf(outbox: Outbox, id: string): (event: string)
    requires HasGranted(outbox, id)
    ensures IsGranted(outbox, event, id)
  {
    var event :| event in outbox && IsGranted(outbox, event, id);
    event
  }

  ghost predicate OneGranted(outbox: Outbox) {
    forall a, b | a in outbox && b in outbox && outbox[a].entitlementId == outbox[b].entitlementId ::
      outbox[a].eventType.GrantedEvent? && outbox[b].eventType.GrantedEvent? ==> a == b
  }

  function OccurredAt(db: Database, id: string): int
    requires id in db.entitlements
  {
    var e := db.entitlements[id];
    if e.orderId in db.settledAt then db.settledAt[e.orderId] else e.updatedAt
  }

  /** The recipient named in the text that was sent. */
  function CommonUserIdOf(row: OutboxRow): Option<string> {
    match row.payload
    case None => None
    case Some(event) => Some(event.envelope.commonUserId)
  }

  function RowOf(db: Database, id: string, granted: string): MissingRow
    requires id in db.entitlements && granted in db.outbox
  {
    var e := db.entitlements[id];
    MissingRow(id, e.orderId, e.orderLineId, e.artworkId, e.claimedBy, CommonUserIdOf(db.outbox[granted]),
               Some(db.outbox[granted].correlationId), OccurredAt(db, id))
  }

  function MissingIds(db: Database): set<string> {
    set id | id in db.entitlements && db.entitlements[id].status.Revoked?
             && HasGranted(db.outbox, id) && !HasRevoked(db.outbox, id)
  }

  function Min(a: nat, b: nat): nat {
    if a < b then a else b
  }

  /** Rows of different missing entitlements, as the tables have them. */
  ghost predicate Listed(db: Database, rows: seq<MissingRow>) {
    && (forall i :: 0 <= i < |rows| ==>
          rows[i].entitlementId in MissingIds(db)
          && rows[i] == RowOf(db, rows[i].entitlementId, GrantedOf(db.outbox, rows[i].entitlementId)))
    && (forall i, j :: 0 <= i < j < |rows| ==> rows[i].entitlementId != rows[j].entitlementId)
  }

  function IdsOf(rows: seq<MissingRow>, n: nat): (ids: set<string>)
    requires n <= |rows|
    ensures forall i :: 0 <= i < n ==> rows[i].entitlementId in ids
  {
    if n == 0 then {} else IdsOf(rows, n - 1) + {rows[n - 1].entitlementId}
  }

  /** When each missing entitlement was last touched. */
  function Ages(db: Database): map<string, int> {
    map id | id in MissingIds(db) :: db.entitlements[id].updatedAt
  }

  ghost predicate NoOlder(age: map<string, int>, ids: set<string>, others: set<string>)
    requires ids <= age.Keys && others <= age.Keys
  {
    forall a, b | a in ids && b in others :: age[a] <= age[b]
  }

  /** In order of age, and no row left out is older than one listed. */
  ghost predicate OldestFirst(age: map<string, int>, rows: seq<MissingRow>)
    decreases |rows|
  {
    var ids := IdsOf(rows, |rows|);
    ids <= age.Keys && NoOlder(age, ids, age.Keys - ids)
    && (rows == [] || OldestFirst(age, rows[..|rows| - 1]))
  }

  /** An answer of the query: the oldest `limit` missing ones, in any order among equals. */
  ghost predicate IsListing(db: Database, limit: nat, rows: seq<MissingRow>) {
    Listed(db, rows) && |rows| == Min(limit, |MissingIds(db)|) && OldestFirst(Ages(db), rows)
  }

  // --- refunds --------------------------------------------------------------------------

  function WithRefund(db: Database, orderId: string, at: int): Database {
    if orderId in db.settledAt && db.settledAt[orderId] <= at then db
    else db.(settledAt := db.settledAt[orderId := at])
  }

  function RevokedBy(db: Database, id: string, settledAt: int, now: int): Database
    requires id in db.entitlements
  {
    var e := db.entitlements[id];
    WithRefund(db.(entitlements := db.entitlements[id := e.(status := EntitlementStatus.Revoked, updatedAt := now)]),
               e.orderId, settledAt)
  }

  /** What the refund itself makes the notice from: its own settlement, not the order's earliest. */
  ghost function RefundRow(db: Database, id: string, settledAt: int, now: int): MissingRow
    requires id in db.entitlements && HasGranted(db.outbox, id)
  {
    RowOf(RevokedBy(db, id, settledAt, now), id, GrantedOf(db.outbox, id)).(occurredAt := settledAt)
  }

  predicate Revocable(db: Database, id: string, claimedToo: bool) {
    id in db.entitlements
    && (db.entitlements[id].status.Issued? || (claimedToo && db.entitlements[id].status.Claimed?))
  }

  /**
   The direct way, one transaction: revoke, and unless the notices are switched off, queue the
   notice and stop the grant. Building the event may fail and undo everything.
   */
  ghost function Refunded(hash: Hasher, db: Database, id: string, notify: bool, claimedToo: bool, settledAt: int, now: int)
    : Database
  {
    if !Revocable(db, id, claimedToo) then db
    else
      var revoked := RevokedBy(db, id, settledAt, now);
      if !notify || !HasGranted(db.outbox, id) then revoked
      else
        var row := RefundRow(db, id, settledAt, now);
        var d := DecideRevocation(row, true);
        match d
        case RevokeOnly => revoked
        case NeedsReview =>
          revoked.(outbox := Supersede(db.outbox, id), reviews := db.reviews + {(id, RecipientUnresolved)})
        case RevokeAndNotify(_, _, _) =>
          match PlanRevocation(hash, row, d)
          case Err(_) => db
          case Ok(p) =>
            var (queued, outcome) := Enqueue(db.outbox, id, p);
            revoked.(outbox := Supersede(queued, id),
                     reviews := if outcome.Conflict? then db.reviews + {(id, PayloadConflict)} else db.reviews)
  }

  // --- interleavings --------------------------------------------------------------------

  datatype PassPhase = AtRow | Stopped(plan: Plan) | Over

  /** A repair pass of either program: the rows it listed, and how far it is. */
  datatype Pass = Pass(rows: seq<MissingRow>, next: nat, phase: PassPhase)

  /** `escaped`: granted events that were in delivery at the moment they should have been stopped. */
  datatype World = World(db: Database, passes: seq<Pass>, escaped: set<string>)

  datatype Event =
    | Issue(id: string, orderId: string, orderLineId: string, artworkId: string, now: int)
    | Claim(id: string, commonUserId: string, generatedId: string, grant: Option<OutboxRow>, now: int)
    | Expire(id: string, now: int)
    | Refund(id: string, notify: bool, claimedToo: bool, settledAt: int, now: int)
    | OtherRefund(orderId: string, settledAt: int)
    | PickUp(event: string)
    | Arrived(event: string)
    | AttemptFailed(event: string, next: RowStatus)
    | Reclaim(event: string)
    | Requeue(event: string)
    | BeginPass(limit: nat, rows: seq<MissingRow>)
    | Repair(who: nat)
    | Queue(who: nat)
    | Crash(who: nat)

  function Start(): World {
    World(Database(map[], map[], map[], {}), [], {})
  }

  /** The delivery worker and the operator move one row from one of some states to another. */
  function Shifted(w: World, event: string, from: set<RowStatus>, to: RowStatus): World {
    if event in w.db.outbox && w.db.outbox[event].status in from
    then w.(db := w.db.(outbox := w.db.outbox[event := w.db.outbox[event].(status := to)]))
    else w
  }

  function InDelivery(outbox: Outbox, id: string): set<string> {
    set event | event in outbox && IsGranted(outbox, event, id) && outbox[event].status.Processing?
  }

  /** The first half of repairing a row: decide, and stop the grant before anything is queued. */
  function StepRepair(hash: Hasher, w: World, who: nat): World
    requires who < |w.passes| && w.passes[who].phase.AtRow? && w.passes[who].next < |w.passes[who].rows|
  {
    var pass := w.passes[who];
    var row := pass.rows[pass.next];
    var d := DecideRevocation(row, true);
    match d
    case RevokeOnly => w.(passes := w.passes[who := pass.(next := pass.next + 1)])
    case NeedsReview =>
      w.(db := w.db.(reviews := w.db.reviews + {(row.entitlementId, RecipientUnresolved)}),
         passes := w.passes[who := pass.(next := pass.next + 1)])
    case RevokeAndNotify(_, _, _) =>
      var stopped := w.(db := w.db.(outbox := Supersede(w.db.outbox, row.entitlementId)),
                        escaped := w.escaped + InDelivery(w.db.outbox, row.entitlementId));
      match PlanRevocation(hash, row, d)
      case Err(_) => stopped.(passes := w.passes[who := pass.(phase := Over)])
      case Ok(plan) => stopped.(passes := w.passes[who := pass.(phase := Stopped(plan))])
  }

  /** The second half: queue the notice. */
  function StepQueue(w: World, who: nat): World
    requires who < |w.passes| && w.passes[who].phase.Stopped? && w.passes[who].next < |w.passes[who].rows|
  {
    var pass := w.passes[who];
    var row := pass.rows[pass.next];
    var (outbox, outcome) := Enqueue(w.db.outbox, row.entitlementId, pass.phase.plan);
    var reviews := if outcome.Conflict? then w.db.reviews + {(row.entitlementId, PayloadConflict)} else w.db.reviews;
    w.(db := w.db.(outbox := outbox, reviews := reviews),
       passes := w.passes[who := pass.(next := pass.next + 1, phase := AtRow)])
  }

  /** A claim: from `issued` only, with or without the grant in the same transaction. */
  function Claiming(w: World, e: Event): World
    requires e.Claim?
  {
    var event := "evt_" + e.generatedId;
    if e.id !in w.db.entitlements || !w.db.entitlements[e.id].status.Issued? || !IsUuid(e.generatedId) then w
    else
      var claimed := w.db.entitlements[e.id].(status := Claimed, claimedBy := Some(e.commonUserId), updatedAt := e.now);
      var db := w.db.(entitlements := w.db.entitlements[e.id := claimed]);
      match e.grant
      case None => w.(db := db)
      case Some(row) =>
        if event in w.db.outbox then w
        else w.(db := db.(outbox := w.db.outbox[
                            event := row.(eventType := GrantedEvent, entitlementId := e.id, status := Pending)]))
  }

  ghost predicate Enabled(w: World, e: Event) {
    match e
    case BeginPass(limit, rows) => IsListing(w.db, limit, rows)
    case Repair(who) => who < |w.passes| && w.passes[who].phase.AtRow? && w.passes[who].next < |w.passes[who].rows|
    case Queue(who) => who < |w.passes| && w.passes[who].phase.Stopped? && w.passes[who].next < |w.passes[who].rows|
    case Crash(who) => who < |w.passes|
    case _ => true
  }

  ghost function Next(hash: Hasher, w: World, e: Event): World {
    if !Enabled(w, e) then w
    else match e
      case Issue(id, orderId, orderLineId, artworkId, now) =>
        if id in w.db.entitlements || !IsUuid(orderId) then w
        else w.(db := w.db.(entitlements := w.db.entitlements[
                              id := Entitlement(orderId, orderLineId, artworkId, Issued, None, now)]))
      case Claim(_, _, _, _, _) => Claiming(w, e)
      case Expire(id, now) =>
        if id in w.db.entitlements && w.db.entitlements[id].status.Issued?
        then w.(db := w.db.(entitlements := w.db.entitlements[
                              id := w.db.entitlements[id].(status := Expired, updatedAt := now)]))
        else w
      case Refund(id, notify, claimedToo, settledAt, now) =>
        var db := Refunded(hash, w.db, id, notify, claimedToo, settledAt, now);
        if db.outbox == w.db.outbox then w.(db := db)
        else w.(db := db, escaped := w.escaped + InDelivery(w.db.outbox, id))
      case OtherRefund(orderId, settledAt) => w.(db := WithRefund(w.db, orderId, settledAt))
      case PickUp(event) => Shifted(w, event, {Pending}, Processing)
      case Arrived(event) => Shifted(w, event, {Processing}, Delivered)
      case AttemptFailed(event, next) =>
        if next.Pending? || next.Failed? || next.Dead? then Shifted(w, event, {Processing}, next) else w
      case Reclaim(event) => Shifted(w, event, {Processing}, Pending)
      case Requeue(event) => Shifted(w, event, {Failed, Dead}, Pending)
      case BeginPass(limit, rows) => w.(passes := w.passes + [Pass(rows, 0, AtRow)])
      case Repair(who) => StepRepair(hash, w, who)
      case Queue(who) => StepQueue(w, who)
      case Crash(who) => w.(passes := w.passes[who := w.passes[who].(phase := Over)])
  }

  ghost function Run(hash: Hasher, w: World, es: seq<Event>): World
    decreases |es|
  {
    if es == [] then w else Run(hash, Next(hash, w, es[0]), es[1..])
  }

  // --- what every run keeps -------------------------------------------------------------

  ghost predicate RowShape(db: Database, event: string)
    requires event in db.outbox
  {
    var row := db.outbox[event];
    && row.entitlementId in db.entitlements
    && var status := db.entitlements[row.entitlementId].status;
       if row.eventType.RevokedEvent? then status.Revoked? && event == RevocationEventId(row.entitlementId)
       else (status.Claimed? || status.Revoked?) && !("evt_rvk_" <= event)
  }

  ghost predicate Shape(db: Database) {
    && (forall event :: event in db.outbox ==> RowShape(db, event))
    && OneGranted(db.outbox)
    && (forall id :: id in db.entitlements ==> IsUuid(db.entitlements[id].orderId))
  }

  /** Every grant of this entitlement is stopped or delivered, or was in delivery when it was to be stopped. */
  ghost predicate Sealed(outbox: Outbox, escaped: set<string>, id: string) {
    forall event :: event in outbox && IsGranted(outbox, event, id) ==>
      outbox[event].status.Superseded? || outbox[event].status.Delivered? || event in escaped
  }

  ghost predicate PassOk(db: Database, escaped: set<string>, pass: Pass) {
    && pass.next <= |pass.rows|
    && (forall i :: 0 <= i < |pass.rows| ==>
          pass.rows[i].entitlementId in db.entitlements && db.entitlements[pass.rows[i].entitlementId].status.Revoked?)
    && (pass.phase.Stopped? ==>
          pass.next < |pass.rows| && Sealed(db.outbox, escaped, pass.rows[pass.next].entitlementId)
          && pass.phase.plan.eventId == RevocationEventId(pass.rows[pass.next].entitlementId))
  }

  ghost predicate Inv(w: World) {
    && Shape(w.db)
    && (forall id :: HasRevoked(w.db.outbox, id) ==> Sealed(w.db.outbox, w.escaped, id))
    && (forall i :: 0 <= i < |w.passes| ==> PassOk(w.db, w.escaped, w.passes[i]))
  }

  /** A revoked entitlement is never touched again. */
  ghost predicate RevokedStay(db: Database, db': Database) {
    forall id :: id in db.entitlements && db.entitlements[id].status.Revoked? ==>
      id in db'.entitlements && db'.entitlements[id] == db.entitlements[id]
  }

  /** What is sealed stays sealed. */
  ghost predicate SealsStay(w: World, w': World) {
    forall id :: id in w.db.entitlements && w.db.entitlements[id].status.Revoked? && Sealed(w.db.outbox, w.escaped, id) ==>
      Sealed(w'.db.outbox, w'.escaped, id)
  }

  lemma HasRevokedMeansRevoked(db: Database, id: string)
    requires Shape(db) && HasRevoked(db.outbox, id)
    ensures id in db.entitlements && db.entitlements[id].status.Revoked? && RevocationEventId(id) in db.outbox
    ensures db.outbox[RevocationEventId(id)].eventType.RevokedEvent? && db.outbox[RevocationEventId(id)].entitlementId == id
  {
    var event :| event in db.outbox && db.outbox[event].eventType.RevokedEvent? && db.outbox[event].entitlementId == id;
    assert RowShape(db, event);
  }

  lemma MoveKeepsInv(w: World, w': World)
    requires Inv(w) && Shape(w'.db) && w'.passes == w.passes
    requires RevokedStay(w.db, w'.db) && SealsStay(w, w')
    requires forall id :: HasRevoked(w'.db.outbox, id) && !HasRevoked(w.db.outbox, id) ==>
               Sealed(w'.db.outbox, w'.escaped, id)
    ensures Inv(w')
  {
    forall id | HasRevoked(w'.db.outbox, id)
      ensures Sealed(w'.db.outbox, w'.escaped, id)
    {
      if HasRevoked(w.db.outbox, id) {
        HasRevokedMeansRevoked(w.db, id);
      }
    }
    forall i | 0 <= i < |w'.passes|
      ensures PassOk(w'.db, w'.escaped, w'.passes[i])
    {
      assert PassOk(w.db, w.escaped, w.passes[i]);
    }
  }

  /** Rows keep everything but their status, and a stopped or delivered row keeps that too. */
  ghost predicate OnlyStatuses(o: Outbox, o': Outbox) {
    && o'.Keys == o.Keys
    && forall event :: event in o ==>
         o'[event].(status := o[event].status) == o[event]
         && (o[event].status.Superseded? || o[event].status.Delivered? ==> o'[event].status == o[event].status)
  }

  lemma StatusesKeepShape(db: Database, outbox: Outbox)
    requires Shape(db) && OnlyStatuses(db.outbox, outbox)
    ensures Shape(db.(outbox := outbox))
  {
    forall event | event in outbox
      ensures RowShape(db.(outbox := outbox), event)
    {
      assert RowShape(db, event);
    }
  }

  lemma StatusesKeepKinds(o: Outbox, o': Outbox, id: string)
    requires OnlyStatuses(o, o')
    ensures HasRevoked(o', id) == HasRevoked(o, id) && HasGranted(o', id) == HasGranted(o, id)
    ensures forall event :: IsGranted(o', event, id) == IsGranted(o, event, id)
  {
    if HasRevoked(o, id) {
      var event :| event in o && o[event].eventType.RevokedEvent? && o[event].entitlementId == id;
      assert event in o' && o'[event].eventType.RevokedEvent? && o'[event].entitlementId == id;
    }
    if HasRevoked(o', id) {
      var event :| event in o' && o'[event].eventType.RevokedEvent? && o'[event].entitlementId == id;
      assert event in o && o[event].eventType.RevokedEvent? && o[event].entitlementId == id;
    }
  }

  lemma StatusMoveKeepsInv(w: World, w': World)
    requires Inv(w) && w' == w.(db := w.db.(outbox := w'.db.outbox), escaped := w'.escaped)
    requires OnlyStatuses(w.db.outbox, w'.db.outbox) && w.escaped <= w'.escaped
    ensures Inv(w')
  {
    StatusesKeepShape(w.db, w'.db.outbox);
    forall id
      ensures HasRevoked(w'.db.outbox, id) == HasRevoked(w.db.outbox, id)
    {
      StatusesKeepKinds(w.db.outbox, w'.db.outbox, id);
    }
    MoveKeepsInv(w, w');
  }

  lemma ShiftKeepsInv(w: World, event: string, from: set<RowStatus>, to: RowStatus)
    requires Inv(w) && Superseded !in from && Delivered !in from
    ensures Inv(Shifted(w, event, from, to))
  {
    StatusMoveKeepsInv(w, Shifted(w, event, from, to));
  }

  lemma SupersedeSeals(outbox: Outbox, escaped: set<string>, id: string)
    ensures OnlyStatuses(outbox, Supersede(outbox, id))
    ensures Sealed(Supersede(outbox, id), escaped + InDelivery(outbox, id), id)
  {
  }

  lemma UuidIsNoRevocation(generatedId: string)
    requires IsUuid(generatedId)
    ensures !("evt_rvk_" <= "evt_" + generatedId)
  {
    assert IsUuidChar(generatedId[0]) && ("evt_" + generatedId)[4] == generatedId[0];
  }

  /** A granted row for an entitlement that had none and is not revoked. */
  lemma GrantKeepsRest(o: Outbox, event: string, row: OutboxRow)
    requires event !in o && row.eventType.GrantedEvent?
    ensures var o' := o[event := row];
            && (forall id :: HasRevoked(o', id) == HasRevoked(o, id))
            && (forall ev, id | id != row.entitlementId :: IsGranted(o', ev, id) == IsGranted(o, ev, id))
  {
    var o' := o[event := row];
    forall id
      ensures HasRevoked(o', id) == HasRevoked(o, id)
    {
      if HasRevoked(o, id) {
        var ev :| ev in o && o[ev].eventType.RevokedEvent? && o[ev].entitlementId == id;
        assert ev in o' && o'[ev] == o[ev];
      }
      if HasRevoked(o', id) {
        var ev :| ev in o' && o'[ev].eventType.RevokedEvent? && o'[ev].entitlementId == id;
        assert ev in o && o'[ev] == o[ev];
      }
    }
  }

  lemma GrantKeepsShape(db: Database, id: string, claimed: Entitlement, event: string, row: OutboxRow)
    requires Shape(db) && id in db.entitlements && db.entitlements[id].status.Issued?
    requires claimed.status.Claimed? && claimed.orderId == db.entitlements[id].orderId
    requires event !in db.outbox && !("evt_rvk_" <= event) && row.eventType.GrantedEvent? && row.entitlementId == id
    ensures Shape(db.(entitlements := db.entitlements[id := claimed], outbox := db.outbox[event := row]))
  {
    var db' := db.(entitlements := db.entitlements[id := claimed], outbox := db.outbox[event := row]);
    forall ev | ev in db'.outbox
      ensures RowShape(db', ev)
    {
      assert ev in db.outbox ==> RowShape(db, ev);
    }
    forall a, b | a in db'.outbox && b in db'.outbox && db'.outbox[a].entitlementId == db'.outbox[b].entitlementId
                  && db'.outbox[a].eventType.GrantedEvent? && db'.outbox[b].eventType.GrantedEvent?
      ensures a == b
    {
      assert a in db.outbox ==> RowShape(db, a);
      assert b in db.outbox ==> RowShape(db, b);
    }
  }

  lemma ClaimKeepsInv(w: World, e: Event)
    requires Inv(w) && e.Claim?
    ensures Inv(Claiming(w, e))
  {
    var w' := Claiming(w, e);
    if w' != w {
      var event := "evt_" + e.generatedId;
      if e.grant.Some? {
        UuidIsNoRevocation(e.generatedId);
        var row := w'.db.outbox[event];
        GrantKeepsShape(w.db, e.id, w'.db.entitlements[e.id], event, row);
        GrantKeepsRest(w.db.outbox, event, row);
        MoveKeepsInv(w, w');
      } else {
        EntitlementMoveKeepsInv(w, w');
      }
    }
  }

  /** A change of entitlements and settlements alone. */
  lemma EntitlementMoveKeepsInv(w: World, w': World)
    requires Inv(w) && w'.passes == w.passes && w'.escaped == w.escaped && w'.db.outbox == w.db.outbox
    requires RevokedStay(w.db, w'.db)
    requires forall id :: id in w.db.entitlements && w.db.entitlements[id].status.Claimed? ==>
               id in w'.db.entitlements && (w'.db.entitlements[id].status.Claimed? || w'.db.entitlements[id].status.Revoked?)
    requires forall id :: id in w'.db.entitlements ==> IsUuid(w'.db.entitlements[id].orderId)
    ensures Inv(w')
  {
    forall event | event in w'.db.outbox
      ensures RowShape(w'.db, event)
    {
      assert RowShape(w.db, event);
    }
    MoveKeepsInv(w, w');
  }

  lemma QueueGrows(db: Database, id: string, p: Plan)
    requires Shape(db) && id in db.entitlements && db.entitlements[id].status.Revoked? && p.eventId == RevocationEventId(id)
    ensures var o := Enqueue(db.outbox, id, p).0;
            && Shape(db.(outbox := o))
            && HasRevoked(o, id)
            && (forall event, other :: IsGranted(o, event, other) == IsGranted(db.outbox, event, other))
            && (forall event :: event in db.outbox ==> event in o && o[event] == db.outbox[event])
            && (forall other :: other != id ==> HasRevoked(o, other) == HasRevoked(db.outbox, other))
  {
    var o := Enqueue(db.outbox, id, p).0;
    forall event | event in o
      ensures RowShape(db.(outbox := o), event)
    {
      assert event in db.outbox ==> RowShape(db, event);
    }
    assert "evt_rvk_" <= p.eventId;
    assert p.eventId in db.outbox ==> RowShape(db, p.eventId);
    if p.eventId in db.outbox {
      RevocationIdsDiffer(db, id, p.eventId);
    }
    assert o[p.eventId].eventType.RevokedEvent? && o[p.eventId].entitlementId == id;
    forall other | other != id
      ensures HasRevoked(o, other) == HasRevoked(db.outbox, other)
    {
      if HasRevoked(db.outbox, other) {
        var event :| event in db.outbox && db.outbox[event].eventType.RevokedEvent? && db.outbox[event].entitlementId == other;
        assert event in o && o[event] == db.outbox[event];
      }
      if HasRevoked(o, other) {
        var event :| event in o && o[event].eventType.RevokedEvent? && o[event].entitlementId == other;
        assert event in db.outbox;
      }
    }
  }

  /** The row behind a revocation id belongs to that entitlement. */
  lemma RevocationIdsDiffer(db: Database, id: string, event: string)
    requires Shape(db) && event == RevocationEventId(id) && event in db.outbox
    ensures db.outbox[event].eventType.RevokedEvent? && db.outbox[event].entitlementId == id
  {
    assert RowShape(db, event) && "evt_rvk_" <= event;
    var other := db.outbox[event].entitlementId;
    assert RevocationEventId(other)[8..] == other && RevocationEventId(id)[8..] == id;
  }

  lemma QueueKeepsInv(w: World, who: nat)
    requires Inv(w) && who < |w.passes| && w.passes[who].phase.Stopped? && w.passes[who].next < |w.passes[who].rows|
    ensures Inv(StepQueue(w, who))
  {
    var pass := w.passes[who];
    assert PassOk(w.db, w.escaped, pass);
    var id := pass.rows[pass.next].entitlementId;
    QueueGrows(w.db, id, pass.phase.plan);
    var o := Enqueue(w.db.outbox, id, pass.phase.plan).0;
    var queued := w.(db := w.db.(outbox := o));
    MoveKeepsInv(w, queued);
    PassMoveKeepsInv(queued, StepQueue(w, who), who);
  }

  lemma PassMoveKeepsInv(w: World, w': World, who: nat)
    requires Inv(w) && w'.escaped == w.escaped && w'.db.(reviews := w.db.reviews) == w.db
    requires who < |w.passes| && |w'.passes| == |w.passes| && w'.passes == w.passes[who := w'.passes[who]]
    requires PassOk(w'.db, w'.escaped, w'.passes[who])
    ensures Inv(w')
  {
    forall event | event in w'.db.outbox
      ensures RowShape(w'.db, event)
    {
      assert RowShape(w.db, event);
    }
    forall i | 0 <= i < |w'.passes|
      ensures PassOk(w'.db, w'.escaped, w'.passes[i])
    {
      assert PassOk(w.db, w.escaped, w.passes[i]);
    }
  }

  lemma RepairKeepsInv(hash: Hasher, w: World, who: nat)
    requires Inv(w) && who < |w.passes| && w.passes[who].phase.AtRow? && w.passes[who].next < |w.passes[who].rows|
    ensures Inv(StepRepair(hash, w, who))
  {
    var pass := w.passes[who];
    assert PassOk(w.db, w.escaped, pass);
    var row := pass.rows[pass.next];
    var id := row.entitlementId;
    if DecideRevocation(row, true).RevokeAndNotify? {
      SupersedeSeals(w.db.outbox, w.escaped, id);
      var stopped := w.(db := w.db.(outbox := Supersede(w.db.outbox, id)), escaped := w.escaped + InDelivery(w.db.outbox, id));
      StatusMoveKeepsInv(w, stopped);
      PassMoveKeepsInv(stopped, StepRepair(hash, w, who), who);
    } else {
      PassMoveKeepsInv(w, StepRepair(hash, w, who), who);
    }
  }

  /** The entitlements move as a refund moves them; its outbox is the one before, stopped, or stopped and queued. */
  ghost predicate RefundedOutbox(o: Outbox, o': Outbox, id: string) {
    || o' == Supersede(o, id)
    || exists p: Plan :: p.eventId == RevocationEventId(id) && o' == Enqueue(Supersede(o, id), id, p).0
  }

  ghost predicate RefundedEntitlements(db: Database, db': Database) {
    && RevokedStay(db, db')
    && (forall id :: id in db.entitlements && db.entitlements[id].status.Claimed? ==>
          id in db'.entitlements && (db'.entitlements[id].status.Claimed? || db'.entitlements[id].status.Revoked?))
    && (forall id :: id in db'.entitlements ==>
          id in db.entitlements && db'.entitlements[id].orderId == db.entitlements[id].orderId)
  }

  lemma StoppingKeepsInv(w: World, w': World, id: string)
    requires Inv(w) && w'.passes == w.passes && w'.db == w.db.(outbox := w'.db.outbox)
    requires w'.escaped == w.escaped + InDelivery(w.db.outbox, id)
    requires id in w.db.entitlements && w.db.entitlements[id].status.Revoked? && RefundedOutbox(w.db.outbox, w'.db.outbox, id)
    ensures Inv(w')
  {
    SupersedeSeals(w.db.outbox, w.escaped, id);
    var stopped := w.(db := w.db.(outbox := Supersede(w.db.outbox, id)), escaped := w'.escaped);
    StatusMoveKeepsInv(w, stopped);
    if w'.db.outbox != stopped.db.outbox {
      var p: Plan :| p.eventId == RevocationEventId(id) && w'.db.outbox == Enqueue(stopped.db.outbox, id, p).0;
      QueueGrows(stopped.db, id, p);
      MoveKeepsInv(stopped, w');
    } else {
      assert w' == stopped;
    }
  }

  /** The direct way leaves the entitlement's grants sealed whenever it queues a notice. */
  lemma RefundKeepsInv(hash: Hasher, w: World, e: Event)
    requires Inv(w) && e.Refund?
    ensures Inv(Next(hash, w, e))
  {
    var w' := Next(hash, w, e);
    RefundMoves(hash, w.db, e);
    var revoked := w.(db := w'.db.(outbox := w.db.outbox));
    EntitlementMoveKeepsInv(w, revoked);
    if w'.db.outbox == w.db.outbox {
      assert w' == revoked;
    } else {
      StoppingKeepsInv(revoked, w', e.id);
    }
  }

  /** Queueing before stopping comes to the same as stopping before queueing, inside one transaction. */
  lemma StopThenQueueIsTheSame(o: Outbox, id: string, p: Plan)
    ensures Supersede(Enqueue(o, id, p).0, id) == Enqueue(Supersede(o, id), id, p).0
    ensures Enqueue(o, id, p).1 == Enqueue(Supersede(o, id), id, p).1
  {
    if p.eventId !in o {
      assert Supersede(Enqueue(o, id, p).0, id).Keys == Enqueue(Supersede(o, id), id, p).0.Keys;
    }
  }

  lemma RevokingMoves(db: Database, id: string, claimedToo: bool, settledAt: int, now: int)
    requires Revocable(db, id, claimedToo)
    ensures var db' := RevokedBy(db, id, settledAt, now);
            RefundedEntitlements(db, db') && db'.outbox == db.outbox && db'.entitlements[id].status.Revoked?
  {
  }

  /** A refund either changes nothing, or revokes; and what else it changes is outbox and reviews. */
  lemma RefundRevokes(hash: Hasher, db: Database, e: Event)
    requires e.Refund?
    ensures var db' := Refunded(hash, db, e.id, e.notify, e.claimedToo, e.settledAt, e.now);
            || db' == db
            || (Revocable(db, e.id, e.claimedToo)
                && db' == RevokedBy(db, e.id, e.settledAt, e.now).(outbox := db'.outbox, reviews := db'.reviews))
  {
  }

  lemma RefundStops(hash: Hasher, db: Database, e: Event)
    requires e.Refund?
    ensures var db' := Refunded(hash, db, e.id, e.notify, e.claimedToo, e.settledAt, e.now);
            db'.outbox == db.outbox || (db' != db && RefundedOutbox(db.outbox, db'.outbox, e.id))
  {
    forall p: Plan {
      StopThenQueueIsTheSame(db.outbox, e.id, p);
    }
  }

  lemma RefundMoves(hash: Hasher, db: Database, e: Event)
    requires e.Refund?
    ensures var db' := Refunded(hash, db, e.id, e.notify, e.claimedToo, e.settledAt, e.now);
            && RefundedEntitlements(db, db')
            && (db'.outbox == db.outbox
                || (e.id in db'.entitlements && db'.entitlements[e.id].status.Revoked?
                    && RefundedOutbox(db.outbox, db'.outbox, e.id)))
  {
    RefundRevokes(hash, db, e);
    RefundStops(hash, db, e);
    if Revocable(db, e.id, e.claimedToo) {
      RevokingMoves(db, e.id, e.claimedToo, e.settledAt, e.now);
    }
  }

  lemma ListingKeepsInv(w: World, limit: nat, rows: seq<MissingRow>)
    requires Inv(w) && IsListing(w.db, limit, rows)
    ensures Inv(w.(passes := w.passes + [Pass(rows, 0, AtRow)]))
  {
    var w' := w.(passes := w.passes + [Pass(rows, 0, AtRow)]);
    forall i | 0 <= i < |w'.passes|
      ensures PassOk(w'.db, w'.escaped, w'.passes[i])
    {
      if i < |w.passes| {
        assert PassOk(w.db, w.escaped, w.passes[i]);
      } else {
        assert forall j :: 0 <= j < |rows| ==> rows[j].entitlementId in MissingIds(w.db);
      }
    }
  }

  lemma CrashKeepsInv(w: World, who: nat)
    requires Inv(w) && who < |w.passes|
    ensures Inv(w.(passes := w.passes[who := w.passes[who].(phase := Over)]))
  {
    assert PassOk(w.db, w.escaped, w.passes[who]);
    PassMoveKeepsInv(w, w.(passes := w.passes[who := w.passes[who].(phase := Over)]), who);
  }

  predicate IsWorkerStep(e: Event) {
    e.PickUp? || e.Arrived? || e.AttemptFailed? || e.Reclaim? || e.Requeue?
  }

  lemma WorkerKeepsInv(hash: Hasher, w: World, e: Event)
    requires Inv(w) && IsWorkerStep(e)
    ensures Inv(Next(hash, w, e))
  {
    match e
    case PickUp(event) => ShiftKeepsInv(w, event, {Pending}, Processing);
    case Arrived(event) => ShiftKeepsInv(w, event, {Processing}, Delivered);
    case AttemptFailed(event, next) => ShiftKeepsInv(w, event, {Processing}, next);
    case Reclaim(event) => ShiftKeepsInv(w, event, {Processing}, Pending);
    case Requeue(event) => ShiftKeepsInv(w, event, {Failed, Dead}, Pending);
  }

  lemma StepKeepsInv(hash: Hasher, w: World, e: Event)
    requires Inv(w)
    ensures Inv(Next(hash, w, e))
  {
    if IsWorkerStep(e) {
      WorkerKeepsInv(hash, w, e);
    } else if Enabled(w, e) {
      match e
      case Claim(_, _, _, _, _) => ClaimKeepsInv(w, e);
      case Refund(_, _, _, _, _) => RefundKeepsInv(hash, w, e);
      case BeginPass(limit, rows) => ListingKeepsInv(w, limit, rows);
      case Repair(who) => RepairKeepsInv(hash, w, who);
      case Queue(who) => QueueKeepsInv(w, who);
      case Crash(who) => CrashKeepsInv(w, who);
      case _ => EntitlementMoveKeepsInv(w, Next(hash, w, e));
    }
  }

  lemma {:induction false} RunKeepsInv(hash: Hasher, w: World, es: seq<Event>)
    requires Inv(w)
    ensures Inv(Run(hash, w, es))
    decreases |es|
  {
    if es != [] {
      StepKeepsInv(hash, w, es[0]);
      RunKeepsInv(hash, Next(hash, w, es[0]), es[1..]);
    }
  }

  // --- no grant is sent after its revocation --------------------------------------------

  /**
   Whatever crashes and however passes, refunds and deliveries interleave: a grant that could
   still be sent although its revocation is queued was in delivery when it was to be stopped.
   An entitlement has one revocation, under the id made from its own.
   */
  lemma OnlyEscapedGrantsOutlive(hash: Hasher, es: seq<Event>, event: string, id: string)
    ensures var w := Run(hash, Start(), es);
            && (HasRevoked(w.db.outbox, id) && IsGranted(w.db.outbox, event, id)
                && (w.db.outbox[event].status.Pending? || w.db.outbox[event].status.Failed? || w.db.outbox[event].status.Dead?)
                ==> event in w.escaped)
            && (event in w.db.outbox && w.db.outbox[event].eventType.RevokedEvent? && w.db.outbox[event].entitlementId == id
                ==> event == RevocationEventId(id) && id in w.db.entitlements && w.db.entitlements[id].status.Revoked?)
  {
    RunKeepsInv(hash, Start(), es);
    var w := Run(hash, Start(), es);
    assert event in w.db.outbox ==> RowShape(w.db, event);
  }

  predicate ReturnsToPending(e: Event) {
    e.Reclaim? || e.Requeue? || (e.AttemptFailed? && e.next.Pending?)
  }

  /** What a step that returns nothing to pending does to the rows, and which rows it lets escape. */
  ghost predicate NothingReturns(w: World, w': World) {
    && (forall event :: event in w.db.outbox ==>
          event in w'.db.outbox && (w'.db.outbox[event].status.Pending? ==> w.db.outbox[event].status.Pending?))
    && (forall event :: event in w'.escaped ==>
          event in w.escaped || (event in w.db.outbox && w.db.outbox[event].status.Processing?))
  }

  lemma StoppingReturnsNothing(w: World, w': World, id: string)
    requires RefundedOutbox(w.db.outbox, w'.db.outbox, id) && w'.escaped == w.escaped + InDelivery(w.db.outbox, id)
    ensures NothingReturns(w, w')
  {
  }

  lemma RefundReturnsNothing(hash: Hasher, w: World, e: Event)
    requires e.Refund?
    ensures NothingReturns(w, Next(hash, w, e))
  {
    RefundMoves(hash, w.db, e);
    var w' := Next(hash, w, e);
    if w'.db.outbox != w.db.outbox {
      StoppingReturnsNothing(w, w', e.id);
    }
  }

  lemma RepairReturnsNothing(hash: Hasher, w: World, who: nat)
    requires who < |w.passes| && w.passes[who].phase.AtRow? && w.passes[who].next < |w.passes[who].rows|
    ensures NothingReturns(w, StepRepair(hash, w, who))
  {
    var w' := StepRepair(hash, w, who);
    var id := w.passes[who].rows[w.passes[who].next].entitlementId;
    if w'.db.outbox == Supersede(w.db.outbox, id) && w'.escaped == w.escaped + InDelivery(w.db.outbox, id) {
      StoppingReturnsNothing(w, w', id);
    }
  }

  lemma StepReturnsNothing(hash: Hasher, w: World, e: Event)
    requires !ReturnsToPending(e)
    ensures NothingReturns(w, Next(hash, w, e))
  {
    if e.Refund? {
      RefundReturnsNothing(hash, w, e);
    } else if e.Repair? && Enabled(w, e) {
      RepairReturnsNothing(hash, w, e.who);
    }
  }

  ghost predicate EscapedNotPending(w: World) {
    forall event :: event in w.escaped ==> event in w.db.outbox && !w.db.outbox[event].status.Pending?
  }

  lemma {:induction false} EscapedStayNotPending(hash: Hasher, w: World, es: seq<Event>)
    requires EscapedNotPending(w) && forall i :: 0 <= i < |es| ==> !ReturnsToPending(es[i])
    ensures EscapedNotPending(Run(hash, w, es))
    decreases |es|
  {
    if es != [] {
      StepReturnsNothing(hash, w, es[0]);
      EscapedStayNotPending(hash, Next(hash, w, es[0]), es[1..]);
    }
  }

  /** As long as no other step returns a row to pending, no pending grant stands behind a queued revocation. */
  lemma NoPendingGrantBehindRevocation(hash: Hasher, es: seq<Event>, event: string, id: string)
    requires forall i :: 0 <= i < |es| ==> !ReturnsToPending(es[i])
    ensures var o := Run(hash, Start(), es).db.outbox;
            HasRevoked(o, id) && IsGranted(o, event, id) ==> !o[event].status.Pending?
  {
    OnlyEscapedGrantsOutlive(hash, es, event, id);
    EscapedStayNotPending(hash, Start(), es);
  }

  // --- exactly which steps put a pending grant behind a revocation -----------------------

  ghost predicate NoPendingBehind(o: Outbox) {
    forall event, id :: HasRevoked(o, id) && IsGranted(o, event, id) ==> !o[event].status.Pending?
  }

  predicate PendingGrant(o: Outbox, id: string) {
    exists event :: event in o && IsGranted(o, event, id) && o[event].status.Pending?
  }

  /** A grant in one of these states, of an entitlement whose revocation is queued. */
  predicate GrantBehind(o: Outbox, event: string, from: set<RowStatus>) {
    event in o && o[event].eventType.GrantedEvent? && o[event].status in from && HasRevoked(o, o[event].entitlementId)
  }

  /** Returning such a grant to pending, or queueing a revocation while the grant has come back to pending. */
  ghost predicate PutsPendingBehind(w: World, e: Event) {
    match e
    case Reclaim(event) => GrantBehind(w.db.outbox, event, {Processing})
    case AttemptFailed(event, next) => next.Pending? && GrantBehind(w.db.outbox, event, {Processing})
    case Requeue(event) => GrantBehind(w.db.outbox, event, {Failed, Dead})
    case Queue(who) => Enabled(w, e) && PendingGrant(w.db.outbox, w.passes[who].rows[w.passes[who].next].entitlementId)
    case _ => false
  }

  lemma ShiftPutsBehind(w: World, event: string, from: set<RowStatus>, to: RowStatus)
    requires NoPendingBehind(w.db.outbox) && Superseded !in from && Delivered !in from
    ensures NoPendingBehind(Shifted(w, event, from, to).db.outbox)
            <==> !(to.Pending? && GrantBehind(w.db.outbox, event, from))
  {
    var o, o' := w.db.outbox, Shifted(w, event, from, to).db.outbox;
    forall id
      ensures HasRevoked(o', id) == HasRevoked(o, id)
      ensures forall ev :: IsGranted(o', ev, id) == IsGranted(o, ev, id)
    {
      StatusesKeepKinds(o, o', id);
    }
    if to.Pending? && GrantBehind(o, event, from) {
      assert IsGranted(o', event, o[event].entitlementId) && o'[event].status.Pending?;
    }
  }

  lemma EnqueueKinds(o: Outbox, id: string, p: Plan)
    ensures var o' := Enqueue(o, id, p).0;
            && (forall event, other :: IsGranted(o', event, other) == IsGranted(o, event, other))
            && (forall event :: event in o ==> event in o' && o'[event] == o[event])
            && (forall other :: HasRevoked(o', other) ==> other == id || HasRevoked(o, other))
  {
    var o' := Enqueue(o, id, p).0;
    forall other | HasRevoked(o', other) && other != id
      ensures HasRevoked(o, other)
    {
      var event :| event in o' && o'[event].eventType.RevokedEvent? && o'[event].entitlementId == other;
      assert event in o && o[event] == o'[event];
    }
  }

  lemma QueuePutsBehind(w: World, who: nat)
    requires Inv(w) && Enabled(w, Queue(who)) && NoPendingBehind(w.db.outbox)
    ensures NoPendingBehind(StepQueue(w, who).db.outbox)
            <==> !PendingGrant(w.db.outbox, w.passes[who].rows[w.passes[who].next].entitlementId)
  {
    var pass := w.passes[who];
    assert PassOk(w.db, w.escaped, pass);
    var o, o' := w.db.outbox, StepQueue(w, who).db.outbox;
    var id := pass.rows[pass.next].entitlementId;
    EnqueueKinds(o, id, pass.phase.plan);
    QueueGrows(w.db, id, pass.phase.plan);
    if PendingGrant(o, id) {
      var event :| event in o && IsGranted(o, event, id) && o[event].status.Pending?;
      assert HasRevoked(o', id) && IsGranted(o', event, id) && o'[event].status.Pending?;
    } else {
      forall event, other | HasRevoked(o', other) && IsGranted(o', event, other)
        ensures !o'[event].status.Pending?
      {
        assert IsGranted(o, event, other);
      }
    }
  }

  lemma StoppingPutsNothingBehind(o: Outbox, o': Outbox, id: string)
    requires NoPendingBehind(o) && RefundedOutbox(o, o', id)
    ensures NoPendingBehind(o')
  {
    var stopped := Supersede(o, id);
    forall other
      ensures HasRevoked(stopped, other) == HasRevoked(o, other)
      ensures forall event :: IsGranted(stopped, event, other) == IsGranted(o, event, other)
    {
      StatusesKeepKinds(o, stopped, other);
    }
    assert NoPendingBehind(stopped);
    if o' != stopped {
      var p: Plan :| p.eventId == RevocationEventId(id) && o' == Enqueue(stopped, id, p).0;
      EnqueueKinds(stopped, id, p);
      forall event, other | HasRevoked(o', other) && IsGranted(o', event, other)
        ensures !o'[event].status.Pending?
      {
        assert IsGranted(stopped, event, other);
      }
    }
  }

  lemma RefundPutsNothingBehind(hash: Hasher, w: World, e: Event)
    requires e.Refund? && NoPendingBehind(w.db.outbox)
    ensures NoPendingBehind(Next(hash, w, e).db.outbox)
  {
    RefundMoves(hash, w.db, e);
    var o' := Next(hash, w, e).db.outbox;
    if o' != w.db.outbox {
      StoppingPutsNothingBehind(w.db.outbox, o', e.id);
    }
  }

  lemma RepairPutsNothingBehind(hash: Hasher, w: World, who: nat)
    requires Enabled(w, Repair(who)) && NoPendingBehind(w.db.outbox)
    ensures NoPendingBehind(StepRepair(hash, w, who).db.outbox)
  {
    var id := w.passes[who].rows[w.passes[who].next].entitlementId;
    var o' := StepRepair(hash, w, who).db.outbox;
    assert o' == w.db.outbox || o' == Supersede(w.db.outbox, id);
    if o' != w.db.outbox {
      StoppingPutsNothingBehind(w.db.outbox, o', id);
    }
  }

  lemma ClaimPutsNothingBehind(w: World, e: Event)
    requires Inv(w) && e.Claim? && NoPendingBehind(w.db.outbox)
    ensures NoPendingBehind(Claiming(w, e).db.outbox)
  {
    var o, o' := w.db.outbox, Claiming(w, e).db.outbox;
    if o' != o {
      var event := "evt_" + e.generatedId;
      GrantKeepsRest(o, event, o'[event]);
      if HasRevoked(o, e.id) {
        HasRevokedMeansRevoked(w.db, e.id);
      }
      forall ev, id | HasRevoked(o', id) && IsGranted(o', ev, id)
        ensures !o'[ev].status.Pending?
      {
        assert HasRevoked(o, id) && id != e.id && IsGranted(o, ev, id);
      }
    }
  }

  lemma WorkerPutsBehind(hash: Hasher, w: World, e: Event)
    requires NoPendingBehind(w.db.outbox) && IsWorkerStep(e)
    ensures NoPendingBehind(Next(hash, w, e).db.outbox) <==> !PutsPendingBehind(w, e)
  {
    match e
    case PickUp(event) => ShiftPutsBehind(w, event, {Pending}, Processing);
    case Arrived(event) => ShiftPutsBehind(w, event, {Processing}, Delivered);
    case AttemptFailed(event, next) => ShiftPutsBehind(w, event, {Processing}, next);
    case Reclaim(event) => ShiftPutsBehind(w, event, {Processing}, Pending);
    case Requeue(event) => ShiftPutsBehind(w, event, {Failed, Dead}, Pending);
  }

  /** A step puts the first pending grant behind a queued revocation exactly if it is one of these four. */
  lemma PendingComesBehindExactlyBy(hash: Hasher, w: World, e: Event)
    requires Inv(w) && NoPendingBehind(w.db.outbox)
    ensures NoPendingBehind(Next(hash, w, e).db.outbox) <==> !PutsPendingBehind(w, e)
  {
    if IsWorkerStep(e) {
      WorkerPutsBehind(hash, w, e);
    } else if e.Claim? {
      ClaimPutsNothingBehind(w, e);
    } else if e.Refund? {
      RefundPutsNothingBehind(hash, w, e);
    } else if e.Repair? && Enabled(w, e) {
      RepairPutsNothingBehind(hash, w, e.who);
    } else if e.Queue? && Enabled(w, e) {
      QueuePutsBehind(w, e.who);
    }
  }

  ghost predicate NeverPendingBehind(hash: Hasher, w: World, es: seq<Event>)
    decreases |es|
  {
    NoPendingBehind(w.db.outbox) && (es == [] || NeverPendingBehind(hash, Next(hash, w, es[0]), es[1..]))
  }

  ghost predicate NothingPutBehind(hash: Hasher, w: World, es: seq<Event>)
    decreases |es|
  {
    es == [] || (!PutsPendingBehind(w, es[0]) && NothingPutBehind(hash, Next(hash, w, es[0]), es[1..]))
  }

  /** Over any run: no pending grant ever stands behind a queued revocation exactly when no step is one of those. */
  lemma {:induction false} NeverPendingBehindExactlyWhen(hash: Hasher, w: World, es: seq<Event>)
    requires Inv(w) && NoPendingBehind(w.db.outbox)
    ensures NeverPendingBehind(hash, w, es) <==> NothingPutBehind(hash, w, es)
    decreases |es|
  {
    if es != [] {
      PendingComesBehindExactlyBy(hash, w, es[0]);
      StepKeepsInv(hash, w, es[0]);
      if !PutsPendingBehind(w, es[0]) {
        NeverPendingBehindExactlyWhen(hash, Next(hash, w, es[0]), es[1..]);
      }
    }
  }

  lemma NotYetQueued(db: Database, id: string)
    requires Shape(db) && id in db.entitlements && !db.entitlements[id].status.Revoked?
    ensures RevocationEventId(id) !in db.outbox
  {
    if RevocationEventId(id) in db.outbox {
      RevocationIdsDiffer(db, id, RevocationEventId(id));
    }
  }

  /** Stopping touches the grants of this entitlement that are not under way or delivered, and no other row. */
  lemma StoppingWritesExactly(o: Outbox, id: string)
    ensures var o' := Supersede(o, id);
            && o'.Keys == o.Keys
            && (forall event :: event in o ==>
                  var row := o[event];
                  o'[event] == if row.entitlementId == id && row.eventType == GrantedEvent
                                  && (row.status == RowStatus.Pending || row.status == RowStatus.Failed || row.status == RowStatus.Dead)
                               then row.(status := RowStatus.Superseded) else row)
  {
  }

  /** What a refund writes beside the queue, and what it does where there is nobody to notify or nothing to tell. */
  lemma RefundWritesExactly(
    hash: Hasher, db: Database, id: string, notify: bool, claimedToo: bool, settledAt: int, now: int)
    requires Shape(db)
    ensures var db' := Refunded(hash, db, id, notify, claimedToo, settledAt, now);
            var revoked := id in db.entitlements && (db.entitlements[id].status == EntitlementStatus.Issued
                                                     || (claimedToo && db.entitlements[id].status == EntitlementStatus.Claimed));
            && (!revoked ==> db' == db)
            && (revoked ==>
                  var e := db.entitlements[id];
                  && db'.entitlements == db.entitlements[id := e.(status := EntitlementStatus.Revoked, updatedAt := now)]
                  && db'.settledAt == db.settledAt[
                       e.orderId := if e.orderId in db.settledAt && db.settledAt[e.orderId] < settledAt
                                    then db.settledAt[e.orderId] else settledAt]
                  && (!notify || !HasGranted(db.outbox, id) ==> db'.outbox == db.outbox && db'.reviews == db.reviews)
                  && (notify && HasGranted(db.outbox, id)
                      && !DecideRevocation(RefundRow(db, id, settledAt, now), true).RevokeAndNotify? ==>
                        db'.outbox == Supersede(db.outbox, id) && db'.reviews == db.reviews + {(id, RecipientUnresolved)}))
  {
    if Revocable(db, id, claimedToo) && HasGranted(db.outbox, id) {
      var row := RefundRow(db, id, settledAt, now);
      if DecideRevocation(row, true).RevokeAndNotify? {
        DecidedRowsCanBePlanned(hash, row);
      }
    }
  }

  /** A refund with notices on, of an entitlement with a granted event and a known recipient, queues its notice itself. */
  lemma RefundQueuesItsNotice(hash: Hasher, db: Database, id: string, claimedToo: bool, settledAt: int, now: int)
    requires Shape(db) && Revocable(db, id, claimedToo) && HasGranted(db.outbox, id)
    requires DecideRevocation(RefundRow(db, id, settledAt, now), true).RevokeAndNotify?
    ensures var db' := Refunded(hash, db, id, true, claimedToo, settledAt, now);
            var row := RefundRow(db, id, settledAt, now);
            var p := PlanRevocation(hash, row, DecideRevocation(row, true));
            && p.Ok? && RevocationEventId(id) !in db.outbox && RevocationEventId(id) in db'.outbox
            && db'.outbox[RevocationEventId(id)]
               == OutboxRow(RevokedEvent, id, Some(p.value.payload), p.value.payloadHash, p.value.correlationId, Pending)
            && p.value.payload.envelope.occurredAt == settledAt
            && (forall event :: event in db.outbox ==> event in db'.outbox && db'.outbox[event] == Supersede(db.outbox, id)[event])
            && db'.reviews == db.reviews
  {
    var row := RefundRow(db, id, settledAt, now);
    DecidedRowsCanBePlanned(hash, row);
    NotYetQueued(db, id);
  }

  /** The premise is needed: a grant in delivery during the refund is left behind its revocation. */
  lemma GrantInDeliveryEscapes(hash: Hasher, db: Database, id: string, claimedToo: bool, settledAt: int, now: int, event: string)
    requires Shape(db) && Revocable(db, id, claimedToo)
    requires IsGranted(db.outbox, event, id) && db.outbox[event].status.Processing?
    requires DecideRevocation(RefundRow(db, id, settledAt, now), true).RevokeAndNotify?
    ensures var o := Refunded(hash, db, id, true, claimedToo, settledAt, now).outbox;
            HasRevoked(o, id) && IsGranted(o, event, id) && o[event].status.Processing?
  {
    RefundQueuesItsNotice(hash, db, id, claimedToo, settledAt, now);
  }

  /** And such a grant goes back to pending as soon as the stale delivery is reclaimed. */
  lemma EscapedGrantComesBack(hash: Hasher, w: World, event: string, id: string)
    requires HasRevoked(w.db.outbox, id) && IsGranted(w.db.outbox, event, id) && w.db.outbox[event].status.Processing?
    ensures var o := Next(hash, w, Reclaim(event)).db.outbox;
            HasRevoked(o, id) && IsGranted(o, event, id) && o[event].status.Pending?
  {
    StatusesKeepKinds(w.db.outbox, Shifted(w, event, {Processing}, Pending).db.outbox, id);
  }
}
