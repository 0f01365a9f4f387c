/**
 One entitlement and the two ways it is claimed: the decisions made about it, the delivery
 event built for it, and the transaction that claims it and queues that event.
 */
module EntitlementClaim {
  import opened Wrappers
  import opened WalletEvents
  import opened Text

  datatype EntitlementStatus = Issued | Claimed | Expired | Revoked

  datatype DeliveryStatus = NotStarted | Waiting | Delivered

  datatype PublicStatus = PubPending | PubDeliveryPending | PubDelivered | PubExpired | PubRevoked

  datatype Snapshot = Snapshot(
    orderId: string, orderLineId: string, artworkId: string, serialNo: int,
    title: string, description: string, imageKey: Option<string>, imageHash: Option<string>)

  /** `purchaser` is the buyer's common user id once it is resolved; it is not stored on the row. */
  datatype Entitlement = Entitlement(
    accountId: string, tokenHash: string, status: EntitlementStatus, delivery: DeliveryStatus,
    expiresAt: Option<int>, purchaser: Option<string>, claimedBy: Option<string>, claimedAt: Option<int>,
    snapshot: Snapshot)

  datatype ClaimError =
    | TokenInvalid | ClaimRevoked | ClaimExpired | CommonUserMismatch | ClaimProcessing
    | EventInvalid | Unavailable

  function ToPublicStatus(status: EntitlementStatus, delivery: DeliveryStatus): PublicStatus {
    match status
    case Issued => PubPending
    case Claimed => if delivery.Delivered? then PubDelivered else PubDeliveryPending
    case Expired => PubExpired
    case Revoked => PubRevoked
  }

  // --- decisions ------------------------------------------------------------------------

  datatype Decision = MayClaim | PendingCommonUser | AlreadyClaimed(status: PublicStatus)

  predicate PastDue(e: Entitlement, now: int) {
    e.expiresAt.Some? && e.expiresAt.value <= now
  }

  function EvaluateWalletClaim(e: Entitlement, presented: string, now: int): Result<Decision, ClaimError> {
    if e.status.Revoked? then Err(ClaimRevoked)
    else if e.status.Expired? || PastDue(e, now) then Err(ClaimExpired)
    else if e.purchaser.None? then Ok(PendingCommonUser)
    else if e.purchaser.value != presented then Err(CommonUserMismatch)
    else if e.status.Claimed? then
      if e.claimedBy != Some(presented) then Err(CommonUserMismatch)
      else Ok(AlreadyClaimed(ToPublicStatus(e.status, e.delivery)))
    else Ok(MayClaim)
  }

  datatype SkipReason = WalletNotRegistered | AlreadyDelivered | NotDeliverable

  datatype AutoDecision = Deliver(commonUserId: string) | Skip(reason: SkipReason)

  function EvaluateAutoDelivery(e: Entitlement, now: int): AutoDecision {
    if e.purchaser.None? then Skip(WalletNotRegistered)
    else match EvaluateWalletClaim(e, e.purchaser.value, now)
      case Err(_) => Skip(NotDeliverable)
      case Ok(PendingCommonUser) => Skip(WalletNotRegistered)
      case Ok(AlreadyClaimed(_)) => Skip(AlreadyDelivered)
      case Ok(MayClaim) => Deliver(e.purchaser.value)
  }

  /**
   A claim may go ahead exactly for an unclaimed, unexpired entitlement whose resolved buyer is
   the one presented, whichever of the two ways asks; the machine's way presents the buyer.
   */
  lemma BothWaysAgree(e: Entitlement, presented: string, now: int)
    ensures EvaluateWalletClaim(e, presented, now) == Ok(MayClaim)
            <==> e.status.Issued? && !PastDue(e, now) && e.purchaser == Some(presented)
    ensures EvaluateAutoDelivery(e, now) == Deliver(presented)
            <==> EvaluateWalletClaim(e, presented, now) == Ok(MayClaim)
  {
  }

  /** "Already claimed" is answered only to the recorded claimer, with the state that was read. */
  lemma AlreadyClaimedIsTheClaimer(e: Entitlement, presented: string, now: int)
    requires EvaluateWalletClaim(e, presented, now).Ok?
    requires EvaluateWalletClaim(e, presented, now).value.AlreadyClaimed?
    ensures e.status.Claimed? && e.claimedBy == Some(presented) && e.purchaser == Some(presented)
    ensures EvaluateWalletClaim(e, presented, now).value.status in {PubDelivered, PubDeliveryPending}
  {
  }

  /** Each answer to a claim, exactly when it is given; a date that is reached is past. */
  lemma DecisionSaysExactly(e: Entitlement, presented: string, now: int)
    ensures var r := EvaluateWalletClaim(e, presented, now);
            var past := e.expiresAt.Some? && now >= e.expiresAt.value;
            var open := !past && (e.status.Issued? || e.status.Claimed?);
            var own := open && e.status.Claimed? && e.purchaser == Some(presented) && e.claimedBy == Some(presented);
            && (r == Err(ClaimRevoked) <==> e.status.Revoked?)
            && (r == Err(ClaimExpired) <==> e.status.Expired? || (past && !e.status.Revoked?))
            && (r == Ok(PendingCommonUser) <==> open && e.purchaser == None)
            && (r == Ok(MayClaim) <==> open && e.status.Issued? && e.purchaser == Some(presented))
            && (r == Ok(AlreadyClaimed(PubDelivered)) <==> own && e.delivery == Delivered)
            && (r == Ok(AlreadyClaimed(PubDeliveryPending)) <==> own && e.delivery != Delivered)
            && (r == Err(CommonUserMismatch) <==> open && e.purchaser != None && !own
                                                  && !(e.status.Issued? && e.purchaser == Some(presented)))
  {
  }

  /** Each reason for leaving an entitlement alone, exactly when it is given. */
  lemma SkippingSaysExactly(e: Entitlement, now: int)
    ensures var r := EvaluateAutoDelivery(e, now);
            var past := e.expiresAt.Some? && now >= e.expiresAt.value;
            && (r == Skip(WalletNotRegistered) <==> e.purchaser == None)
            && (r == Skip(AlreadyDelivered) <==>
                  e.purchaser != None && e.status.Claimed? && !past && e.claimedBy == e.purchaser)
            && (r == Skip(NotDeliverable) <==>
                  e.purchaser != None && !(e.status.Issued? && !past)
                  && !(e.status.Claimed? && !past && e.claimedBy == e.purchaser))
  {
  }

  // --- the delivery event ---------------------------------------------------------------

  /** What the planner asks of the outside: public addresses, and which of them last. */
  datatype Addresses = Addresses(publicUrl: string -> string, isLongLived: string -> bool)

  datatype Plan = Plan(eventId: string, payload: WalletEvent, correlationId: string)

  function PlanDelivery(
    a: Addresses, generatedId: string, entitlementId: string, commonUserId: string,
    correlationId: string, s: Snapshot, now: int): Result<Plan, ClaimError>
  {
    if s.imageKey.None? || s.imageHash.None? then Err(EventInvalid)
    else
      var eventId := "evt_" + generatedId;
      var envelope := Envelope(
        eventId, now, correlationId, commonUserId, entitlementId, s.orderId, s.orderLineId, s.artworkId);
      var display := Display(s.title, s.description, a.publicUrl(s.imageKey.value), s.imageHash.value, s.serialNo);
      match BuildGrantedEvent(envelope, display, a.isLongLived)
      case Err(_) => Err(EventInvalid)
      case Ok(event) => Ok(Plan(eventId, event, correlationId))
  }

  /** This event, under its own id, says these things of the entitlement and its artwork. */
  ghost predicate Says(p: WalletEvent, eventId: string, entitlementId: string, commonUserId: string, s: Snapshot, a: Addresses) {
    && p.Granted? && p.version == "1.0"
    && p.envelope.eventId == eventId && p.envelope.entitlementId == entitlementId
    && p.envelope.commonUserId == commonUserId
    && p.envelope.orderId == s.orderId && p.envelope.orderLineId == s.orderLineId && p.envelope.artworkId == s.artworkId
    && p.display.title == s.title && p.display.description == s.description && p.display.serialNo == s.serialNo
    && s.imageKey.Some? && p.display.imageUrl == a.publicUrl(s.imageKey.value)
    && s.imageHash.Some? && p.display.imageHash == s.imageHash.value
  }

  /**
   A delivery event is built exactly when everything it has to say is there and well formed, and
   then says what was read of the entitlement, each thing in its own place.
   */
  lemma PlannedEventSays(
    a: Addresses, generatedId: string, entitlementId: string, commonUserId: string, correlationId: string, s: Snapshot, now: int)
    ensures var r := PlanDelivery(a, generatedId, entitlementId, commonUserId, correlationId, s, now);
            && (r.Ok? <==> s.imageKey.Some? && s.imageHash.Some?
                           && IsWalletCorrelationId(correlationId) && IsCommonUserId(commonUserId)
                           && s.serialNo >= 1 && !IsBlank(s.title) && IsContentHash(s.imageHash.value)
                           && a.isLongLived(a.publicUrl(s.imageKey.value)))
            && (r.Err? ==> r.error == EventInvalid)
            && (r.Ok? ==> r.value.eventId == "evt_" + generatedId && r.value.correlationId == correlationId
                          && Says(r.value.payload, "evt_" + generatedId, entitlementId, commonUserId, s, a)
                          && r.value.payload.envelope.occurredAt == now
                          && r.value.payload.envelope.correlationId == correlationId)
  {
    var eventId := "evt_" + generatedId;
    assert eventId[0] == 'e' && 'e' in eventId;
  }

  // --- the tables -----------------------------------------------------------------------

  datatype OutboxRow = OutboxRow(entitlementId: string, payload: WalletEvent)

  datatype Tables = Tables(entitlements: map<string, Entitlement>, outbox: map<string, OutboxRow>)

  datatype Found = Found(id: string, row: Entitlement)

  ghost predicate HasToken(t: Tables, tokenHash: string, id: string) {
    id in t.entitlements && t.entitlements[id].tokenHash == tokenHash
  }

  ghost function FindByTokenHash(t: Tables, tokenHash: string): (r: Option<Found>)
    ensures r.Some? ==> HasToken(t, tokenHash, r.value.id) && r.value.row == t.entitlements[r.value.id]
    ensures r.None? ==> forall id :: !HasToken(t, tokenHash, id)
  {
    if exists id :: HasToken(t, tokenHash, id) then
      var id :| HasToken(t, tokenHash, id);
      Some(Found(id, t.entitlements[id]))
    else None
  }

  function FindForAutoDelivery(t: Tables, id: string): Option<Found> {
    if id in t.entitlements then Some(Found(id, t.entitlements[id])) else None
  }

  /** `Rejected`: the queue already has that event id, so the whole transaction is undone. */
  datatype ClaimOutcome = Won | Raced | Rejected

  /** One transaction: claim if still issued, and queue the event with it. Expiry is not looked at. */
  function ConfirmClaim(t: Tables, id: string, commonUserId: string, now: int, plan: Option<Plan>)
    : (Tables, ClaimOutcome)
  {
    if id !in t.entitlements || !t.entitlements[id].status.Issued? then (t, Raced)
    else
      var claimed := t.entitlements[id].(
        status := Claimed, claimedBy := Some(commonUserId), claimedAt := Some(now), delivery := Waiting);
      var entitlements := t.entitlements[id := claimed];
      match plan
      case None => (Tables(entitlements, t.outbox), Won)
      case Some(p) =>
        if p.eventId in t.outbox then (t, Rejected)
        else (Tables(entitlements, t.outbox[p.eventId := OutboxRow(id, p.payload)]), Won)
  }

  /** When a claim is written and when not, and all that it writes. */
  lemma ClaimWritesExactly(t: Tables, id: string, commonUserId: string, now: int, plan: Option<Plan>)
    ensures var (t', outcome) := ConfirmClaim(t, id, commonUserId, now, plan);
            var issued := id in t.entitlements && t.entitlements[id].status.Issued?;
            && (outcome == Raced <==> !issued)
            && (outcome == Rejected <==> issued && plan.Some? && plan.value.eventId in t.outbox)
            && (outcome != Won ==> t' == t)
            && (outcome == Won ==>
                  && t'.entitlements.Keys == t.entitlements.Keys
                  && (forall other :: other in t.entitlements && other != id ==> t'.entitlements[other] == t.entitlements[other])
                  && t'.entitlements[id] == t.entitlements[id].(
                       status := Claimed, delivery := Waiting, claimedBy := Some(commonUserId), claimedAt := Some(now))
                  && t'.outbox == if plan.None? then t.outbox
                                  else t.outbox[plan.value.eventId := OutboxRow(id, plan.value.payload)])
  {
  }

  /** The update as it is written down beside the schema: unexpired as well as still issued. */
  predicate DocumentedUpdateMatches(t: Tables, id: string, now: int) {
    id in t.entitlements && t.entitlements[id].status.Issued? && !PastDue(t.entitlements[id], now)
  }

  /** The update that is run leaves the expiry out: the two part exactly at an issued entitlement past its date. */
  lemma ExpiryIsNotLookedAtAgain(t: Tables, id: string, commonUserId: string, now: int, plan: Option<Plan>)
    ensures DocumentedUpdateMatches(t, id, now) ==> !ConfirmClaim(t, id, commonUserId, now, plan).1.Raced?
    ensures (!ConfirmClaim(t, id, commonUserId, now, plan).1.Raced? && !DocumentedUpdateMatches(t, id, now))
            <==> (id in t.entitlements && t.entitlements[id].status.Issued? && PastDue(t.entitlements[id], now))
  {
  }
}
