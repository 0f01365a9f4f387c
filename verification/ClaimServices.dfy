/** The claim service as it runs on its own, proved to be an uninterrupted run of the protocol. */
module ClaimServices {
  import opened Wrappers
  import opened EntitlementClaim
  import opened ClaimProtocol
  import I = Idempotency

  class ClaimDatabase {
    var entitlements: map<string, Entitlement>
    var outbox: map<string, OutboxRow>

    constructor ()
      ensures View() == Tables(map[], map[])
    {
      entitlements, outbox := map[], map[];
    }

    function View(): Tables
      reads this
    {
      Tables(entitlements, outbox)
    }

    /** The token column is unique. */
    ghost predicate Valid()
      reads this
    {
      forall a, b :: a in entitlements && b in entitlements && entitlements[a].tokenHash == entitlements[b].tokenHash ==> a == b
    }

    method LookupByTokenHash(tokenHash: string) returns (found: Option<Found>)
      requires Valid()
      ensures found == FindByTokenHash(View(), tokenHash)
    {
      if id :| id in entitlements && entitlements[id].tokenHash == tokenHash {
        assert HasToken(View(), tokenHash, id);
        return Some(Found(id, entitlements[id]));
      }
      assert forall id :: !HasToken(View(), tokenHash, id);
      return None;
    }

    /** The conditional update and the insert of one transaction. */
    method Confirm(id: string, commonUserId: string, now: int, plan: Option<Plan>) returns (outcome: ClaimOutcome)
      requires Valid()
      modifies this
      ensures (View(), outcome) == ConfirmClaim(old(View()), id, commonUserId, now, plan)
      ensures Valid()
    {
      if id !in entitlements || !entitlements[id].status.Issued? {
        return Raced;
      }
      if plan.Some? && plan.value.eventId in outbox {
        return Rejected;
      }
      entitlements := entitlements[id := entitlements[id].(
        status := Claimed, claimedBy := Some(commonUserId), claimedAt := Some(now), delivery := Waiting)];
      if plan.Some? {
        outbox := outbox[plan.value.eventId := OutboxRow(id, plan.value.payload)];
      }
      return Won;
    }
  }

  /** The readings of clock and id generator that one confirmation takes, and whether its last write gets through. */
  datatype Readings = Readings(
    begunAt: int, decidedAt: int, plannedAt: int, generatedId: string, correlationId: string, settles: bool)

  function Alone(tokenHash: string, commonUserId: string, key: string, r: Readings): seq<Event> {
    [Lookup(tokenHash, commonUserId, key), Begin(0, r.begunAt),
     Decide(0, r.decidedAt, r.plannedAt, r.generatedId, r.correlationId),
     Commit(0, Acknowledged), Reread(0, true), Settle(0, r.settles)]
  }

  ghost function Quiet(t: Tables, rows: map<I.Slot, I.Row<Digest, Confirmation>>, clock: int): World {
    World(t, map[], {}, I.World(rows, [], clock, []), [], [], [])
  }

  class ClaimService {
    const claims: ClaimDatabase
    const idempotency: I.IdempotencyService<Digest, Confirmation>
    const config: Config

    constructor (claims: ClaimDatabase, idempotency: I.IdempotencyService<Digest, Confirmation>, config: Config)
      ensures this.claims == claims && this.idempotency == idempotency && this.config == config
    {
      this.claims, this.idempotency, this.config := claims, idempotency, config;
    }

    method Confirm(tokenHash: string, commonUserId: string, key: string, r: Readings) returns (reply: Reply)
      requires claims.Valid()
      modifies claims, idempotency.store
      ensures claims.Valid()
      ensures var w := Run(config, Quiet(old(claims.View()), old(idempotency.store.rows), r.begunAt),
                           Alone(tokenHash, commonUserId, key, r));
              |w.parties| == 1 && w.parties[0].phase == Replied(reply)
              && claims.View() == w.tables && idempotency.store.rows == w.keys.rows
      ensures ConfirmationSays(config, old(claims.View()), old(idempotency.store.rows), tokenHash, commonUserId, key, r,
                               claims.View(), idempotency.store.rows, reply)
    {
      ConfirmedIsARun(config, claims.View(), idempotency.store.rows, tokenHash, commonUserId, key, r);
      ConfirmedSays(config, claims.View(), idempotency.store.rows, tokenHash, commonUserId, key, r);
      reply := ConfirmUnwatched(tokenHash, commonUserId, key, r);
    }

    method ConfirmUnwatched(tokenHash: string, commonUserId: string, key: string, r: Readings) returns (reply: Reply)
      requires claims.Valid()
      modifies claims, idempotency.store
      ensures claims.Valid()
      ensures (claims.View(), idempotency.store.rows, reply)
              == ConfirmedAlone(config, old(claims.View()), old(idempotency.store.rows), tokenHash, commonUserId, key, r)
    {
      var lookup := claims.LookupByTokenHash(tokenHash);
      if lookup.None? {
        return Failed(TokenInvalid);
      }
      var found := lookup.value;
      var slot := I.Slot(found.row.accountId, key);
      var outcome := idempotency.Begin(slot, Digest(tokenHash, commonUserId), r.begunAt);
      match outcome {
        case Replay(body) => return Confirmed(body);
        case Refuse(reason) => return Conflict(reason);
        case Proceed =>
      }
      var result := Execute(tokenHash, commonUserId, found, r);
      match result {
        case Err(error) =>
          if r.settles {
            idempotency.store.Release(slot);
          }
          return Failed(error);
        case Ok(confirmation) =>
          if confirmation.commonUserPending {
            if r.settles {
              idempotency.store.Release(slot);
            }
            return Confirmed(confirmation);
          }
          if !r.settles {
            return Failed(Unavailable);
          }
          var stored := idempotency.store.Complete(slot, 202, confirmation);
          return if stored then Confirmed(confirmation) else Failed(Unavailable);
      }
    }

    /** The guarded body: decide, plan, claim, and read again after a lost race. `found` may be out of date. */
    method Execute(tokenHash: string, commonUserId: string, found: Found, r: Readings)
      returns (result: Result<Confirmation, ClaimError>)
      requires claims.Valid()
      modifies claims
      ensures claims.Valid()
      ensures (claims.View(), result) == Executed(config, old(claims.View()), tokenHash, commonUserId, found, r)
      ensures ExecutionSays(config, old(claims.View()), tokenHash, commonUserId, found, r, claims.View(), result)
    {
      ExecutedSays(config, claims.View(), tokenHash, commonUserId, found, r);
      var decision := EvaluateWalletClaim(found.row, commonUserId, r.decidedAt);
      if decision.Err? {
        return Err(decision.error);
      }
      match decision.value {
        case PendingCommonUser => return Ok(Confirmation(PubPending, true));
        case AlreadyClaimed(status) => return Ok(Confirmation(status, false));
        case MayClaim =>
      }
      var plan: Option<Plan> := None;
      if config.claimServiceDelivers {
        var planned := PlanDelivery(config.addresses, r.generatedId, found.id, commonUserId, r.correlationId,
                                    found.row.snapshot, r.plannedAt);
        if planned.Err? {
          return Err(planned.error);
        }
        plan := Some(planned.value);
      }
      var outcome := claims.Confirm(found.id, commonUserId, r.plannedAt, plan);
      match outcome {
        case Rejected => return Err(Unavailable);
        case Won => return Ok(Confirmation(PubDeliveryPending, false));
        case Raced =>
      }
      var again := claims.LookupByTokenHash(tokenHash);
      if again.Some? && again.value.row.claimedBy == Some(commonUserId) && again.value.row.status.Claimed? {
        return Ok(Confirmation(ToPublicStatus(again.value.row.status, again.value.row.delivery), false));
      }
      return Err(ClaimProcessing);
    }
  }

  /** The conditional update, and the reading again after a lost race. */
  ghost function ClaimedOrReread(
    t: Tables, tokenHash: string, commonUserId: string, id: string, at: int, plan: Option<Plan>)
    : (Tables, Result<Confirmation, ClaimError>)
  {
    var (t', outcome) := ConfirmClaim(t, id, commonUserId, at, plan);
    match outcome
    case Rejected => (t', Err(Unavailable))
    case Won => (t', Ok(Confirmation(PubDeliveryPending, false)))
    case Raced =>
      match FindByTokenHash(t', tokenHash)
      case None => (t', Err(ClaimProcessing))
      case Some(again) =>
        (t', if again.row.claimedBy == Some(commonUserId) && again.row.status.Claimed?
             then Ok(Confirmation(ToPublicStatus(again.row.status, again.row.delivery), false))
             else Err(ClaimProcessing))
  }

  /** What the body does to the tables it meets, and what it comes to. */
  ghost function Executed(c: Config, t: Tables, tokenHash: string, commonUserId: string, found: Found, r: Readings)
    : (Tables, Result<Confirmation, ClaimError>)
  {
    match EvaluateWalletClaim(found.row, commonUserId, r.decidedAt)
    case Err(error) => (t, Err(error))
    case Ok(PendingCommonUser) => (t, Ok(Confirmation(PubPending, true)))
    case Ok(AlreadyClaimed(status)) => (t, Ok(Confirmation(status, false)))
    case Ok(MayClaim) =>
      var planned := PlanDelivery(c.addresses, r.generatedId, found.id, commonUserId, r.correlationId,
                                  found.row.snapshot, r.plannedAt);
      if c.claimServiceDelivers && planned.Err? then (t, Err(planned.error))
      else ClaimedOrReread(t, tokenHash, commonUserId, found.id, r.plannedAt,
                           if c.claimServiceDelivers then Some(planned.value) else None)
  }

  predicate UniqueTokens(t: Tables) {
    forall a, b :: a in t.entitlements && b in t.entitlements && t.entitlements[a].tokenHash == t.entitlements[b].tokenHash ==> a == b
  }

  /** The answer after a lost race: success for the one it is claimed by, and for nobody else. */
  ghost predicate AnsweredAfterRace(t: Tables, tokenHash: string, commonUserId: string, result: Result<Confirmation, ClaimError>) {
    && (forall id :: HasToken(t, tokenHash, id) ==>
          var row := t.entitlements[id];
          result == if row.status == Claimed && row.claimedBy == Some(commonUserId)
                    then Ok(Confirmation(if row.delivery == Delivered then PubDelivered else PubDeliveryPending, false))
                    else Err(ClaimProcessing))
    && ((forall id :: !HasToken(t, tokenHash, id)) ==> result == Err(ClaimProcessing))
  }

  /** The body of a confirmation: what it answers and what it writes, however old the row it was given. */
  ghost predicate ExecutionSays(
    c: Config, t: Tables, tokenHash: string, commonUserId: string, found: Found, r: Readings,
    t': Tables, result: Result<Confirmation, ClaimError>)
  {
    var plan := PlanDelivery(c.addresses, r.generatedId, found.id, commonUserId, r.correlationId, found.row.snapshot, r.plannedAt);
    match EvaluateWalletClaim(found.row, commonUserId, r.decidedAt)
    case Err(error) => t' == t && result == Err(error)
    case Ok(PendingCommonUser) => t' == t && result == Ok(Confirmation(PubPending, true))
    case Ok(AlreadyClaimed(status)) => t' == t && result == Ok(Confirmation(status, false))
    case Ok(MayClaim) =>
      if c.claimServiceDelivers && plan.Err? then t' == t && result == Err(EventInvalid)
      else if found.id !in t.entitlements || t.entitlements[found.id].status != Issued then
        t' == t && AnsweredAfterRace(t, tokenHash, commonUserId, result)
      else if c.claimServiceDelivers && plan.value.eventId in t.outbox then t' == t && result == Err(Unavailable)
      else
        && result == Ok(Confirmation(PubDeliveryPending, false))
        && t'.entitlements == t.entitlements[found.id := t.entitlements[found.id].(
             status := Claimed, delivery := Waiting, claimedBy := Some(commonUserId), claimedAt := Some(r.plannedAt))]
        && t'.outbox == if c.claimServiceDelivers then t.outbox[plan.value.eventId := OutboxRow(found.id, plan.value.payload)]
                        else t.outbox
  }

  lemma ExecutedSays(c: Config, t: Tables, tokenHash: string, commonUserId: string, found: Found, r: Readings)
    requires UniqueTokens(t)
    ensures var (t', result) := Executed(c, t, tokenHash, commonUserId, found, r);
            ExecutionSays(c, t, tokenHash, commonUserId, found, r, t', result)
  {
    PlannedEventSays(c.addresses, r.generatedId, found.id, commonUserId, r.correlationId, found.row.snapshot, r.plannedAt);
    forall plan {
      ClaimWritesExactly(t, found.id, commonUserId, r.plannedAt, plan);
    }
    var again := FindByTokenHash(t, tokenHash);
    forall id | HasToken(t, tokenHash, id)
      ensures again == Some(Found(id, t.entitlements[id]))
    {
    }
  }

  type KeyRows = map<I.Slot, I.Row<Digest, Confirmation>>

  /** Closing the key after the body: complete, or give back, or fail to reach the store. */
  function Closed(rows: KeyRows, slot: I.Slot, result: Result<Confirmation, ClaimError>, settles: bool): (KeyRows, Reply) {
    match result
    case Err(error) => (if settles then I.ReleaseRow(rows, slot) else rows, Failed(error))
    case Ok(confirmation) =>
      if confirmation.commonUserPending
      then (if settles then I.ReleaseRow(rows, slot) else rows, Confirmed(confirmation))
      else if settles && slot in rows
      then (I.CompleteRow(rows, slot, 202, confirmation).value, Confirmed(confirmation))
      else (rows, Failed(Unavailable))
  }

  /** A confirmation: what it answers, and what becomes of tables and keys. */
  ghost predicate ConfirmationSays(
    c: Config, t: Tables, rows: KeyRows, tokenHash: string, commonUserId: string, key: string, r: Readings,
    t': Tables, rows': KeyRows, reply: Reply)
  {
    && ((forall id :: !HasToken(t, tokenHash, id)) ==> t' == t && rows' == rows && reply == Failed(TokenInvalid))
    && (forall id :: HasToken(t, tokenHash, id) ==>
          KeyedConfirmationSays(c, t, rows, tokenHash, commonUserId, I.Slot(t.entitlements[id].accountId, key),
                                Found(id, t.entitlements[id]), r, t', rows', reply))
  }

  ghost predicate KeyedConfirmationSays(
    c: Config, t: Tables, rows: KeyRows, tokenHash: string, commonUserId: string, slot: I.Slot, found: Found, r: Readings,
    t': Tables, rows': KeyRows, reply: Reply)
  {
    var digest := Digest(tokenHash, commonUserId);
    if I.LiveRow(rows, slot, r.begunAt) then
      && t' == t && rows' == rows
      && reply == if rows[slot].requestDigest != digest then Conflict(I.DifferentDigest)
                  else if rows[slot].progress.InProgress? then Conflict(I.StillRunning)
                  else Confirmed(rows[slot].progress.responseBody)
    else exists result ::
      && ExecutionSays(c, t, tokenHash, commonUserId, found, r, t', result)
      && ClosingSays(rows, slot, digest, r.begunAt, r.settles, result, rows', reply)
  }

  /** Successes are kept for a day under their key; for anything else the key is given back. */
  ghost predicate ClosingSays(
    rows: KeyRows, slot: I.Slot, digest: Digest, begunAt: int, settles: bool, result: Result<Confirmation, ClaimError>,
    rows': KeyRows, reply: Reply)
  {
    var kept := result.Ok? && !result.value.commonUserPending;
    && rows' == (if !settles then rows[slot := I.Row(digest, I.InProgress, begunAt, begunAt + 86_400_000)]
                 else if kept then rows[slot := I.Row(digest, I.Completed(202, result.value), begunAt, begunAt + 86_400_000)]
                 else rows - {slot})
    && reply == match result
                case Err(error) => Failed(error)
                case Ok(confirmation) => if kept && !settles then Failed(Unavailable) else Confirmed(confirmation)
  }

  lemma ClosedSays(
    rows: KeyRows, slot: I.Slot, digest: Digest, begunAt: int, result: Result<Confirmation, ClaimError>, settles: bool)
    requires !I.LiveRow(rows, slot, begunAt)
    ensures var taken := I.ClaimRow(rows, slot, digest, begunAt, begunAt + I.IDEMPOTENCY_TTL_MS).0;
            var (rows', reply) := Closed(taken, slot, result, settles);
            ClosingSays(rows, slot, digest, begunAt, settles, result, rows', reply)
  {
  }

  lemma ConfirmedSays(
    c: Config, t: Tables, rows: KeyRows, tokenHash: string, commonUserId: string, key: string, r: Readings)
    requires UniqueTokens(t)
    ensures var (t', rows', reply) := ConfirmedAlone(c, t, rows, tokenHash, commonUserId, key, r);
            ConfirmationSays(c, t, rows, tokenHash, commonUserId, key, r, t', rows', reply)
  {
    var (t', rows', reply) := ConfirmedAlone(c, t, rows, tokenHash, commonUserId, key, r);
    var found := FindByTokenHash(t, tokenHash);
    forall id | HasToken(t, tokenHash, id)
      ensures KeyedConfirmationSays(c, t, rows, tokenHash, commonUserId, I.Slot(t.entitlements[id].accountId, key),
                                    Found(id, t.entitlements[id]), r, t', rows', reply)
    {
      assert found == Some(Found(id, t.entitlements[id]));
      FoundSays(c, t, rows, tokenHash, commonUserId, key, found.value, r);
    }
  }

  lemma FoundSays(
    c: Config, t: Tables, rows: KeyRows, tokenHash: string, commonUserId: string, key: string, found: Found, r: Readings)
    requires UniqueTokens(t)
    ensures var (t', rows', reply) := ConfirmedFound(c, t, rows, tokenHash, commonUserId, key, found, r);
            KeyedConfirmationSays(c, t, rows, tokenHash, commonUserId, I.Slot(found.row.accountId, key), found, r, t', rows', reply)
  {
    var slot, digest := I.Slot(found.row.accountId, key), Digest(tokenHash, commonUserId);
    if !I.LiveRow(rows, slot, r.begunAt) {
      var (t', result) := Executed(c, t, tokenHash, commonUserId, found, r);
      ExecutedSays(c, t, tokenHash, commonUserId, found, r);
      ClosedSays(rows, slot, digest, r.begunAt, result, r.settles);
    }
  }

  ghost function ConfirmedAlone(
    c: Config, t: Tables, rows: KeyRows, tokenHash: string, commonUserId: string, key: string, r: Readings)
    : (Tables, KeyRows, Reply)
  {
    match FindByTokenHash(t, tokenHash)
    case None => (t, rows, Failed(TokenInvalid))
    case Some(found) => ConfirmedFound(c, t, rows, tokenHash, commonUserId, key, found, r)
  }

  ghost function ConfirmedFound(
    c: Config, t: Tables, rows: KeyRows, tokenHash: string, commonUserId: string, key: string, found: Found, r: Readings)
    : (Tables, KeyRows, Reply)
  {
    var slot, digest := I.Slot(found.row.accountId, key), Digest(tokenHash, commonUserId);
    var (taken, claim) := I.ClaimRow(rows, slot, digest, r.begunAt, r.begunAt + I.IDEMPOTENCY_TTL_MS);
    match I.OutcomeOf(claim, digest)
    case Replay(body) => (t, taken, Confirmed(body))
    case Refuse(reason) => (t, taken, Conflict(reason))
    case Proceed =>
      BodyAndClose(c, t, taken, tokenHash, commonUserId, slot, found, r)
  }

  ghost function BodyAndClose(
    c: Config, t: Tables, rows: KeyRows, tokenHash: string, commonUserId: string, slot: I.Slot, found: Found, r: Readings)
    : (Tables, KeyRows, Reply)
  {
    var (t', result) := Executed(c, t, tokenHash, commonUserId, found, r);
    var (closed, reply) := Closed(rows, slot, result, r.settles);
    (t', closed, reply)
  }

  ghost predicate EndsAs(w: World, end: (Tables, KeyRows, Reply)) {
    |w.parties| == 1 && w.parties[0].phase == Replied(end.2) && w.tables == end.0 && w.keys.rows == end.1
  }

  lemma DecideThenWriting(c: Config, w: World, r: Readings)
    requires |w.parties| == 1 && w.parties[0].Buyer? && w.parties[0].phase.Deciding?
    ensures var p := w.parties[0];
            var found := p.phase.found;
            var w' := StepDecide(c, w, 0, r.decidedAt, r.plannedAt, r.generatedId, r.correlationId);
            if w'.parties[0].phase.Writing?
            then var plan := w'.parties[0].phase.plan;
                 w' == Moved(w, 0, Writing(found, p.phase.holder, plan, r.decidedAt, r.plannedAt))
                 && Executed(c, w.tables, p.tokenHash, p.commonUserId, found, r)
                    == ClaimedOrReread(w.tables, p.tokenHash, p.commonUserId, found.id, r.plannedAt, plan)
            else
              var (t, result) := Executed(c, w.tables, p.tokenHash, p.commonUserId, found, r);
              t == w.tables && w'.(answers := w.answers) == BodyEnded(w, 0, p.phase.holder, result)
  {
  }

  lemma WritingThenEnded(c: Config, w: World)
    requires |w.parties| == 1 && w.parties[0].Buyer? && w.parties[0].phase.Writing?
    ensures var p := w.parties[0];
            var Writing(found, holder, plan, _, at) := p.phase;
            var (t, result) := ClaimedOrReread(w.tables, p.tokenHash, p.commonUserId, found.id, at, plan);
            var w' := Next(c, Next(c, w, Commit(0, Acknowledged)), Reread(0, true));
            && w'.tables == t
            && w'.parties == [p.(phase := Settling(holder, result))]
            && w'.keys == I.Next(w.keys, I.BodyEnds(holder, EndOf(result)))
  {
    var committed := StepCommit(w, 0, Acknowledged);
    assert committed == Next(c, w, Commit(0, Acknowledged));
    if committed.parties[0].phase.Rereading? {
      assert Next(c, committed, Reread(0, true)) == StepReread(committed, 0, true);
    }
  }

  lemma SettlingWaits(c: Config, w: World)
    requires |w.parties| == 1 && w.parties[0].phase.Settling?
    ensures Next(c, Next(c, w, Commit(0, Acknowledged)), Reread(0, true)) == w
  {
  }

  ghost function BodySteps(c: Config, w: World, r: Readings): World {
    Next(c, Next(c, Next(c, w, Decide(0, r.decidedAt, r.plannedAt, r.generatedId, r.correlationId)),
                 Commit(0, Acknowledged)),
         Reread(0, true))
  }

  /** The body agrees with the three steps of the protocol, whatever became of the tables since the lookup. */
  lemma ExecutedIsTheBodySteps(c: Config, w: World, r: Readings)
    requires |w.parties| == 1 && w.parties[0].Buyer? && w.parties[0].phase.Deciding?
    ensures var p := w.parties[0];
            var (t, result) := Executed(c, w.tables, p.tokenHash, p.commonUserId, p.phase.found, r);
            var w' := BodySteps(c, w, r);
            && w'.tables == t
            && w'.parties == [p.(phase := Settling(p.phase.holder, result))]
            && w'.keys == I.Next(w.keys, I.BodyEnds(p.phase.holder, EndOf(result)))
  {
    var p := w.parties[0];
    DecideThenWriting(c, w, r);
    var decided := Next(c, w, Decide(0, r.decidedAt, r.plannedAt, r.generatedId, r.correlationId));
    if decided.parties[0].phase.Writing? {
      WritingThenEnded(c, decided);
    } else {
      SettlingWaits(c, decided);
    }
  }

  lemma SettleCloses(c: Config, w: World, settles: bool)
    requires |w.parties| == 1 && w.parties[0].Buyer? && w.parties[0].phase.Settling?
    requires HolderOk(w.keys, w.parties[0])
    ensures var Settling(holder, result) := w.parties[0].phase;
            var w' := Next(c, w, Settle(0, settles));
            var (rows, reply) := Closed(w.keys.rows, w.keys.requests[holder].slot, result, settles);
            w'.tables == w.tables && w'.keys.rows == rows && w'.parties == [w.parties[0].(phase := Replied(reply))]
  {
  }

  /** What follows the taking of the key. */
  function Rest(r: Readings): seq<Event> {
    [Decide(0, r.decidedAt, r.plannedAt, r.generatedId, r.correlationId), Commit(0, Acknowledged), Reread(0, true),
     Settle(0, r.settles)]
  }

  lemma RestUnfolds(c: Config, w: World, r: Readings)
    ensures Run(c, w, Rest(r)) == Next(c, BodySteps(c, w, r), Settle(0, r.settles))
  {
    var es := Rest(r);
    var w1 := Next(c, w, es[0]);
    var w2 := Next(c, w1, es[1]);
    var w3 := Next(c, w2, es[2]);
    var end := es[1..][1..][1..];
    assert end == [es[3]];
    assert Run(c, w3, end) == Run(c, Next(c, w3, end[0]), end[1..]) == Next(c, w3, es[3]);
    assert Run(c, w, es) == Run(c, w2, es[1..][1..]) == Run(c, w3, end);
  }

  /** Once a reply is given, the rest of the run changes nothing. */
  lemma {:induction false} RepliedIsTheEnd(c: Config, w: World, es: seq<Event>)
    requires |w.parties| == 1 && w.parties[0].phase.Replied?
    requires forall e :: e in es ==> e.Begin? || e.Decide? || e.Commit? || e.Reread? || e.Settle?
    ensures Run(c, w, es) == w
    decreases |es|
  {
    if es != [] {
      assert es[0] in es && Next(c, w, es[0]) == w;
      RepliedIsTheEnd(c, w, es[1..]);
    }
  }

  /** Taking the key in the protocol is what the service's `begin` does. */
  lemma BeginTakesKey(t: Tables, rows: KeyRows, p: Party, now: int)
    requires p.Buyer? && p.phase.Looked?
    ensures var found := p.phase.found;
            var slot, digest := I.Slot(found.row.accountId, p.key), Digest(p.tokenHash, p.commonUserId);
            var (taken, claim) := I.ClaimRow(rows, slot, digest, now, now + I.IDEMPOTENCY_TTL_MS);
            var w := StepBegin(Quiet(t, rows, now).(parties := [p]), 0, now);
            && w.tables == t && w.keys.rows == taken
            && match I.OutcomeOf(claim, digest)
               case Replay(body) => w.parties == [p.(phase := Replied(Confirmed(body)))]
               case Refuse(reason) => w.parties == [p.(phase := Replied(Conflict(reason)))]
               case Proceed => w.parties == [p.(phase := Deciding(found, 0))]
                               && w.keys.requests == [I.Request(slot, digest, I.Running(now))]
  {
  }

  lemma BodyThenSettle(c: Config, w: World, r: Readings)
    requires |w.parties| == 1 && w.parties[0].Buyer? && w.parties[0].phase.Deciding?
    requires HolderOk(w.keys, w.parties[0])
    ensures var p := w.parties[0];
            var slot := w.keys.requests[p.phase.holder].slot;
            EndsAs(Run(c, w, Rest(r)),
                   BodyAndClose(c, w.tables, w.keys.rows, p.tokenHash, p.commonUserId, slot, p.phase.found, r))
  {
    RestUnfolds(c, w, r);
    ExecutedIsTheBodySteps(c, w, r);
    SettleCloses(c, BodySteps(c, w, r), r.settles);
  }

  lemma FoundThenRest(c: Config, t: Tables, rows: KeyRows, p: Party, r: Readings)
    requires p.Buyer? && p.phase.Looked?
    ensures EndsAs(Run(c, StepBegin(Quiet(t, rows, r.begunAt).(parties := [p]), 0, r.begunAt), Rest(r)),
                   ConfirmedFound(c, t, rows, p.tokenHash, p.commonUserId, p.key, p.phase.found, r))
  {
    var w := StepBegin(Quiet(t, rows, r.begunAt).(parties := [p]), 0, r.begunAt);
    BeginTakesKey(t, rows, p, r.begunAt);
    if w.parties[0].phase.Deciding? {
      BodyThenSettle(c, w, r);
    } else {
      RepliedIsTheEnd(c, w, Rest(r));
    }
  }

  lemma AloneUnfolds(c: Config, w: World, tokenHash: string, commonUserId: string, key: string, r: Readings)
    ensures Run(c, w, Alone(tokenHash, commonUserId, key, r))
            == Run(c, Next(c, StepLookup(w, tokenHash, commonUserId, key), Begin(0, r.begunAt)), Rest(r))
  {
    var es := Alone(tokenHash, commonUserId, key, r);
    assert es[1..][1..] == Rest(r);
  }

  /** A confirmation nobody interferes with is the protocol's run of that one buyer. */
  lemma ConfirmedIsARun(
    c: Config, t: Tables, rows: KeyRows, tokenHash: string, commonUserId: string, key: string, r: Readings)
    ensures EndsAs(Run(c, Quiet(t, rows, r.begunAt), Alone(tokenHash, commonUserId, key, r)),
                   ConfirmedAlone(c, t, rows, tokenHash, commonUserId, key, r))
  {
    var w0 := Quiet(t, rows, r.begunAt);
    AloneUnfolds(c, w0, tokenHash, commonUserId, key, r);
    var w1 := StepLookup(w0, tokenHash, commonUserId, key);
    var p := w1.parties[0];
    assert w1 == w0.(parties := [p]);
    if p.phase.Looked? {
      FoundThenRest(c, t, rows, p, r);
    } else {
      RepliedIsTheEnd(c, w1, Rest(r));
    }
  }
}
