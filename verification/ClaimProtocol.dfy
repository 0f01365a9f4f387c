/**
 Every interleaving of claim confirmations, automatic deliveries and the changes that happen
 around them. One event is one step of one party between two waits: a read, a local decision,
 or one transaction. A party that crashes takes no further step.
 */
module ClaimProtocol {
  import opened Wrappers
  import opened EntitlementClaim
  import I = Idempotency

  datatype Confirmation = Confirmation(status: PublicStatus, commonUserPending: bool)

  /** What the key is bound to; equal digests mean equal contents. */
  datatype Digest = Digest(tokenHash: string, commonUserId: string)

  /** `claimServiceDelivers`: whether a confirmation by the buyer also queues the delivery. */
  datatype Config = Config(addresses: Addresses, claimServiceDelivers: bool)

  // --- the parties ----------------------------------------------------------------------

  datatype Reply = Confirmed(result: Confirmation) | Failed(error: ClaimError) | Conflict(reason: I.Refusal)

  datatype AutoOutcome = AutoDelivered | AutoSkipped | AutoFailed

  /** `slot` in these phases is the number of this request among the users of keys. */
  datatype Phase =
    | Looked(found: Found)
    | Deciding(found: Found, holder: nat)
    | Writing(found: Found, holder: nat, plan: Option<Plan>, decidedAt: int, at: int)
    | Rereading(holder: nat)
    | Settling(holder: nat, outcome: Result<Confirmation, ClaimError>)
    | Replied(reply: Reply)
    | AutoLooked(found: Found)
    | AutoWriting(found: Found, commonUserId: string, event: Plan, decidedAt: int)
    | AutoDone(result: AutoOutcome)
    | Gone

  datatype Party = Buyer(tokenHash: string, commonUserId: string, key: string, phase: Phase) | Machine(phase: Phase)

  /** A claim that was committed; `event` is the delivery queued with it. */
  datatype Win = Win(id: string, commonUserId: string, event: Option<string>, decidedAt: int)

  /** A success worked out for a buyer that is not "pending": for which token, and of which entitlement. */
  datatype Answer = Answer(tokenHash: string, id: string, commonUserId: string, status: PublicStatus)

  /**
   `tokens` are all that were ever issued, each with the entitlement it was issued for; `shown` is
   all that the artwork of each entitlement was ever shown as.
   */

  datatype World = World(
    tables: Tables, tokens: map<string, string>, shown: set<(string, Snapshot)>, keys: I.World<Digest, Confirmation>,
    parties: seq<Party>, wins: seq<Win>, answers: seq<Answer>)

  /** A write may commit and be acknowledged, commit without the caller learning it, or not happen. */
  datatype Write = Acknowledged | LostReply | Down

  datatype Event =
    | Issue(id: string, accountId: string, tokenHash: string, expiresAt: Option<int>, snapshot: Snapshot)
    | Relink(id: string, purchaser: Option<string>)
    | Rotate(id: string, tokenHash: string)
    | Revoke(id: string)
    | Expire(id: string)
    | Arrived(id: string)
    | EditArtwork(id: string, snapshot: Snapshot)
    | Lookup(tokenHash: string, commonUserId: string, key: string)
    | Begin(who: nat, now: int)
    | Decide(who: nat, decidedAt: int, plannedAt: int, generatedId: string, correlationId: string)
    | Commit(who: nat, write: Write)
    | Reread(who: nat, up: bool)
    | Settle(who: nat, stored: bool)
    | AutoLookup(id: string)
    | AutoDecide(who: nat, decidedAt: int, generatedId: string, correlationId: string)
    | AutoCommit(who: nat, write: Write)
    | Crash(who: nat)

  function Start(clock: int): World {
    World(Tables(map[], map[]), map[], {}, I.Start(clock), [], [], [])
  }

  // --- the surroundings -----------------------------------------------------------------

  function Changed(w: World, id: string, row: Entitlement): World {
    w.(tables := w.tables.(entitlements := w.tables.entitlements[id := row]))
  }

  /** Everything else that moves an entitlement: issue, link, reissue, refund, expiry, delivery, editing. */
  function Surroundings(w: World, e: Event): World {
    if e.Issue? then
      if e.id in w.tables.entitlements || e.tokenHash in w.tokens then w
      else Changed(w, e.id, Entitlement(
                     e.accountId, e.tokenHash, Issued, NotStarted, e.expiresAt, None, None, None, e.snapshot))
           .(tokens := w.tokens[e.tokenHash := e.id], shown := w.shown + {(e.id, e.snapshot)})
    else if !(e.Relink? || e.Rotate? || e.Revoke? || e.Expire? || e.Arrived? || e.EditArtwork?) then w
    else if e.id !in w.tables.entitlements then w
    else
      var row := w.tables.entitlements[e.id];
      match e
      case Relink(id, purchaser) => Changed(w, id, row.(purchaser := purchaser))
      case Rotate(id, hash) =>
        if row.status.Issued? && hash !in w.tokens
        then Changed(w, id, row.(tokenHash := hash)).(tokens := w.tokens[hash := id]) else w
      case Revoke(id) =>
        if row.status.Issued? || row.status.Claimed? then Changed(w, id, row.(status := Revoked)) else w
      case Expire(id) => if row.status.Issued? then Changed(w, id, row.(status := Expired)) else w
      case Arrived(id) => if row.status.Claimed? then Changed(w, id, row.(delivery := Delivered)) else w
      case EditArtwork(id, snapshot) =>
        Changed(w, id, row.(snapshot := snapshot)).(shown := w.shown + {(id, snapshot)})
      case _ => w
  }

  // --- the steps of a party -------------------------------------------------------------

  function Moved(w: World, who: nat, phase: Phase): World
    requires who < |w.parties|
  {
    w.(parties := w.parties[who := w.parties[who].(phase := phase)])
  }

  /** The body of a buyer's request has come to an outcome; the key is not settled yet. */
  function BodyEnded(w: World, who: nat, holder: nat, outcome: Result<Confirmation, ClaimError>): World
    requires who < |w.parties|
  {
    var ended :=
      match outcome
      case Err(_) => I.Failed
      case Ok(c) => if c.commonUserPending then I.Unrecorded(c) else I.Recorded(c);
    Moved(w, who, Settling(holder, outcome)).(keys := I.Next(w.keys, I.BodyEnds(holder, ended)))
  }

  ghost function StepLookup(w: World, tokenHash: string, commonUserId: string, key: string): World {
    var phase :=
      match FindByTokenHash(w.tables, tokenHash)
      case None => Replied(Failed(TokenInvalid))
      case Some(found) => Looked(found);
    w.(parties := w.parties + [Buyer(tokenHash, commonUserId, key, phase)])
  }

  function StepBegin(w: World, who: nat, now: int): World
    requires who < |w.parties| && w.parties[who].Buyer? && w.parties[who].phase.Looked?
  {
    var p := w.parties[who];
    var keys := I.Next(w.keys, I.Arrive(I.Slot(p.phase.found.row.accountId, p.key),
                                        Digest(p.tokenHash, p.commonUserId), now));
    var phase :=
      match keys.requests[|w.keys.requests|].phase
      case Done(Replayed(body)) => Replied(Confirmed(body))
      case Done(Refused(reason)) => Replied(Conflict(reason))
      case _ => Deciding(p.phase.found, |w.keys.requests|);
    Moved(w, who, phase).(keys := keys)
  }

  function StepDecide(
    c: Config, w: World, who: nat, decidedAt: int, plannedAt: int, generatedId: string, correlationId: string): World
    requires who < |w.parties| && w.parties[who].Buyer? && w.parties[who].phase.Deciding?
  {
    var p := w.parties[who];
    var found, holder := p.phase.found, p.phase.holder;
    match EvaluateWalletClaim(found.row, p.commonUserId, decidedAt)
    case Err(error) => BodyEnded(w, who, holder, Err(error))
    case Ok(PendingCommonUser) => BodyEnded(w, who, holder, Ok(Confirmation(PubPending, true)))
    case Ok(AlreadyClaimed(status)) =>
      BodyEnded(w, who, holder, Ok(Confirmation(status, false)))
      .(answers := w.answers + [Answer(p.tokenHash, found.id, p.commonUserId, status)])
    case Ok(MayClaim) =>
      if !c.claimServiceDelivers then Moved(w, who, Writing(found, holder, None, decidedAt, plannedAt))
      else match PlanDelivery(c.addresses, generatedId, found.id, p.commonUserId, correlationId,
                              found.row.snapshot, plannedAt)
        case Err(error) => BodyEnded(w, who, holder, Err(error))
        case Ok(plan) => Moved(w, who, Writing(found, holder, Some(plan), decidedAt, plannedAt))
  }

  function StepCommit(w: World, who: nat, write: Write): World
    requires who < |w.parties| && w.parties[who].Buyer? && w.parties[who].phase.Writing?
  {
    var p := w.parties[who];
    var Writing(found, holder, plan, decidedAt, at) := p.phase;
    if write.Down? then BodyEnded(w, who, holder, Err(Unavailable))
    else
      var (tables, outcome) := ConfirmClaim(w.tables, found.id, p.commonUserId, at, plan);
      match outcome
      case Rejected => BodyEnded(w, who, holder, Err(Unavailable))
      case Raced =>
        if write.LostReply? then BodyEnded(w, who, holder, Err(Unavailable)) else Moved(w, who, Rereading(holder))
      case Won =>
        var event := if plan.Some? then Some(plan.value.eventId) else None;
        var won := w.(tables := tables, wins := w.wins + [Win(found.id, p.commonUserId, event, decidedAt)]);
        if write.LostReply? then BodyEnded(won, who, holder, Err(Unavailable))
        else BodyEnded(won, who, holder, Ok(Confirmation(PubDeliveryPending, false)))
             .(answers := w.answers + [Answer(p.tokenHash, found.id, p.commonUserId, PubDeliveryPending)])
  }

  ghost function StepReread(w: World, who: nat, up: bool): World
    requires who < |w.parties| && w.parties[who].Buyer? && w.parties[who].phase.Rereading?
  {
    var p := w.parties[who];
    var holder := p.phase.holder;
    if !up then BodyEnded(w, who, holder, Err(Unavailable))
    else match FindByTokenHash(w.tables, p.tokenHash)
      case None => BodyEnded(w, who, holder, Err(ClaimProcessing))
      case Some(found) =>
        if found.row.claimedBy == Some(p.commonUserId) && found.row.status.Claimed? then
          var status := ToPublicStatus(found.row.status, found.row.delivery);
          BodyEnded(w, who, holder, Ok(Confirmation(status, false)))
          .(answers := w.answers + [Answer(p.tokenHash, found.id, p.commonUserId, status)])
        else BodyEnded(w, who, holder, Err(ClaimProcessing))
  }

  /** A result that could not be recorded is an error; a key that could not be given back is not. */
  function StepSettle(w: World, who: nat, stored: bool): World
    requires who < |w.parties| && w.parties[who].Buyer? && w.parties[who].phase.Settling?
  {
    var Settling(holder, outcome) := w.parties[who].phase;
    var keys := I.Next(w.keys, I.Settle(holder, 202, stored));
    var reply :=
      match outcome
      case Err(error) => Failed(error)
      case Ok(result) =>
        if result.commonUserPending
           || (holder < |keys.requests| && keys.requests[holder].phase == I.Done(I.Answered(result)))
        then Confirmed(result) else Failed(Unavailable);
    Moved(w, who, Replied(reply)).(keys := keys)
  }

  function StepAutoLookup(w: World, id: string): World {
    var phase :=
      match FindForAutoDelivery(w.tables, id)
      case None => AutoDone(AutoFailed)
      case Some(found) => AutoLooked(found);
    w.(parties := w.parties + [Machine(phase)])
  }

  function StepAutoDecide(
    c: Config, w: World, who: nat, decidedAt: int, generatedId: string, correlationId: string): World
    requires who < |w.parties| && w.parties[who].phase.AutoLooked?
  {
    var found := w.parties[who].phase.found;
    match EvaluateAutoDelivery(found.row, decidedAt)
    case Skip(_) => Moved(w, who, AutoDone(AutoSkipped))
    case Deliver(commonUserId) =>
      match PlanDelivery(c.addresses, generatedId, found.id, commonUserId, correlationId,
                         found.row.snapshot, decidedAt)
      case Err(_) => Moved(w, who, AutoDone(AutoFailed))
      case Ok(plan) => Moved(w, who, AutoWriting(found, commonUserId, plan, decidedAt))
  }

  function StepAutoCommit(w: World, who: nat, write: Write): World
    requires who < |w.parties| && w.parties[who].phase.AutoWriting?
  {
    var AutoWriting(found, commonUserId, plan, decidedAt) := w.parties[who].phase;
    if write.Down? then Moved(w, who, AutoDone(AutoFailed))
    else
      var (tables, outcome) := ConfirmClaim(w.tables, found.id, commonUserId, decidedAt, Some(plan));
      match outcome
      case Rejected => Moved(w, who, AutoDone(AutoFailed))
      case Raced => Moved(w, who, AutoDone(if write.LostReply? then AutoFailed else AutoSkipped))
      case Won =>
        Moved(w, who, AutoDone(if write.LostReply? then AutoFailed else AutoDelivered))
        .(tables := tables, wins := w.wins + [Win(found.id, commonUserId, Some(plan.eventId), decidedAt)])
  }

  /** A buyer's request that has taken its key and not settled it. */
  predicate Holding(p: Party) {
    p.Buyer? && (p.phase.Deciding? || p.phase.Writing? || p.phase.Rereading? || p.phase.Settling?)
  }

  function StepCrash(w: World, who: nat): World
    requires who < |w.parties|
  {
    var p := w.parties[who];
    var crashed := Moved(w, who, Gone);
    if Holding(p)
    then crashed.(keys := I.Next(w.keys, I.Crash(p.phase.holder)))
    else crashed
  }

  ghost predicate Enabled(w: World, e: Event) {
    match e
    case Begin(who, _) => who < |w.parties| && w.parties[who].Buyer? && w.parties[who].phase.Looked?
    case Decide(who, _, _, _, _) => who < |w.parties| && w.parties[who].Buyer? && w.parties[who].phase.Deciding?
    case Commit(who, _) => who < |w.parties| && w.parties[who].Buyer? && w.parties[who].phase.Writing?
    case Reread(who, _) => who < |w.parties| && w.parties[who].Buyer? && w.parties[who].phase.Rereading?
    case Settle(who, _) => who < |w.parties| && w.parties[who].Buyer? && w.parties[who].phase.Settling?
    case AutoDecide(who, _, _, _) => who < |w.parties| && w.parties[who].Machine? && w.parties[who].phase.AutoLooked?
    case AutoCommit(who, _) => who < |w.parties| && w.parties[who].Machine? && w.parties[who].phase.AutoWriting?
    case Crash(who) => who < |w.parties|
    case _ => true
  }

  ghost function Next(c: Config, w: World, e: Event): World {
    if !Enabled(w, e) then w
    else match e
      case Lookup(tokenHash, commonUserId, key) => StepLookup(w, tokenHash, commonUserId, key)
      case Begin(who, now) => StepBegin(w, who, now)
      case Decide(who, decidedAt, plannedAt, generatedId, correlationId) =>
        StepDecide(c, w, who, decidedAt, plannedAt, generatedId, correlationId)
      case Commit(who, write) => StepCommit(w, who, write)
      case Reread(who, up) => StepReread(w, who, up)
      case Settle(who, stored) => StepSettle(w, who, stored)
      case AutoLookup(id) => StepAutoLookup(w, id)
      case AutoDecide(who, decidedAt, generatedId, correlationId) =>
        StepAutoDecide(c, w, who, decidedAt, generatedId, correlationId)
      case AutoCommit(who, write) => StepAutoCommit(w, who, write)
      case Crash(who) => StepCrash(w, who)
      case _ => Surroundings(w, e)
  }

  ghost function Run(c: Config, w: World, es: seq<Event>): World
    decreases |es|
  {
    if es == [] then w else Run(c, Next(c, w, es[0]), es[1..])
  }

  // --- what every run keeps -------------------------------------------------------------

  /** The delivery queued for a claim: the claimer's, under its own id. */
  ghost predicate QueuedFor(row: OutboxRow, event: string, id: string, commonUserId: string) {
    && row.entitlementId == id
    && row.payload.Granted?
    && row.payload.envelope.eventId == event
    && row.payload.envelope.entitlementId == id
    && row.payload.envelope.commonUserId == commonUserId
  }

  /** What the tables say about one committed claim. */
  ghost predicate WinStands(t: Tables, n: Win) {
    && n.id in t.entitlements
    && t.entitlements[n.id].claimedBy == Some(n.commonUserId)
    && (t.entitlements[n.id].status.Claimed? || t.entitlements[n.id].status.Revoked?)
    && !PastDue(t.entitlements[n.id], n.decidedAt)
    && (n.event.Some? ==> n.event.value in t.outbox
                          && QueuedFor(t.outbox[n.event.value], n.event.value, n.id, n.commonUserId))
  }

  ghost predicate WonBy(wins: seq<Win>, id: string) {
    exists k :: 0 <= k < |wins| && wins[k].id == id
  }

  ghost predicate QueuedBy(wins: seq<Win>, event: string, id: string) {
    exists k :: 0 <= k < |wins| && wins[k].id == id && wins[k].event == Some(event)
  }

  ghost predicate Ledger(c: Config, t: Tables, wins: seq<Win>) {
    && (forall j, k :: 0 <= j < k < |wins| ==> wins[j].id != wins[k].id)
    && (forall k :: 0 <= k < |wins| ==> WinStands(t, wins[k]))
    && (forall id :: id in t.entitlements && t.entitlements[id].claimedBy.Some? ==> WonBy(wins, id))
    && (forall ev :: ev in t.outbox ==> QueuedBy(wins, ev, t.outbox[ev].entitlementId))
    && (c.claimServiceDelivers ==> forall k :: 0 <= k < |wins| ==> wins[k].event.Some?)
  }

  /** Nothing that has been read goes wrong later: the expiry is fixed, and so is a claimer once there is one. */
  ghost predicate StillTrue(t: Tables, found: Found) {
    && found.id in t.entitlements
    && found.row.expiresAt == t.entitlements[found.id].expiresAt
    && (found.row.claimedBy.Some? ==> t.entitlements[found.id].claimedBy == found.row.claimedBy)
  }

  ghost predicate Ready(found: Found, commonUserId: string, decidedAt: int, plan: Option<Plan>) {
    && found.row.purchaser == Some(commonUserId)
    && !PastDue(found.row, decidedAt)
    && (plan.Some? ==> QueuedFor(OutboxRow(found.id, plan.value.payload), plan.value.eventId, found.id, commonUserId))
  }

  ghost predicate PartyOk(c: Config, t: Tables, p: Party) {
    match p.phase
    case Looked(found) => StillTrue(t, found)
    case Deciding(found, _) => StillTrue(t, found)
    case Writing(found, _, plan, decidedAt, _) =>
      p.Buyer? && StillTrue(t, found) && Ready(found, p.commonUserId, decidedAt, plan)
      && (c.claimServiceDelivers ==> plan.Some?)
    case AutoLooked(found) => StillTrue(t, found)
    case AutoWriting(found, commonUserId, plan, decidedAt) =>
      StillTrue(t, found) && Ready(found, commonUserId, decidedAt, Some(plan))
    case _ => true
  }

  ghost predicate PartiesOk(c: Config, t: Tables, parties: seq<Party>) {
    forall i :: 0 <= i < |parties| ==> PartyOk(c, t, parties[i])
  }

  ghost predicate AnswerStands(t: Tables, a: Answer) {
    && a.id in t.entitlements
    && t.entitlements[a.id].claimedBy == Some(a.commonUserId)
    && (a.status.PubDelivered? || a.status.PubDeliveryPending?)
  }

  ghost predicate AnswersStand(t: Tables, answers: seq<Answer>) {
    forall i :: 0 <= i < |answers| ==> AnswerStands(t, answers[i])
  }

  ghost predicate Inv(c: Config, w: World) {
    && Ledger(c, w.tables, w.wins)
    && PartiesOk(c, w.tables, w.parties)
    && AnswersStand(w.tables, w.answers)
    && (forall n :: n in w.keys.notes && n.Succeeded? ==> !n.body.commonUserPending)
  }

  /** How the tables may move: rows, expiries, claimers and queued events stay; a claim is only ever revoked. */
  ghost predicate Evolves(t: Tables, t': Tables) {
    && (forall id :: id in t.entitlements ==> id in t'.entitlements && RowEvolves(t.entitlements[id], t'.entitlements[id]))
    && (forall ev :: ev in t.outbox ==> ev in t'.outbox && t'.outbox[ev] == t.outbox[ev])
  }

  ghost predicate RowEvolves(row: Entitlement, row': Entitlement) {
    && row'.expiresAt == row.expiresAt
    && (row.claimedBy.Some? ==> row'.claimedBy == row.claimedBy)
    && (row.status.Claimed? || row.status.Revoked? ==> row'.status.Claimed? || row'.status.Revoked?)
  }

  /** The surroundings leave the queue, the parties and the claimers alone. */
  ghost predicate MovesAround(w: World, w': World) {
    && Evolves(w.tables, w'.tables)
    && w'.tables.outbox == w.tables.outbox && w'.wins == w.wins && w'.parties == w.parties
    && w'.answers == w.answers && w'.keys == w.keys
    && (forall id :: id in w'.tables.entitlements && w'.tables.entitlements[id].claimedBy.Some? ==>
          id in w.tables.entitlements
          && w.tables.entitlements[id].claimedBy == w'.tables.entitlements[id].claimedBy)
  }

  lemma ChangeEvolves(w: World, id: string, row: Entitlement, tokens: map<string, string>, shown: set<(string, Snapshot)>)
    requires id in w.tables.entitlements ==>
               RowEvolves(w.tables.entitlements[id], row) && row.claimedBy == w.tables.entitlements[id].claimedBy
    requires id !in w.tables.entitlements ==> row.claimedBy.None?
    ensures MovesAround(w, Changed(w, id, row).(tokens := tokens, shown := shown))
  {
  }

  lemma SurroundingsEvolve(w: World, e: Event)
    ensures MovesAround(w, Surroundings(w, e))
  {
    var w' := Surroundings(w, e);
    if w' != w {
      ChangeEvolves(w, e.id, w'.tables.entitlements[e.id], w'.tokens, w'.shown);
      assert w' == Changed(w, e.id, w'.tables.entitlements[e.id]).(tokens := w'.tokens, shown := w'.shown);
    }
  }

  lemma ClaimEvolves(t: Tables, id: string, commonUserId: string, at: int, plan: Option<Plan>)
    requires id in t.entitlements && t.entitlements[id].claimedBy.None?
    ensures Evolves(t, ConfirmClaim(t, id, commonUserId, at, plan).0)
  {
  }

  lemma EvolvingKeepsWins(t: Tables, t': Tables, wins: seq<Win>)
    requires Evolves(t, t') && forall k :: 0 <= k < |wins| ==> WinStands(t, wins[k])
    ensures forall k :: 0 <= k < |wins| ==> WinStands(t', wins[k])
  {
    forall k | 0 <= k < |wins|
      ensures WinStands(t', wins[k])
    {
      assert WinStands(t, wins[k]);
      assert RowEvolves(t.entitlements[wins[k].id], t'.entitlements[wins[k].id]);
    }
  }

  lemma EvolvingKeepsParties(c: Config, t: Tables, t': Tables, parties: seq<Party>)
    requires Evolves(t, t') && PartiesOk(c, t, parties)
    ensures PartiesOk(c, t', parties)
  {
    forall i | 0 <= i < |parties|
      ensures PartyOk(c, t', parties[i])
    {
      assert PartyOk(c, t, parties[i]);
    }
  }

  lemma EvolvingKeepsAnswers(t: Tables, t': Tables, answers: seq<Answer>)
    requires Evolves(t, t') && AnswersStand(t, answers)
    ensures AnswersStand(t', answers)
  {
    forall i | 0 <= i < |answers|
      ensures AnswerStands(t', answers[i])
    {
      assert AnswerStands(t, answers[i]);
    }
  }

  lemma TablesMoveKeepsInv(c: Config, w: World, w': World)
    requires Inv(c, w) && Evolves(w.tables, w'.tables) && w'.tables.outbox == w.tables.outbox
    requires w'.wins == w.wins && w'.parties == w.parties && w'.answers == w.answers && w'.keys == w.keys
    requires forall id :: id in w'.tables.entitlements && w'.tables.entitlements[id].claimedBy.Some? ==>
               id in w.tables.entitlements && w.tables.entitlements[id].claimedBy.Some?
    ensures Inv(c, w')
  {
    EvolvingKeepsWins(w.tables, w'.tables, w.wins);
    EvolvingKeepsParties(c, w.tables, w'.tables, w.parties);
    EvolvingKeepsAnswers(w.tables, w'.tables, w.answers);
  }

  lemma SurroundingsKeepInv(c: Config, w: World, e: Event)
    requires Inv(c, w)
    ensures Inv(c, Surroundings(w, e))
  {
    SurroundingsEvolve(w, e);
    TablesMoveKeepsInv(c, w, Surroundings(w, e));
  }

  lemma UnclaimedWhileIssued(c: Config, t: Tables, wins: seq<Win>, id: string)
    requires Ledger(c, t, wins) && id in t.entitlements && t.entitlements[id].status.Issued?
    ensures t.entitlements[id].claimedBy.None? && !WonBy(wins, id)
  {
  }

  lemma LedgerGrows(c: Config, t: Tables, t': Tables, wins: seq<Win>, n: Win)
    requires Ledger(c, t, wins) && !WonBy(wins, n.id)
    requires Evolves(t, t') && WinStands(t', n) && (c.claimServiceDelivers ==> n.event.Some?)
    requires forall id :: id in t'.entitlements && t'.entitlements[id].claimedBy.Some? ==>
               id == n.id || (id in t.entitlements && t.entitlements[id].claimedBy.Some?)
    requires forall ev :: ev in t'.outbox ==> ev in t.outbox || n.event == Some(ev)
    ensures Ledger(c, t', wins + [n])
  {
    var wins' := wins + [n];
    EvolvingKeepsWins(t, t', wins);
    assert wins'[|wins|] == n;
    forall k | 0 <= k < |wins|
      ensures wins'[k] == wins[k] && wins[k].id != n.id
    {
    }
    forall id | id in t'.entitlements && t'.entitlements[id].claimedBy.Some?
      ensures WonBy(wins', id)
    {
      if id != n.id {
        var k :| 0 <= k < |wins| && wins[k].id == id;
        assert wins'[k].id == id;
      }
    }
    forall ev | ev in t'.outbox
      ensures QueuedBy(wins', ev, t'.outbox[ev].entitlementId)
    {
      if ev in t.outbox {
        var k :| 0 <= k < |wins| && wins[k].id == t.outbox[ev].entitlementId && wins[k].event == Some(ev);
        assert wins'[k].id == t'.outbox[ev].entitlementId && wins'[k].event == Some(ev);
      }
    }
  }

  /** A committed claim extends the ledger, and never an entitlement that is in it already. */
  lemma WinningKeepsLedger(
    c: Config, t: Tables, wins: seq<Win>, found: Found, commonUserId: string, plan: Option<Plan>, decidedAt: int, at: int)
    requires Ledger(c, t, wins) && StillTrue(t, found) && Ready(found, commonUserId, decidedAt, plan)
    requires c.claimServiceDelivers ==> plan.Some?
    requires ConfirmClaim(t, found.id, commonUserId, at, plan).1.Won?
    ensures var t' := ConfirmClaim(t, found.id, commonUserId, at, plan).0;
            var event := if plan.Some? then Some(plan.value.eventId) else None;
            Ledger(c, t', wins + [Win(found.id, commonUserId, event, decidedAt)]) && Evolves(t, t')
            && t'.entitlements[found.id].claimedBy == Some(commonUserId)
  {
    var t' := ConfirmClaim(t, found.id, commonUserId, at, plan).0;
    var event := if plan.Some? then Some(plan.value.eventId) else None;
    UnclaimedWhileIssued(c, t, wins, found.id);
    ClaimEvolves(t, found.id, commonUserId, at, plan);
    LedgerGrows(c, t, t', wins, Win(found.id, commonUserId, event, decidedAt));
  }

  ghost predicate NothingPendingKept(keys: I.World<Digest, Confirmation>) {
    forall n :: n in keys.notes && n.Succeeded? ==> !n.body.commonUserPending
  }

  lemma KeyStepKeepsNothingPending(keys: I.World<Digest, Confirmation>, e: I.Event<Digest, Confirmation>)
    requires NothingPendingKept(keys)
    requires e.BodyEnds? && e.result.Recorded? ==> !e.result.body.commonUserPending
    ensures NothingPendingKept(I.Next(keys, e))
  {
    var keys' := I.Next(keys, e);
    forall n | n in keys'.notes && n.Succeeded?
      ensures !n.body.commonUserPending
    {
      assert n in keys.notes || (e.BodyEnds? && e.result.Recorded? && n.body == e.result.body);
    }
  }

  /** One party moves on; the tables are left alone. */
  lemma PartyMoveKeepsInv(c: Config, w: World, w': World, who: nat)
    requires Inv(c, w) && who < |w.parties| && NothingPendingKept(w'.keys)
    requires w'.tables == w.tables && w'.wins == w.wins
    requires |w'.parties| == |w.parties| && w'.parties == w.parties[who := w'.parties[who]] && PartyOk(c, w.tables, w'.parties[who])
    requires w'.answers == w.answers || (|w'.answers| == |w.answers| + 1 && w'.answers == w.answers + w'.answers[|w.answers|..]
                                         && AnswerStands(w.tables, w'.answers[|w.answers|]))
    ensures Inv(c, w')
  {
    forall i | 0 <= i < |w'.parties|
      ensures PartyOk(c, w'.tables, w'.parties[i])
    {
      assert i != who ==> w'.parties[i] == w.parties[i];
    }
    forall i | 0 <= i < |w'.answers|
      ensures AnswerStands(w'.tables, w'.answers[i])
    {
      assert i < |w.answers| ==> w'.answers[i] == w.answers[i];
    }
  }

  lemma NewPartyKeepsInv(c: Config, w: World, w': World)
    requires Inv(c, w) && w'.tables == w.tables && w'.wins == w.wins && w'.answers == w.answers && w'.keys == w.keys
    requires |w'.parties| == |w.parties| + 1 && w'.parties[..|w.parties|] == w.parties
    requires PartyOk(c, w.tables, w'.parties[|w.parties|])
    ensures Inv(c, w')
  {
    forall i | 0 <= i < |w'.parties|
      ensures PartyOk(c, w'.tables, w'.parties[i])
    {
      assert i < |w.parties| ==> w'.parties[i] == w.parties[i];
    }
  }

  lemma BodyEndKeepsKeys(w: World, who: nat, holder: nat, outcome: Result<Confirmation, ClaimError>)
    requires who < |w.parties| && NothingPendingKept(w.keys)
    ensures NothingPendingKept(BodyEnded(w, who, holder, outcome).keys)
  {
    var ended :=
      match outcome
      case Err(_) => I.Failed
      case Ok(c) => if c.commonUserPending then I.Unrecorded(c) else I.Recorded(c);
    KeyStepKeepsNothingPending(w.keys, I.BodyEnds(holder, ended));
  }

  lemma PlanIsForTheClaimer(
    a: Addresses, generatedId: string, id: string, commonUserId: string, correlationId: string, s: Snapshot, now: int)
    requires PlanDelivery(a, generatedId, id, commonUserId, correlationId, s, now).Ok?
    ensures var p := PlanDelivery(a, generatedId, id, commonUserId, correlationId, s, now).value;
            QueuedFor(OutboxRow(id, p.payload), p.eventId, id, commonUserId)
  {
  }

  lemma DecideKeepsInv(
    c: Config, w: World, who: nat, decidedAt: int, plannedAt: int, generatedId: string, correlationId: string)
    requires Inv(c, w) && who < |w.parties| && w.parties[who].Buyer? && w.parties[who].phase.Deciding?
    ensures Inv(c, StepDecide(c, w, who, decidedAt, plannedAt, generatedId, correlationId))
  {
    var p := w.parties[who];
    var found, holder := p.phase.found, p.phase.holder;
    assert PartyOk(c, w.tables, p);
    forall outcome {
      BodyEndKeepsKeys(w, who, holder, outcome);
    }
    match EvaluateWalletClaim(found.row, p.commonUserId, decidedAt)
    case Ok(AlreadyClaimed(_)) => AlreadyClaimedIsTheClaimer(found.row, p.commonUserId, decidedAt);
    case Ok(MayClaim) =>
      if c.claimServiceDelivers
         && PlanDelivery(c.addresses, generatedId, found.id, p.commonUserId, correlationId, found.row.snapshot, plannedAt).Ok?
      {
        PlanIsForTheClaimer(c.addresses, generatedId, found.id, p.commonUserId, correlationId, found.row.snapshot, plannedAt);
      }
    case _ =>
    PartyMoveKeepsInv(c, w, StepDecide(c, w, who, decidedAt, plannedAt, generatedId, correlationId), who);
  }

  lemma BeginKeepsInv(c: Config, w: World, who: nat, now: int)
    requires Inv(c, w) && Enabled(w, Begin(who, now))
    ensures Inv(c, StepBegin(w, who, now))
  {
    var p := w.parties[who];
    assert PartyOk(c, w.tables, p);
    KeyStepKeepsNothingPending(w.keys, I.Arrive(I.Slot(p.phase.found.row.accountId, p.key),
                                                Digest(p.tokenHash, p.commonUserId), now));
    PartyMoveKeepsInv(c, w, StepBegin(w, who, now), who);
  }

  lemma CommitKeepsInv(c: Config, w: World, who: nat, write: Write)
    requires Inv(c, w) && Enabled(w, Commit(who, write))
    ensures Inv(c, StepCommit(w, who, write))
  {
    var p := w.parties[who];
    var Writing(found, holder, plan, decidedAt, at) := p.phase;
    assert PartyOk(c, w.tables, p);
    forall outcome {
      BodyEndKeepsKeys(w, who, holder, outcome);
    }
    var (t', outcome) := ConfirmClaim(w.tables, found.id, p.commonUserId, at, plan);
    if write.Down? || !outcome.Won? {
      PartyMoveKeepsInv(c, w, StepCommit(w, who, write), who);
    } else {
      WinningKeepsLedger(c, w.tables, w.wins, found, p.commonUserId, plan, decidedAt, at);
      EvolvingKeepsParties(c, w.tables, t', w.parties);
      EvolvingKeepsAnswers(w.tables, t', w.answers);
      var event := if plan.Some? then Some(plan.value.eventId) else None;
      var won := w.(tables := t', wins := w.wins + [Win(found.id, p.commonUserId, event, decidedAt)]);
      assert Inv(c, won);
      BodyEndKeepsKeys(won, who, holder, if write.LostReply? then Err(Unavailable) else Ok(Confirmation(PubDeliveryPending, false)));
      PartyMoveKeepsInv(c, won, StepCommit(w, who, write), who);
    }
  }

  lemma RereadKeepsInv(c: Config, w: World, who: nat, up: bool)
    requires Inv(c, w) && Enabled(w, Reread(who, up))
    ensures Inv(c, StepReread(w, who, up))
  {
    forall outcome {
      BodyEndKeepsKeys(w, who, w.parties[who].phase.holder, outcome);
    }
    PartyMoveKeepsInv(c, w, StepReread(w, who, up), who);
  }

  lemma SettleKeepsInv(c: Config, w: World, who: nat, stored: bool)
    requires Inv(c, w) && Enabled(w, Settle(who, stored))
    ensures Inv(c, StepSettle(w, who, stored))
  {
    KeyStepKeepsNothingPending(w.keys, I.Settle(w.parties[who].phase.holder, 202, stored));
    PartyMoveKeepsInv(c, w, StepSettle(w, who, stored), who);
  }

  lemma AutoDecideKeepsInv(c: Config, w: World, who: nat, decidedAt: int, generatedId: string, correlationId: string)
    requires Inv(c, w) && Enabled(w, AutoDecide(who, decidedAt, generatedId, correlationId))
    ensures Inv(c, StepAutoDecide(c, w, who, decidedAt, generatedId, correlationId))
  {
    var found := w.parties[who].phase.found;
    assert PartyOk(c, w.tables, w.parties[who]);
    var decision := EvaluateAutoDelivery(found.row, decidedAt);
    if decision.Deliver? {
      BothWaysAgree(found.row, decision.commonUserId, decidedAt);
      if PlanDelivery(c.addresses, generatedId, found.id, decision.commonUserId, correlationId, found.row.snapshot, decidedAt).Ok? {
        PlanIsForTheClaimer(c.addresses, generatedId, found.id, decision.commonUserId, correlationId, found.row.snapshot, decidedAt);
      }
    }
    PartyMoveKeepsInv(c, w, StepAutoDecide(c, w, who, decidedAt, generatedId, correlationId), who);
  }

  lemma AutoCommitKeepsInv(c: Config, w: World, who: nat, write: Write)
    requires Inv(c, w) && Enabled(w, AutoCommit(who, write))
    ensures Inv(c, StepAutoCommit(w, who, write))
  {
    var AutoWriting(found, commonUserId, plan, decidedAt) := w.parties[who].phase;
    assert PartyOk(c, w.tables, w.parties[who]);
    var (t', outcome) := ConfirmClaim(w.tables, found.id, commonUserId, decidedAt, Some(plan));
    if write.Down? || !outcome.Won? {
      PartyMoveKeepsInv(c, w, StepAutoCommit(w, who, write), who);
    } else {
      WinningKeepsLedger(c, w.tables, w.wins, found, commonUserId, Some(plan), decidedAt, decidedAt);
      EvolvingKeepsParties(c, w.tables, t', w.parties);
      EvolvingKeepsAnswers(w.tables, t', w.answers);
      var won := w.(tables := t', wins := w.wins + [Win(found.id, commonUserId, Some(plan.eventId), decidedAt)]);
      assert Inv(c, won);
      PartyMoveKeepsInv(c, won, StepAutoCommit(w, who, write), who);
    }
  }

  lemma CrashKeepsInv(c: Config, w: World, who: nat)
    requires Inv(c, w) && Enabled(w, Crash(who))
    ensures Inv(c, StepCrash(w, who))
  {
    var p := w.parties[who];
    if Holding(p) {
      KeyStepKeepsNothingPending(w.keys, I.Crash(p.phase.holder));
    }
    PartyMoveKeepsInv(c, w, StepCrash(w, who), who);
  }

  predicate IsBuyerStep(e: Event) {
    e.Lookup? || e.Begin? || e.Decide? || e.Commit? || e.Reread? || e.Settle?
  }

  predicate IsMachineStep(e: Event) {
    e.AutoLookup? || e.AutoDecide? || e.AutoCommit? || e.Crash?
  }

  lemma BuyerStepKeepsInv(c: Config, w: World, e: Event)
    requires Inv(c, w) && Enabled(w, e) && IsBuyerStep(e)
    ensures Inv(c, Next(c, w, e))
  {
    match e
    case Lookup(tokenHash, commonUserId, key) => NewPartyKeepsInv(c, w, StepLookup(w, tokenHash, commonUserId, key));
    case Begin(who, now) => BeginKeepsInv(c, w, who, now);
    case Decide(who, decidedAt, plannedAt, generatedId, correlationId) =>
      DecideKeepsInv(c, w, who, decidedAt, plannedAt, generatedId, correlationId);
    case Commit(who, write) => CommitKeepsInv(c, w, who, write);
    case Reread(who, up) => RereadKeepsInv(c, w, who, up);
    case Settle(who, stored) => SettleKeepsInv(c, w, who, stored);
  }

  lemma MachineStepKeepsInv(c: Config, w: World, e: Event)
    requires Inv(c, w) && Enabled(w, e) && IsMachineStep(e)
    ensures Inv(c, Next(c, w, e))
  {
    match e
    case AutoLookup(id) => NewPartyKeepsInv(c, w, StepAutoLookup(w, id));
    case AutoDecide(who, decidedAt, generatedId, correlationId) =>
      AutoDecideKeepsInv(c, w, who, decidedAt, generatedId, correlationId);
    case AutoCommit(who, write) => AutoCommitKeepsInv(c, w, who, write);
    case Crash(who) => CrashKeepsInv(c, w, who);
  }

  lemma StepKeepsInv(c: Config, w: World, e: Event)
    requires Inv(c, w)
    ensures Inv(c, Next(c, w, e))
  {
    if Enabled(w, e) {
      if IsBuyerStep(e) {
        BuyerStepKeepsInv(c, w, e);
      } else if IsMachineStep(e) {
        MachineStepKeepsInv(c, w, e);
      } else {
        SurroundingsKeepInv(c, w, e);
      }
    }
  }

  lemma {:induction false} RunKeepsInv(c: Config, w: World, es: seq<Event>)
    requires Inv(c, w)
    ensures Inv(c, Run(c, w, es))
    decreases |es|
  {
    if es != [] {
      StepKeepsInv(c, w, es[0]);
      RunKeepsInv(c, Next(c, w, es[0]), es[1..]);
    }
  }

  // --- one claim, one delivery ----------------------------------------------------------

  function GrantedFor(t: Tables, id: string): set<string> {
    set ev | ev in t.outbox && t.outbox[ev].entitlementId == id
  }

  /**
   However confirmations and automatic deliveries interleave, with crashes and lost replies,
   an entitlement is claimed at most once, its claimer is the winner for good, and it has at
   most one delivery queued, addressed to that claimer.
   */
  lemma AtMostOneClaim(c: Config, clock: int, es: seq<Event>)
    ensures var w := Run(c, Start(clock), es);
            && (forall j, k :: 0 <= j < k < |w.wins| ==> w.wins[j].id != w.wins[k].id)
            && (forall k :: 0 <= k < |w.wins| ==> WinStands(w.tables, w.wins[k]))
            && (forall id :: id in w.tables.entitlements && w.tables.entitlements[id].claimedBy.Some? ==> WonBy(w.wins, id))
            && (forall ev, ev' | ev in w.tables.outbox && ev' in w.tables.outbox ::
                  w.tables.outbox[ev].entitlementId == w.tables.outbox[ev'].entitlementId ==> ev == ev')
  {
    RunKeepsInv(c, Start(clock), es);
    var w := Run(c, Start(clock), es);
    forall ev, ev' | ev in w.tables.outbox && ev' in w.tables.outbox
                     && w.tables.outbox[ev].entitlementId == w.tables.outbox[ev'].entitlementId
      ensures ev == ev'
    {
      var id := w.tables.outbox[ev].entitlementId;
      assert QueuedBy(w.wins, ev, id) && QueuedBy(w.wins, ev', id);
      var j :| 0 <= j < |w.wins| && w.wins[j].id == id && w.wins[j].event == Some(ev);
      var k :| 0 <= k < |w.wins| && w.wins[k].id == id && w.wins[k].event == Some(ev');
      assert !(j < k) && !(k < j);
    }
  }

  lemma QueuedMeansClaimed(c: Config, t: Tables, wins: seq<Win>, ev: string)
    requires Ledger(c, t, wins) && ev in t.outbox
    ensures var id := t.outbox[ev].entitlementId; id in t.entitlements && t.entitlements[id].claimedBy.Some?
  {
    var k :| 0 <= k < |wins| && wins[k].id == t.outbox[ev].entitlementId && wins[k].event == Some(ev);
    assert WinStands(t, wins[k]);
  }

  lemma LedgerCountsDeliveries(c: Config, t: Tables, wins: seq<Win>, id: string)
    requires Ledger(c, t, wins) && c.claimServiceDelivers
    ensures |GrantedFor(t, id)| == (if id in t.entitlements && t.entitlements[id].claimedBy.Some? then 1 else 0)
  {
    if id in t.entitlements && t.entitlements[id].claimedBy.Some? {
      var k :| 0 <= k < |wins| && wins[k].id == id;
      assert WinStands(t, wins[k]);
      forall ev | ev in t.outbox && t.outbox[ev].entitlementId == id
        ensures ev == wins[k].event.value
      {
        var j :| 0 <= j < |wins| && wins[j].id == id && wins[j].event == Some(ev);
        assert !(j < k) && !(k < j);
      }
      assert GrantedFor(t, id) == {wins[k].event.value};
    } else {
      forall ev | ev in t.outbox
        ensures t.outbox[ev].entitlementId != id
      {
        QueuedMeansClaimed(c, t, wins, ev);
      }
      assert GrantedFor(t, id) == {};
    }
  }

  /**
   With delivery enabled, exactly one granted event is queued for an entitlement that was ever
   claimed, and none for one that was not, including when building the event fails.
   */
  lemma ExactlyOneDelivery(c: Config, clock: int, es: seq<Event>, id: string)
    requires c.claimServiceDelivers
    ensures var t := Run(c, Start(clock), es).tables;
            |GrantedFor(t, id)| == (if id in t.entitlements && t.entitlements[id].claimedBy.Some? then 1 else 0)
  {
    RunKeepsInv(c, Start(clock), es);
    LedgerCountsDeliveries(c, Run(c, Start(clock), es).tables, Run(c, Start(clock), es).wins, id);
  }

  lemma ClaimerMeansClaimedOrRevoked(c: Config, t: Tables, wins: seq<Win>, id: string)
    requires Ledger(c, t, wins) && id in t.entitlements && t.entitlements[id].claimedBy.Some?
    ensures t.entitlements[id].status.Claimed? || t.entitlements[id].status.Revoked?
  {
    var k :| 0 <= k < |wins| && wins[k].id == id;
    assert WinStands(t, wins[k]);
  }

  /** The answer a step adds, and what its status was taken from. */
  ghost predicate AnswerTakenFrom(w: World, w': World, e: Event, a: Answer) {
    && w'.answers == w.answers + [a]
    && (e.Decide? || e.Commit? || e.Reread?) && Enabled(w, e)
    && a.tokenHash == w.parties[e.who].tokenHash && a.commonUserId == w.parties[e.who].commonUserId
    && (e.Decide? ==>
          var found := w.parties[e.who].phase.found;
          a.id == found.id && found.row.status.Claimed? && a.status == ToPublicStatus(Claimed, found.row.delivery))
    && (!e.Decide? ==>
          a.id in w'.tables.entitlements && w'.tables.entitlements[a.id].status.Claimed?
          && a.status == ToPublicStatus(Claimed, w'.tables.entitlements[a.id].delivery))
  }

  lemma NewAnswer(c: Config, w: World, e: Event)
    requires |Next(c, w, e).answers| > |w.answers|
    ensures AnswerTakenFrom(w, Next(c, w, e), e, Next(c, w, e).answers[|w.answers|])
  {
    if !IsBuyerStep(e) && !IsMachineStep(e) {
      SurroundingsEvolve(w, e);
    } else if e.Decide? {
      var p := w.parties[e.who];
      if EvaluateWalletClaim(p.phase.found.row, p.commonUserId, e.decidedAt).Ok?
         && EvaluateWalletClaim(p.phase.found.row, p.commonUserId, e.decidedAt).value.AlreadyClaimed?
      {
        AlreadyClaimedIsTheClaimer(p.phase.found.row, p.commonUserId, e.decidedAt);
      }
    }
  }

  /**
   Every success worked out for a buyer that is not "pending" names an entitlement whose
   claimer is exactly that buyer, from the moment it is worked out on. It is still `claimed` at
   that moment unless it was revoked after the row the answer rests on was read.
   */
  lemma SuccessIsTheClaimers(c: Config, w: World, e: Event)
    requires Inv(c, w) && |Next(c, w, e).answers| > |w.answers|
    ensures var w' := Next(c, w, e);
            var a := w'.answers[|w.answers|];
            && AnswerTakenFrom(w, w', e, a)
            && a.id in w'.tables.entitlements
            && w'.tables.entitlements[a.id].claimedBy == Some(a.commonUserId)
            && (w'.tables.entitlements[a.id].status.Claimed? || w'.tables.entitlements[a.id].status.Revoked?)
  {
    StepKeepsInv(c, w, e);
    NewAnswer(c, w, e);
    var w' := Next(c, w, e);
    assert AnswerStands(w'.tables, w'.answers[|w.answers|]);
    ClaimerMeansClaimedOrRevoked(c, w'.tables, w'.wins, w'.answers[|w.answers|].id);
  }

  /** At whatever point of whatever run it is worked out. */
  lemma SuccessIsTheClaimersInEveryRun(c: Config, clock: int, es: seq<Event>, n: nat)
    requires n < |es|
    ensures var w := Run(c, Start(clock), es[..n]);
            var w' := Next(c, w, es[n]);
            |w'.answers| > |w.answers| ==>
              var a := w'.answers[|w.answers|];
              && AnswerTakenFrom(w, w', es[n], a)
              && a.id in w'.tables.entitlements
              && w'.tables.entitlements[a.id].claimedBy == Some(a.commonUserId)
              && (w'.tables.entitlements[a.id].status.Claimed? || w'.tables.entitlements[a.id].status.Revoked?)
  {
    var w := Run(c, Start(clock), es[..n]);
    RunKeepsInv(c, Start(clock), es[..n]);
    if |Next(c, w, es[n]).answers| > |w.answers| {
      SuccessIsTheClaimers(c, w, es[n]);
    }
  }

  lemma {:induction false} AnswersStandForGood(c: Config, clock: int, es: seq<Event>)
    ensures AnswersStand(Run(c, Start(clock), es).tables, Run(c, Start(clock), es).answers)
  {
    RunKeepsInv(c, Start(clock), es);
  }

  // --- tokens ---------------------------------------------------------------------------

  /** This token was issued for this entitlement. */
  ghost predicate NamedBy(w: World, tokenHash: string, id: string) {
    tokenHash in w.tokens && w.tokens[tokenHash] == id
  }

  /** Every token in use was issued for the entitlement that has it, and so belongs to one only. */
  ghost predicate TokensUnique(w: World) {
    && (forall id :: id in w.tables.entitlements ==> NamedBy(w, w.tables.entitlements[id].tokenHash, id))
    && (forall a, b | a in w.tables.entitlements && b in w.tables.entitlements ::
          w.tables.entitlements[a].tokenHash == w.tables.entitlements[b].tokenHash ==> a == b)
  }

  ghost predicate SameTokens(t: Tables, t': Tables) {
    && t'.entitlements.Keys == t.entitlements.Keys
    && forall id :: id in t.entitlements ==> t'.entitlements[id].tokenHash == t.entitlements[id].tokenHash
  }

  lemma ClaimKeepsTokens(t: Tables, id: string, commonUserId: string, at: int, plan: Option<Plan>)
    ensures SameTokens(t, ConfirmClaim(t, id, commonUserId, at, plan).0)
  {
  }

  lemma CommitLeavesTables(w: World, who: nat, write: Write)
    requires Enabled(w, Commit(who, write))
    ensures var p, w' := w.parties[who], StepCommit(w, who, write);
            && (w'.tables == w.tables
                || w'.tables == ConfirmClaim(w.tables, p.phase.found.id, p.commonUserId, p.phase.at, p.phase.plan).0)
            && w'.tokens == w.tokens && w'.shown == w.shown
  {
  }

  lemma BuyerCommitKeepsTokens(w: World, who: nat, write: Write)
    requires Enabled(w, Commit(who, write))
    ensures SameTokens(w.tables, StepCommit(w, who, write).tables) && StepCommit(w, who, write).tokens == w.tokens
    ensures StepCommit(w, who, write).shown == w.shown
  {
    var p := w.parties[who];
    CommitLeavesTables(w, who, write);
    ClaimKeepsTokens(w.tables, p.phase.found.id, p.commonUserId, p.phase.at, p.phase.plan);
  }

  lemma AutoCommitKeepsTokens(w: World, who: nat, write: Write)
    requires Enabled(w, AutoCommit(who, write))
    ensures SameTokens(w.tables, StepAutoCommit(w, who, write).tables) && StepAutoCommit(w, who, write).tokens == w.tokens
    ensures StepAutoCommit(w, who, write).shown == w.shown
  {
    var phase := w.parties[who].phase;
    ClaimKeepsTokens(w.tables, phase.found.id, phase.commonUserId, phase.decidedAt, Some(phase.event));
  }

  lemma CommitKeepsTokens(c: Config, w: World, e: Event)
    requires e.Commit? || e.AutoCommit?
    ensures SameTokens(w.tables, Next(c, w, e).tables) && Next(c, w, e).tokens == w.tokens
    ensures Next(c, w, e).shown == w.shown
  {
    if !Enabled(w, e) {
    } else if e.Commit? {
      BuyerCommitKeepsTokens(w, e.who, e.write);
    } else {
      AutoCommitKeepsTokens(w, e.who, e.write);
    }
  }

  lemma OthersKeepTables(c: Config, w: World, e: Event)
    requires (IsBuyerStep(e) || IsMachineStep(e)) && !e.Commit? && !e.AutoCommit?
    ensures Next(c, w, e).tables == w.tables && Next(c, w, e).tokens == w.tokens && Next(c, w, e).shown == w.shown
  {
  }

  lemma SurroundingsKeepTokens(w: World, e: Event)
    requires TokensUnique(w)
    ensures TokensUnique(Surroundings(w, e))
  {
  }

  lemma StepKeepsTokensUnique(c: Config, w: World, e: Event)
    requires TokensUnique(w)
    ensures TokensUnique(Next(c, w, e))
  {
    if e.Commit? || e.AutoCommit? {
      CommitKeepsTokens(c, w, e);
    } else if IsBuyerStep(e) || IsMachineStep(e) {
      OthersKeepTables(c, w, e);
    } else {
      SurroundingsKeepTokens(w, e);
    }
  }

  /** A reissued or new token is never one that was in use before, so a token names one entitlement. */
  lemma {:induction false} RunKeepsTokensUnique(c: Config, w: World, es: seq<Event>)
    requires TokensUnique(w)
    ensures TokensUnique(Run(c, w, es))
    decreases |es|
  {
    if es != [] {
      StepKeepsTokensUnique(c, w, es[0]);
      RunKeepsTokensUnique(c, Next(c, w, es[0]), es[1..]);
    }
  }

  // --- the keys -------------------------------------------------------------------------

  function ArrivalOf(w: World, who: nat, now: int): I.Event<Digest, Confirmation>
    requires who < |w.parties| && w.parties[who].Buyer? && w.parties[who].phase.Looked?
  {
    var p := w.parties[who];
    I.Arrive(I.Slot(p.phase.found.row.accountId, p.key), Digest(p.tokenHash, p.commonUserId), now)
  }

  /** No claimer arrives for a key whose holder outlived it, and the clock does not go back. */
  ghost predicate Orderly(w: World, e: Event) {
    e.Begin? && Enabled(w, e) ==>
      I.Timely(w.keys, ArrivalOf(w, e.who, e.now)) && I.Forward(w.keys, ArrivalOf(w, e.who, e.now))
  }

  ghost predicate OrderlyRun(c: Config, w: World, es: seq<Event>)
    decreases |es|
  {
    es == [] || (Orderly(w, es[0]) && OrderlyRun(c, Next(c, w, es[0]), es[1..]))
  }

  ghost predicate KeysMoveBy(w: World, e: Event, keys': I.World<Digest, Confirmation>, k: I.Event<Digest, Confirmation>) {
    keys' == I.Next(w.keys, k) && (k.Arrive? ==> e.Begin? && Enabled(w, e) && k == ArrivalOf(w, e.who, e.now))
  }

  function EndOf(outcome: Result<Confirmation, ClaimError>): I.BodyResult<Confirmation> {
    match outcome
    case Err(_) => I.Failed
    case Ok(c) => if c.commonUserPending then I.Unrecorded(c) else I.Recorded(c)
  }

  function BodyEvent(w: World, who: nat): I.Event<Digest, Confirmation>
    requires who < |w.parties|
  {
    if w.parties[who].phase.Settling?
    then I.BodyEnds(w.parties[who].phase.holder, EndOf(w.parties[who].phase.outcome))
    else I.Crash(0)
  }

  lemma DecideMovesKeys(c: Config, w: World, e: Event)
    requires e.Decide? && Enabled(w, e)
    ensures Next(c, w, e).keys == w.keys || KeysMoveBy(w, e, Next(c, w, e).keys, BodyEvent(Next(c, w, e), e.who))
  {
  }

  lemma CommitMovesKeys(c: Config, w: World, e: Event)
    requires e.Commit? && Enabled(w, e)
    ensures Next(c, w, e).keys == w.keys || KeysMoveBy(w, e, Next(c, w, e).keys, BodyEvent(Next(c, w, e), e.who))
  {
  }

  lemma RereadMovesKeys(c: Config, w: World, e: Event)
    requires e.Reread? && Enabled(w, e)
    ensures KeysMoveBy(w, e, Next(c, w, e).keys, BodyEvent(Next(c, w, e), e.who))
  {
  }

  /** Seen from the keys, every run of claims is a run of the idempotency protocol. */
  lemma ClaimsFollowIdempotency(c: Config, w: World, e: Event)
    ensures Next(c, w, e).keys == w.keys || exists k :: KeysMoveBy(w, e, Next(c, w, e).keys, k)
  {
    if !Enabled(w, e) {
    } else if e.Begin? {
      assert KeysMoveBy(w, e, Next(c, w, e).keys, ArrivalOf(w, e.who, e.now));
    } else if e.Decide? {
      DecideMovesKeys(c, w, e);
    } else if e.Commit? {
      CommitMovesKeys(c, w, e);
    } else if e.Reread? {
      RereadMovesKeys(c, w, e);
    } else if e.Settle? {
      assert KeysMoveBy(w, e, Next(c, w, e).keys, I.Settle(w.parties[e.who].phase.holder, 202, e.stored));
    } else if e.Crash? {
      if Holding(w.parties[e.who]) {
        assert KeysMoveBy(w, e, Next(c, w, e).keys, I.Crash(w.parties[e.who].phase.holder));
      }
    } else {
      SurroundingsEvolve(w, e);
    }
  }

  lemma {:induction false} ClaimsKeepKeyHistory(c: Config, w: World, es: seq<Event>)
    requires I.HistoryInv(w.keys) && OrderlyRun(c, w, es)
    ensures I.HistoryInv(Run(c, w, es).keys)
    decreases |es|
  {
    if es != [] {
      var w' := Next(c, w, es[0]);
      ClaimsFollowIdempotency(c, w, es[0]);
      if w'.keys != w.keys {
        var k :| KeysMoveBy(w, es[0], w'.keys, k);
        I.StepKeepsHistory(w.keys, k);
      }
      ClaimsKeepKeyHistory(c, w', es[1..]);
    }
  }

  // --- who holds which key --------------------------------------------------------------

  predicate HolderOk(keys: I.World<Digest, Confirmation>, p: Party)
    requires Holding(p)
  {
    && p.phase.holder < |keys.requests|
    && var r := keys.requests[p.phase.holder];
       r.slot.key == p.key && r.digest == Digest(p.tokenHash, p.commonUserId)
       && (if p.phase.Settling? then r.phase.Ended? && r.phase.result == EndOf(p.phase.outcome) else r.phase.Running?)
  }

  ghost predicate HoldersOk(w: World) {
    && (forall i :: 0 <= i < |w.parties| && Holding(w.parties[i]) ==> HolderOk(w.keys, w.parties[i]))
    && (forall i, j :: 0 <= i < j < |w.parties| && Holding(w.parties[i]) && Holding(w.parties[j]) ==>
          w.parties[i].phase.holder != w.parties[j].phase.holder)
  }

  /** One party moves, and only its own key use with it. */
  ghost predicate OnlyOwnKey(w: World, w': World, who: nat)
    requires who < |w.parties|
  {
    && |w'.parties| == |w.parties| && w'.parties == w.parties[who := w'.parties[who]]
    && |w.keys.requests| <= |w'.keys.requests|
    && (forall h :: 0 <= h < |w.keys.requests| && !(Holding(w.parties[who]) && h == w.parties[who].phase.holder) ==>
          w'.keys.requests[h] == w.keys.requests[h])
    && (Holding(w'.parties[who]) ==>
          HolderOk(w'.keys, w'.parties[who])
          && (w'.parties[who].phase.holder >= |w.keys.requests|
              || (Holding(w.parties[who]) && w'.parties[who].phase.holder == w.parties[who].phase.holder)))
  }

  lemma OwnKeyKeepsHolders(w: World, w': World, who: nat)
    requires HoldersOk(w) && who < |w.parties| && OnlyOwnKey(w, w', who)
    ensures HoldersOk(w')
  {
    forall i | 0 <= i < |w'.parties| && Holding(w'.parties[i])
      ensures HolderOk(w'.keys, w'.parties[i])
    {
      if i != who {
        assert w'.parties[i] == w.parties[i] && HolderOk(w.keys, w.parties[i]);
      }
    }
  }

  lemma BodyEndIsOwnKey(w: World, who: nat, outcome: Result<Confirmation, ClaimError>)
    requires who < |w.parties| && Holding(w.parties[who]) && HolderOk(w.keys, w.parties[who])
    requires !w.parties[who].phase.Settling?
    ensures OnlyOwnKey(w, BodyEnded(w, who, w.parties[who].phase.holder, outcome), who)
  {
  }

  lemma BeginIsOwnKey(c: Config, w: World, e: Event)
    requires HoldersOk(w) && Enabled(w, e) && e.Begin?
    ensures OnlyOwnKey(w, Next(c, w, e), e.who)
  {
  }

  lemma DecideIsOwnKey(c: Config, w: World, e: Event)
    requires HoldersOk(w) && Enabled(w, e) && e.Decide?
    ensures OnlyOwnKey(w, Next(c, w, e), e.who)
  {
    assert HolderOk(w.keys, w.parties[e.who]);
    forall outcome {
      BodyEndIsOwnKey(w, e.who, outcome);
    }
  }

  lemma CommitMovesOwnKey(c: Config, w: World, e: Event)
    requires Enabled(w, e) && e.Commit?
    ensures var holder := w.parties[e.who].phase.holder;
            var (w', p') := (Next(c, w, e), Next(c, w, e).parties[e.who]);
            w'.parties == w.parties[e.who := p']
            && if p'.phase.Settling?
               then var ended := BodyEnded(w, e.who, holder, p'.phase.outcome);
                    w'.parties == ended.parties && w'.keys == ended.keys
               else p' == w.parties[e.who].(phase := Rereading(holder)) && w'.keys == w.keys
  {
  }

  lemma CommitIsOwnKey(c: Config, w: World, e: Event)
    requires HoldersOk(w) && Enabled(w, e) && e.Commit?
    ensures OnlyOwnKey(w, Next(c, w, e), e.who)
  {
    assert HolderOk(w.keys, w.parties[e.who]);
    CommitMovesOwnKey(c, w, e);
    var p' := Next(c, w, e).parties[e.who];
    if p'.phase.Settling? {
      BodyEndIsOwnKey(w, e.who, p'.phase.outcome);
    }
  }

  lemma RereadMovesOwnKey(c: Config, w: World, e: Event)
    requires Enabled(w, e) && e.Reread?
    ensures var holder := w.parties[e.who].phase.holder;
            var (w', p') := (Next(c, w, e), Next(c, w, e).parties[e.who]);
            p'.phase.Settling?
            && var ended := BodyEnded(w, e.who, holder, p'.phase.outcome);
               w'.parties == ended.parties && w'.keys == ended.keys
  {
  }

  lemma RereadIsOwnKey(c: Config, w: World, e: Event)
    requires HoldersOk(w) && Enabled(w, e) && e.Reread?
    ensures OnlyOwnKey(w, Next(c, w, e), e.who)
  {
    assert HolderOk(w.keys, w.parties[e.who]);
    RereadMovesOwnKey(c, w, e);
    BodyEndIsOwnKey(w, e.who, Next(c, w, e).parties[e.who].phase.outcome);
  }

  lemma SettleIsOwnKey(c: Config, w: World, e: Event)
    requires HoldersOk(w) && Enabled(w, e) && e.Settle?
    ensures OnlyOwnKey(w, Next(c, w, e), e.who)
  {
    assert HolderOk(w.keys, w.parties[e.who]);
  }

  lemma MachineIsOwnKey(c: Config, w: World, e: Event)
    requires HoldersOk(w) && Enabled(w, e) && (e.AutoDecide? || e.AutoCommit? || e.Crash?)
    ensures OnlyOwnKey(w, Next(c, w, e), e.who)
  {
    assert Holding(w.parties[e.who]) ==> HolderOk(w.keys, w.parties[e.who]);
  }

  lemma StepKeepsHolders(c: Config, w: World, e: Event)
    requires HoldersOk(w) && Enabled(w, e)
    ensures HoldersOk(Next(c, w, e))
  {
    if e.Lookup? || e.AutoLookup? {
      NewPartyKeepsHolders(w, Next(c, w, e));
    } else if !IsBuyerStep(e) && !IsMachineStep(e) {
      SurroundingsEvolve(w, e);
    } else {
      if e.Begin? {
        BeginIsOwnKey(c, w, e);
      } else if e.Decide? {
        DecideIsOwnKey(c, w, e);
      } else if e.Commit? {
        CommitIsOwnKey(c, w, e);
      } else if e.Reread? {
        RereadIsOwnKey(c, w, e);
      } else if e.Settle? {
        SettleIsOwnKey(c, w, e);
      } else {
        MachineIsOwnKey(c, w, e);
      }
      OwnKeyKeepsHolders(w, Next(c, w, e), e.who);
    }
  }

  lemma NewPartyKeepsHolders(w: World, w': World)
    requires HoldersOk(w) && w'.keys == w.keys
    requires |w'.parties| == |w.parties| + 1 && w'.parties[..|w.parties|] == w.parties
    requires !Holding(w'.parties[|w.parties|])
    ensures HoldersOk(w')
  {
    forall i | 0 <= i < |w.parties|
      ensures w'.parties[i] == w.parties[i]
    {
    }
  }

  lemma {:induction false} RunKeepsHolders(c: Config, w: World, es: seq<Event>)
    requires HoldersOk(w)
    ensures HoldersOk(Run(c, w, es))
    decreases |es|
  {
    if es != [] {
      if Enabled(w, es[0]) {
        StepKeepsHolders(c, w, es[0]);
      }
      RunKeepsHolders(c, Next(c, w, es[0]), es[1..]);
    }
  }

  /**
   A buyer answered "pending" gets the key back: once its release is stored, the next request
   under the same key goes on to a decision of its own.
   */
  lemma PendingCanBeRetried(c: Config, w: World, who: nat, again: nat, now: int)
    requires HoldersOk(w) && I.Inv(w.keys)
    requires Enabled(w, Settle(who, true)) && w.parties[who].phase.outcome == Ok(Confirmation(PubPending, true))
    requires again != who && Enabled(w, Begin(again, now))
    requires I.Slot(w.parties[again].phase.found.row.accountId, w.parties[again].key)
             == w.keys.requests[w.parties[who].phase.holder].slot
    ensures var settled := Next(c, w, Settle(who, true));
            settled.parties[who].phase == Replied(Confirmed(Confirmation(PubPending, true)))
            && Next(c, settled, Begin(again, now)).parties[again].phase
               == Deciding(w.parties[again].phase.found, |w.keys.requests|)
  {
    var holder := w.parties[who].phase.holder;
    assert HolderOk(w.keys, w.parties[who]);
    I.ReleasedKeyCanBeTakenAgain(w.keys, holder, 202,
                                 Digest(w.parties[again].tokenHash, w.parties[again].commonUserId), now);
  }
}
