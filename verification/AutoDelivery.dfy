/**
 The automatic delivery: one claim attempt per entitlement, in a loop that one failure does
 not stop, with counters that are read as monitoring figures.
 */
module AutoDelivery {
  import opened Wrappers
  import opened EntitlementClaim
  import opened ClaimServices
  import P = ClaimProtocol

  /**
   What one attempt meets: clock, id generator, the fate of its transaction and of its audit entry,
   and whether a named entitlement can be read at all.
   */
  datatype Reading = Reading(
    now: int, generatedId: string, correlationId: string, write: P.Write, audited: bool, readable: bool)

  /** An entitlement read when the pass began, or named by the caller and read at its turn. */
  datatype Item = Listed(found: Found, reading: Reading) | Named(id: string, reading: Reading)

  datatype Counts = Counts(delivered: nat, skipped: nat, failed: nat)

  datatype PassResult = PassResult(picked: nat, counts: Counts)

  function Counted(n: Counts, o: P.AutoOutcome): Counts {
    match o
    case AutoDelivered => n.(delivered := n.delivered + 1)
    case AutoSkipped => n.(skipped := n.skipped + 1)
    case AutoFailed => n.(failed := n.failed + 1)
  }

  function IdOf(item: Item): string {
    if item.Listed? then item.found.id else item.id
  }

  function Take(t: Tables, item: Item): Option<Found> {
    if item.Listed? then Some(item.found)
    else if item.reading.readable then FindForAutoDelivery(t, item.id)
    else None
  }

  /** What the attempt does once the event is built. */
  function Written(t: Tables, found: Found, commonUserId: string, plan: Plan, r: Reading): (Tables, P.AutoOutcome) {
    if r.write.Down? then (t, P.AutoFailed)
    else
      var (t', outcome) := ConfirmClaim(t, found.id, commonUserId, r.now, Some(plan));
      (t', match outcome
           case Rejected => P.AutoFailed
           case Raced => if r.write.LostReply? then P.AutoFailed else P.AutoSkipped
           case Won => if r.write.LostReply? || !r.audited then P.AutoFailed else P.AutoDelivered)
  }

  /** One attempt; anything thrown on the way counts as failed. */
  function Attempt(c: P.Config, t: Tables, found: Found, r: Reading): (Tables, P.AutoOutcome) {
    match EvaluateAutoDelivery(found.row, r.now)
    case Skip(_) => (t, P.AutoSkipped)
    case Deliver(commonUserId) =>
      match PlanDelivery(c.addresses, r.generatedId, found.id, commonUserId, r.correlationId, found.row.snapshot, r.now)
      case Err(_) => (t, P.AutoFailed)
      case Ok(plan) => Written(t, found, commonUserId, plan, r)
  }

  /** What an attempt comes to, and all that it writes. */
  ghost predicate AttemptSays(c: P.Config, t: Tables, found: Found, r: Reading, t': Tables, outcome: P.AutoOutcome) {
    match EvaluateAutoDelivery(found.row, r.now)
    case Skip(_) => t' == t && outcome == P.AutoSkipped
    case Deliver(commonUserId) =>
      var plan := PlanDelivery(c.addresses, r.generatedId, found.id, commonUserId, r.correlationId, found.row.snapshot, r.now);
      if plan.Err? then t' == t && outcome == P.AutoFailed
      else plan.value.eventId == "evt_" + r.generatedId && WrittenSays(t, found, commonUserId, plan.value, r, t', outcome)
  }

  /** What writing the claim comes to. */
  ghost predicate WrittenSays(
    t: Tables, found: Found, commonUserId: string, plan: Plan, r: Reading, t': Tables, outcome: P.AutoOutcome)
  {
    if r.write == P.Down then t' == t && outcome == P.AutoFailed
    else if found.id !in t.entitlements || t.entitlements[found.id].status != Issued then
      t' == t && outcome == (if r.write == P.LostReply then P.AutoFailed else P.AutoSkipped)
    else if plan.eventId in t.outbox then t' == t && outcome == P.AutoFailed
    else
      && outcome == (if r.write == P.LostReply || !r.audited then P.AutoFailed else P.AutoDelivered)
      && t'.entitlements == t.entitlements[found.id := t.entitlements[found.id].(
           status := Claimed, delivery := Waiting, claimedBy := Some(commonUserId), claimedAt := Some(r.now))]
      && t'.outbox == t.outbox[plan.eventId := OutboxRow(found.id, plan.payload)]
  }

  lemma WrittenIsThat(t: Tables, found: Found, commonUserId: string, plan: Plan, r: Reading)
    ensures var (t', outcome) := Written(t, found, commonUserId, plan, r);
            WrittenSays(t, found, commonUserId, plan, r, t', outcome)
  {
    ClaimWritesExactly(t, found.id, commonUserId, r.now, Some(plan));
  }

  lemma AttemptIsThat(c: P.Config, t: Tables, found: Found, r: Reading)
    ensures AttemptSays(c, t, found, r, Attempt(c, t, found, r).0, Attempt(c, t, found, r).1)
  {
    var decision := EvaluateAutoDelivery(found.row, r.now);
    if decision.Deliver? {
      PlannedEventSays(c.addresses, r.generatedId, found.id, decision.commonUserId, r.correlationId, found.row.snapshot, r.now);
      var plan := PlanDelivery(c.addresses, r.generatedId, found.id, decision.commonUserId, r.correlationId,
                               found.row.snapshot, r.now);
      if plan.Ok? {
        WrittenIsThat(t, found, decision.commonUserId, plan.value, r);
      }
    }
  }

  /** A named entitlement that is missing or cannot be read is counted as failed, and nothing else is tried for it. */
  lemma MissingIsFailed(c: P.Config, t: Tables, id: string, r: Reading, n: Counts)
    ensures var (t', outcome) := AttemptItem(c, t, Named(id, r));
            if id !in t.entitlements || !r.readable
            then t' == t && Counted(n, outcome) == Counts(n.delivered, n.skipped, n.failed + 1)
            else AttemptSays(c, t, Found(id, t.entitlements[id]), r, t', outcome)
  {
    if id in t.entitlements {
      AttemptIsThat(c, t, Found(id, t.entitlements[id]), r);
    }
  }

  lemma OutcomesAreCounted(n: Counts)
    ensures Counted(n, P.AutoDelivered) == Counts(n.delivered + 1, n.skipped, n.failed)
    ensures Counted(n, P.AutoSkipped) == Counts(n.delivered, n.skipped + 1, n.failed)
    ensures Counted(n, P.AutoFailed) == Counts(n.delivered, n.skipped, n.failed + 1)
  {
  }

  function AttemptItem(c: P.Config, t: Tables, item: Item): (Tables, P.AutoOutcome) {
    match Take(t, item)
    case None => (t, P.AutoFailed)
    case Some(found) => Attempt(c, t, found, item.reading)
  }

  /** What is done about one item. */
  type Attempter = (Tables, Item) -> (Tables, P.AutoOutcome)

  /** The first `n` items, one after the other. */
  function InTurn(attempt: Attempter, t: Tables, items: seq<Item>, n: nat): (Tables, Counts)
    requires n <= |items|
  {
    if n == 0 then (t, Counts(0, 0, 0))
    else
      var (before, counts) := InTurn(attempt, t, items, n - 1);
      var (after, outcome) := attempt(before, items[n - 1]);
      (after, Counted(counts, outcome))
  }

  function Attempting(c: P.Config): Attempter {
    (t, item) => AttemptItem(c, t, item)
  }

  function Pass(c: P.Config, t: Tables, items: seq<Item>, n: nat): (Tables, Counts)
    requires n <= |items|
  {
    InTurn(Attempting(c), t, items, n)
  }

  /** Something that may hold after the first so many items. */
  type Claim = (Tables, Counts, nat) -> bool

  /** What every turn hands on holds at the end. */
  lemma {:induction false} KeptInTurn(attempt: Attempter, t: Tables, items: seq<Item>, n: nat, kept: Claim)
    requires n <= |items| && kept(t, Counts(0, 0, 0), 0)
    requires forall t: Tables, counts: Counts, m: nat :: m < |items| && kept(t, counts, m) ==>
               kept(attempt(t, items[m]).0, Counted(counts, attempt(t, items[m]).1), m + 1)
    ensures kept(InTurn(attempt, t, items, n).0, InTurn(attempt, t, items, n).1, n)
  {
    if n > 0 {
      KeptInTurn(attempt, t, items, n - 1, kept);
    }
  }

  class WalletAutoDeliveryService {
    const claims: ClaimDatabase
    const config: P.Config

    constructor (claims: ClaimDatabase, config: P.Config)
      ensures this.claims == claims && this.config == config
    {
      this.claims, this.config := claims, config;
    }

    method Deliver(found: Found, r: Reading) returns (outcome: P.AutoOutcome)
      requires claims.Valid()
      modifies claims
      ensures claims.Valid()
      ensures (claims.View(), outcome) == Attempt(config, old(claims.View()), found, r)
      ensures AttemptSays(config, old(claims.View()), found, r, claims.View(), outcome)
    {
      AttemptIsThat(config, claims.View(), found, r);
      var decision := EvaluateAutoDelivery(found.row, r.now);
      if decision.Skip? {
        return P.AutoSkipped;
      }
      var plan := PlanDelivery(config.addresses, r.generatedId, found.id, decision.commonUserId, r.correlationId,
                               found.row.snapshot, r.now);
      if plan.Err? || r.write.Down? {
        return P.AutoFailed;
      }
      var confirmed := claims.Confirm(found.id, decision.commonUserId, r.now, Some(plan.value));
      if confirmed.Rejected? || r.write.LostReply? {
        return P.AutoFailed;
      }
      if confirmed.Raced? {
        return P.AutoSkipped;
      }
      return if r.audited then P.AutoDelivered else P.AutoFailed;
    }

    /** `listed` is what the query for deliverable entitlements answered, read before the first attempt. */
    method Sweep(listed: seq<Found>, readings: seq<Reading>) returns (result: PassResult)
      requires claims.Valid() && |readings| == |listed|
      modifies claims
      ensures claims.Valid()
      ensures (claims.View(), result.counts)
              == Pass(config, old(claims.View()),
                      seq(|listed|, i requires 0 <= i < |listed| => Listed(listed[i], readings[i])), |listed|)
      ensures result.picked == |listed|
    {
      ghost var items := seq(|listed|, i requires 0 <= i < |listed| => Listed(listed[i], readings[i]));
      var counts := Counts(0, 0, 0);
      for i := 0 to |listed|
        invariant claims.Valid()
        invariant (claims.View(), counts) == Pass(config, old(claims.View()), items, i)
      {
        var outcome := Deliver(listed[i], readings[i]);
        counts := Counted(counts, outcome);
      }
      return PassResult(|listed|, counts);
    }

    method RunForEntitlements(ids: seq<string>, readings: seq<Reading>) returns (result: PassResult)
      requires claims.Valid() && |readings| == |ids|
      modifies claims
      ensures claims.Valid()
      ensures (claims.View(), result.counts)
              == Pass(config, old(claims.View()),
                      seq(|ids|, i requires 0 <= i < |ids| => Named(ids[i], readings[i])), |ids|)
      ensures result.picked == |ids|
    {
      ghost var items := seq(|ids|, i requires 0 <= i < |ids| => Named(ids[i], readings[i]));
      var counts := Counts(0, 0, 0);
      for i := 0 to |ids|
        invariant claims.Valid()
        invariant (claims.View(), counts) == Pass(config, old(claims.View()), items, i)
      {
        var found := if readings[i].readable then FindForAutoDelivery(claims.View(), ids[i]) else None;
        if found.None? {
          counts := counts.(failed := counts.failed + 1);
        } else {
          var outcome := Deliver(found.value, readings[i]);
          counts := Counted(counts, outcome);
        }
      }
      return PassResult(|ids|, counts);
    }
  }

  // --- an attempt is two steps of the protocol ------------------------------------------

  lemma WrittenIsAStep(c: P.Config, w: P.World, who: nat, r: Reading)
    requires who < |w.parties| && w.parties[who].Machine? && w.parties[who].phase.AutoWriting?
    requires w.parties[who].phase.decidedAt == r.now
    ensures var phase := w.parties[who].phase;
            var (t, outcome) := Written(w.tables, phase.found, phase.commonUserId, phase.event, r);
            var unaudited := t != w.tables && !r.audited;
            var w' := P.Next(c, w, P.AutoCommit(who, if unaudited then P.LostReply else r.write));
            w'.tables == t && w'.parties == w.parties[who := P.Machine(P.AutoDone(outcome))]
  {
    var phase := w.parties[who].phase;
    var (t', outcome) := ConfirmClaim(w.tables, phase.found.id, phase.commonUserId, r.now, Some(phase.event));
    if outcome.Won? {
      assert phase.event.eventId in t'.outbox && phase.event.eventId !in w.tables.outbox;
    }
  }

  lemma AttemptDecides(c: P.Config, w: P.World, who: nat, r: Reading)
    requires who < |w.parties| && w.parties[who].Machine? && w.parties[who].phase.AutoLooked?
    ensures var found := w.parties[who].phase.found;
            var (t, outcome) := Attempt(c, w.tables, found, r);
            var decided := P.Next(c, w, P.AutoDecide(who, r.now, r.generatedId, r.correlationId));
            var phase := decided.parties[who].phase;
            decided.tables == w.tables && decided.parties == w.parties[who := P.Machine(phase)]
            && if phase.AutoWriting?
               then phase.found == found && phase.decidedAt == r.now
                    && (t, outcome) == Written(w.tables, found, phase.commonUserId, phase.event, r)
               else t == w.tables && phase == P.AutoDone(outcome)
  {
  }

  /** A claim that is committed but not audited looks, from outside, like one whose reply was lost. */
  lemma AttemptIsTwoSteps(c: P.Config, w: P.World, who: nat, r: Reading)
    requires who < |w.parties| && w.parties[who].Machine? && w.parties[who].phase.AutoLooked?
    ensures var found := w.parties[who].phase.found;
            var (t, outcome) := Attempt(c, w.tables, found, r);
            var decided := P.Next(c, w, P.AutoDecide(who, r.now, r.generatedId, r.correlationId));
            var unaudited := t != w.tables && !r.audited;
            var w' := P.Next(c, decided, P.AutoCommit(who, if unaudited then P.LostReply else r.write));
            w'.tables == t && w'.parties == w.parties[who := P.Machine(P.AutoDone(outcome))]
  {
    AttemptDecides(c, w, who, r);
    var decided := P.Next(c, w, P.AutoDecide(who, r.now, r.generatedId, r.correlationId));
    if decided.parties[who].phase.AutoWriting? {
      WrittenIsAStep(c, decided, who, r);
    }
  }

  // --- one failure stops nothing --------------------------------------------------------

  /** Everything an attempt at this item needs is there. */
  ghost predicate Deliverable(c: P.Config, t: Tables, item: Item, commonUserId: string, plan: Plan) {
    && IdOf(item) in t.entitlements
    && Take(t, item) == Some(Found(IdOf(item), t.entitlements[IdOf(item)]))
    && EvaluateAutoDelivery(t.entitlements[IdOf(item)], item.reading.now) == Deliver(commonUserId)
    && PlanDelivery(c.addresses, item.reading.generatedId, IdOf(item), commonUserId, item.reading.correlationId,
                    t.entitlements[IdOf(item)].snapshot, item.reading.now) == Ok(plan)
    && plan.eventId !in t.outbox
    && item.reading.write.Acknowledged? && item.reading.audited
  }

  ghost predicate Delivered(t: Tables, id: string, commonUserId: string, plan: Plan) {
    && id in t.entitlements && t.entitlements[id].status.Claimed? && t.entitlements[id].claimedBy == Some(commonUserId)
    && plan.eventId in t.outbox && t.outbox[plan.eventId] == OutboxRow(id, plan.payload)
  }

  ghost predicate TouchesOnly(t: Tables, t': Tables, id: string, event: string) {
    && t'.entitlements.Keys == t.entitlements.Keys
    && (forall other :: other in t.entitlements && other != id ==> t'.entitlements[other] == t.entitlements[other])
    && (forall ev :: ev in t.outbox ==> ev in t'.outbox && t'.outbox[ev] == t.outbox[ev])
    && (forall ev :: ev in t'.outbox && ev !in t.outbox ==> ev == event)
  }

  lemma ConfirmTouchesItsOwn(t: Tables, id: string, commonUserId: string, at: int, plan: Plan)
    ensures TouchesOnly(t, ConfirmClaim(t, id, commonUserId, at, Some(plan)).0, id, plan.eventId)
  {
  }

  lemma AttemptTouchesItsOwn(c: P.Config, t: Tables, item: Item)
    ensures TouchesOnly(t, AttemptItem(c, t, item).0, IdOf(item), "evt_" + item.reading.generatedId)
  {
    var r := item.reading;
    var taken := Take(t, item);
    if taken.Some? && EvaluateAutoDelivery(taken.value.row, r.now).Deliver? {
      var found, commonUserId := taken.value, EvaluateAutoDelivery(taken.value.row, r.now).commonUserId;
      var plan := PlanDelivery(c.addresses, r.generatedId, found.id, commonUserId, r.correlationId, found.row.snapshot, r.now);
      if plan.Ok? {
        ConfirmTouchesItsOwn(t, found.id, commonUserId, r.now, plan.value);
      }
    }
  }

  lemma DeliverableIsDelivered(c: P.Config, t: Tables, item: Item, commonUserId: string, plan: Plan)
    requires Deliverable(c, t, item, commonUserId, plan)
    ensures AttemptItem(c, t, item).1.AutoDelivered? && Delivered(AttemptItem(c, t, item).0, IdOf(item), commonUserId, plan)
  {
    BothWaysAgree(t.entitlements[IdOf(item)], commonUserId, item.reading.now);
  }

  /** An attempt at something else leaves this item deliverable, or delivered. */
  lemma OthersDoNotMatter(c: P.Config, t: Tables, other: Item, item: Item, commonUserId: string, plan: Plan)
    requires IdOf(other) != IdOf(item) && plan.eventId != "evt_" + other.reading.generatedId
    ensures Deliverable(c, t, item, commonUserId, plan) ==> Deliverable(c, AttemptItem(c, t, other).0, item, commonUserId, plan)
    ensures Delivered(t, IdOf(item), commonUserId, plan) ==> Delivered(AttemptItem(c, t, other).0, IdOf(item), commonUserId, plan)
  {
    AttemptTouchesItsOwn(c, t, other);
    TouchedElsewhere(c, t, AttemptItem(c, t, other).0, item, commonUserId, plan, IdOf(other), "evt_" + other.reading.generatedId);
  }

  lemma TouchedElsewhere(
    c: P.Config, t: Tables, t': Tables, item: Item, commonUserId: string, plan: Plan, id: string, event: string)
    requires TouchesOnly(t, t', id, event) && id != IdOf(item) && event != plan.eventId
    ensures Deliverable(c, t, item, commonUserId, plan) ==> Deliverable(c, t', item, commonUserId, plan)
    ensures Delivered(t, IdOf(item), commonUserId, plan) ==> Delivered(t', IdOf(item), commonUserId, plan)
  {
  }

  /** What is promised to an item before and after its turn. */
  ghost predicate Promised(c: P.Config, t: Tables, item: Item, commonUserId: string, plan: Plan, done: bool) {
    if done then Delivered(t, IdOf(item), commonUserId, plan) else Deliverable(c, t, item, commonUserId, plan)
  }

  lemma TurnKeepsPromise(
    c: P.Config, t: Tables, items: seq<Item>, n: nat, k: nat, commonUserId: string, plan: Plan)
    requires n < |items| && k < |items| && Promised(c, t, items[k], commonUserId, plan, k < n)
    requires plan.eventId == "evt_" + items[k].reading.generatedId
    requires n != k ==>
               IdOf(items[n]) != IdOf(items[k]) && items[n].reading.generatedId != items[k].reading.generatedId
    ensures Promised(c, AttemptItem(c, t, items[n]).0, items[k], commonUserId, plan, k < n + 1)
  {
    if n == k {
      DeliverableIsDelivered(c, t, items[k], commonUserId, plan);
    } else {
      PrefixedDiffer("evt_", items[n].reading.generatedId, items[k].reading.generatedId);
      OthersDoNotMatter(c, t, items[n], items[k], commonUserId, plan);
    }
  }

  /**
   Whatever the other items come to, an item that could be delivered when the pass began is
   delivered by it, provided no other item names the same entitlement or was given its id.
   */
  lemma OneFailureStopsNothing(
    c: P.Config, t: Tables, items: seq<Item>, n: nat, k: nat, commonUserId: string, plan: Plan)
    requires n <= |items| && k < |items|
    requires Deliverable(c, t, items[k], commonUserId, plan)
    requires forall j :: 0 <= j < |items| && j != k ==>
               IdOf(items[j]) != IdOf(items[k]) && items[j].reading.generatedId != items[k].reading.generatedId
    ensures Promised(c, Pass(c, t, items, n).0, items[k], commonUserId, plan, k < n)
  {
    PlanIsNamed(c, t, items[k], commonUserId, plan);
    var item := items[k];
    var kept := (u: Tables, counts: Counts, m: nat) => Promised(c, u, item, commonUserId, plan, k < m);
    forall u: Tables, counts: Counts, m: nat | m < |items| && kept(u, counts, m)
      ensures kept(Attempting(c)(u, items[m]).0, Counted(counts, Attempting(c)(u, items[m]).1), m + 1)
    {
      TurnKeepsPromise(c, u, items, m, k, commonUserId, plan);
    }
    assert kept(t, Counts(0, 0, 0), 0) by {
      assert Promised(c, t, item, commonUserId, plan, false);
    }
    KeptInTurn(Attempting(c), t, items, n, kept);
  }

  lemma PrefixedDiffer(prefix: string, a: string, b: string)
    requires a != b
    ensures prefix + a != prefix + b
  {
    assert (prefix + a)[|prefix|..] == a && (prefix + b)[|prefix|..] == b;
  }

  lemma PlanIsNamed(c: P.Config, t: Tables, item: Item, commonUserId: string, plan: Plan)
    requires Deliverable(c, t, item, commonUserId, plan)
    ensures plan.eventId == "evt_" + item.reading.generatedId
  {
  }

  // --- the counters ---------------------------------------------------------------------

  function ClaimedIn(t: Tables): set<string> {
    set id | id in t.entitlements && t.entitlements[id].status.Claimed?
  }

  /** What one attempt does to the set of claimed entitlements, by what it is counted as. */
  ghost predicate Accounted(claimed: set<string>, claimed': set<string>, id: string, outcome: P.AutoOutcome) {
    var one := id !in claimed && claimed' == claimed + {id};
    match outcome
    case AutoDelivered => one
    case AutoSkipped => claimed' == claimed
    case AutoFailed => one || claimed' == claimed
  }

  lemma AttemptClaims(c: P.Config, t: Tables, item: Item)
    ensures var (t', outcome) := AttemptItem(c, t, item);
            Accounted(ClaimedIn(t), ClaimedIn(t'), IdOf(item), outcome)
  {
    var t' := AttemptItem(c, t, item).0;
    if t' != t {
      assert ClaimedIn(t') == ClaimedIn(t) + {IdOf(item)};
    }
  }

  /** The three counters add up, and bound the number of new claims from both sides. */
  ghost predicate Tally(claimed: set<string>, claimed': set<string>, counts: Counts, n: nat) {
    && counts.delivered + counts.skipped + counts.failed == n
    && claimed <= claimed'
    && counts.delivered <= |claimed' - claimed| <= counts.delivered + counts.failed
  }

  lemma TallyGrows(
    claimed: set<string>, before: set<string>, after: set<string>, id: string, outcome: P.AutoOutcome, counts: Counts, n: nat)
    requires Tally(claimed, before, counts, n) && Accounted(before, after, id, outcome)
    ensures Tally(claimed, after, Counted(counts, outcome), n + 1)
  {
    if after != before {
      assert after - claimed == (before - claimed) + {id};
    }
  }

  /**
   The three counters add up to what was picked. Every delivery counted is one more claimed
   entitlement, and the only other new claims are among those counted as failed: those whose
   reply or audit entry was lost.
   */
  lemma CountersAccountForClaims(c: P.Config, t: Tables, items: seq<Item>, n: nat)
    requires n <= |items|
    ensures Tally(ClaimedIn(t), ClaimedIn(Pass(c, t, items, n).0), Pass(c, t, items, n).1, n)
  {
    var claimed := ClaimedIn(t);
    var kept := (u: Tables, counts: Counts, m: nat) => Tally(claimed, ClaimedIn(u), counts, m);
    forall u: Tables, counts: Counts, m: nat | m < |items| && kept(u, counts, m)
      ensures kept(Attempting(c)(u, items[m]).0, Counted(counts, Attempting(c)(u, items[m]).1), m + 1)
    {
      var (after, outcome) := AttemptItem(c, u, items[m]);
      AttemptClaims(c, u, items[m]);
      TallyGrows(claimed, ClaimedIn(u), ClaimedIn(after), IdOf(items[m]), outcome, counts, m);
    }
    assert claimed - claimed == {};
    KeptInTurn(Attempting(c), t, items, n, kept);
  }
}
