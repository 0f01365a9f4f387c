/**
 What a delivery that is queued says, and what a confirmation comes to after a lost race, over
 every interleaving.
 */
module ClaimOutcomes {
  import opened Wrappers
  import opened WalletEvents
  import opened EntitlementClaim
  import opened ClaimProtocol
  import I = Idempotency

  // --- what is queued says what was shown -----------------------------------------------

  type Shown = set<(string, Snapshot)>

  ghost predicate PartyShown(a: Addresses, shown: Shown, p: Party) {
    match p.phase
    case Looked(found) => (found.id, found.row.snapshot) in shown
    case Deciding(found, _) => (found.id, found.row.snapshot) in shown
    case Writing(found, _, plan, _, _) =>
      (found.id, found.row.snapshot) in shown && p.Buyer?
      && (plan.Some? ==>
            Says(plan.value.payload, plan.value.eventId, found.id, p.commonUserId, found.row.snapshot, a))
    case AutoLooked(found) => (found.id, found.row.snapshot) in shown
    case AutoWriting(found, commonUserId, plan, _) =>
      (found.id, found.row.snapshot) in shown
      && Says(plan.payload, plan.eventId, found.id, commonUserId, found.row.snapshot, a)
    case _ => true
  }

  /** The event says something its entitlement was shown as at some time. */
  ghost predicate EventShown(a: Addresses, shown: Shown, event: string, row: OutboxRow) {
    exists s :: (row.entitlementId, s) in shown
                && Says(row.payload, event, row.entitlementId, row.payload.envelope.commonUserId, s, a)
  }

  ghost predicate TablesShown(a: Addresses, shown: Shown, t: Tables) {
    && (forall id :: id in t.entitlements ==> (id, t.entitlements[id].snapshot) in shown)
    && (forall event :: event in t.outbox ==> EventShown(a, shown, event, t.outbox[event]))
  }

  ghost predicate AllShown(c: Config, w: World) {
    && TablesShown(c.addresses, w.shown, w.tables)
    && (forall i :: 0 <= i < |w.parties| ==> PartyShown(c.addresses, w.shown, w.parties[i]))
  }

  lemma ClaimKeepsShown(a: Addresses, shown: Shown, t: Tables, found: Found, commonUserId: string, at: int, plan: Option<Plan>)
    requires TablesShown(a, shown, t) && (found.id, found.row.snapshot) in shown
    requires plan.Some? ==> Says(plan.value.payload, plan.value.eventId, found.id, commonUserId, found.row.snapshot, a)
    ensures TablesShown(a, shown, ConfirmClaim(t, found.id, commonUserId, at, plan).0)
  {
    ClaimWritesExactly(t, found.id, commonUserId, at, plan);
    var t' := ConfirmClaim(t, found.id, commonUserId, at, plan).0;
    forall event | event in t'.outbox
      ensures EventShown(a, shown, event, t'.outbox[event])
    {
      if event in t.outbox {
        assert t'.outbox[event] == t.outbox[event] && EventShown(a, shown, event, t.outbox[event]);
      }
    }
  }

  /** One party moves on, and the tables are shown after it. */
  lemma MoveKeepsShown(c: Config, w: World, w': World, who: nat)
    requires AllShown(c, w) && w'.shown == w.shown && TablesShown(c.addresses, w.shown, w'.tables)
    requires who < |w.parties| && |w'.parties| == |w.parties| && w'.parties == w.parties[who := w'.parties[who]]
    requires PartyShown(c.addresses, w.shown, w'.parties[who])
    ensures AllShown(c, w')
  {
    forall i | 0 <= i < |w'.parties|
      ensures PartyShown(c.addresses, w'.shown, w'.parties[i])
    {
      assert i != who ==> w'.parties[i] == w.parties[i];
    }
  }

  lemma DecideKeepsShown(c: Config, w: World, e: Event)
    requires AllShown(c, w) && Enabled(w, e) && e.Decide?
    ensures PartyShown(c.addresses, w.shown, Next(c, w, e).parties[e.who])
  {
    var p := w.parties[e.who];
    assert PartyShown(c.addresses, w.shown, p);
    PlannedEventSays(c.addresses, e.generatedId, p.phase.found.id, p.commonUserId, e.correlationId,
                     p.phase.found.row.snapshot, e.plannedAt);
  }

  lemma AutoDecideKeepsShown(c: Config, w: World, e: Event)
    requires AllShown(c, w) && Enabled(w, e) && e.AutoDecide?
    ensures PartyShown(c.addresses, w.shown, Next(c, w, e).parties[e.who])
  {
    var found := w.parties[e.who].phase.found;
    assert PartyShown(c.addresses, w.shown, w.parties[e.who]);
    forall commonUserId {
      PlannedEventSays(c.addresses, e.generatedId, found.id, commonUserId, e.correlationId, found.row.snapshot, e.decidedAt);
    }
  }

  lemma CommitKeepsShown(c: Config, w: World, e: Event)
    requires AllShown(c, w) && Enabled(w, e) && e.Commit?
    ensures TablesShown(c.addresses, w.shown, Next(c, w, e).tables)
    ensures PartyShown(c.addresses, w.shown, Next(c, w, e).parties[e.who])
  {
    var p := w.parties[e.who];
    assert PartyShown(c.addresses, w.shown, p);
    ClaimKeepsShown(c.addresses, w.shown, w.tables, p.phase.found, p.commonUserId, p.phase.at, p.phase.plan);
  }

  lemma AutoCommitKeepsShown(c: Config, w: World, e: Event)
    requires AllShown(c, w) && Enabled(w, e) && e.AutoCommit?
    ensures TablesShown(c.addresses, w.shown, Next(c, w, e).tables)
    ensures PartyShown(c.addresses, w.shown, Next(c, w, e).parties[e.who])
  {
    var phase := w.parties[e.who].phase;
    assert PartyShown(c.addresses, w.shown, w.parties[e.who]);
    ClaimKeepsShown(c.addresses, w.shown, w.tables, phase.found, phase.commonUserId, phase.decidedAt, Some(phase.event));
  }

  lemma OthersKeepShown(c: Config, w: World, e: Event)
    requires AllShown(c, w) && Enabled(w, e) && (e.Begin? || e.Reread? || e.Settle? || e.Crash?)
    ensures PartyShown(c.addresses, w.shown, Next(c, w, e).parties[e.who])
  {
    assert PartyShown(c.addresses, w.shown, w.parties[e.who]);
  }

  lemma OneMoves(c: Config, w: World, e: Event)
    requires Enabled(w, e) && (IsBuyerStep(e) || IsMachineStep(e)) && !e.Lookup? && !e.AutoLookup?
    ensures var w' := Next(c, w, e);
            e.who < |w.parties| && |w'.parties| == |w.parties| && w'.parties == w.parties[e.who := w'.parties[e.who]]
  {
  }

  lemma PartyStepKeepsShown(c: Config, w: World, e: Event)
    requires AllShown(c, w) && Enabled(w, e) && (IsBuyerStep(e) || IsMachineStep(e)) && !e.Lookup? && !e.AutoLookup?
    ensures AllShown(c, Next(c, w, e))
  {
    OneMoves(c, w, e);
    if e.Commit? {
      CommitKeepsTokens(c, w, e);
      CommitKeepsShown(c, w, e);
    } else if e.AutoCommit? {
      CommitKeepsTokens(c, w, e);
      AutoCommitKeepsShown(c, w, e);
    } else {
      OthersKeepTables(c, w, e);
      if e.Decide? {
        DecideKeepsShown(c, w, e);
      } else if e.AutoDecide? {
        AutoDecideKeepsShown(c, w, e);
      } else {
        OthersKeepShown(c, w, e);
      }
    }
    MoveKeepsShown(c, w, Next(c, w, e), e.who);
  }

  lemma LookupKeepsShown(c: Config, w: World, e: Event)
    requires AllShown(c, w) && (e.Lookup? || e.AutoLookup?)
    ensures AllShown(c, Next(c, w, e))
  {
  }

  lemma SurroundingsKeepShown(c: Config, w: World, e: Event)
    requires AllShown(c, w)
    ensures AllShown(c, Surroundings(w, e))
  {
    SurroundingsEvolve(w, e);
    var w' := Surroundings(w, e);
    assert w.shown <= w'.shown;
    forall i | 0 <= i < |w'.parties|
      ensures PartyShown(c.addresses, w'.shown, w'.parties[i])
    {
      assert PartyShown(c.addresses, w.shown, w.parties[i]);
    }
    forall event | event in w'.tables.outbox
      ensures EventShown(c.addresses, w'.shown, event, w'.tables.outbox[event])
    {
      assert EventShown(c.addresses, w.shown, event, w.tables.outbox[event]);
    }
  }

  lemma StepKeepsShown(c: Config, w: World, e: Event)
    requires AllShown(c, w)
    ensures AllShown(c, Next(c, w, e))
  {
    if !Enabled(w, e) {
    } else if e.Lookup? || e.AutoLookup? {
      LookupKeepsShown(c, w, e);
    } else if IsBuyerStep(e) || IsMachineStep(e) {
      PartyStepKeepsShown(c, w, e);
    } else {
      SurroundingsKeepShown(c, w, e);
    }
  }

  lemma {:induction false} RunKeepsShown(c: Config, w: World, es: seq<Event>)
    requires AllShown(c, w)
    ensures AllShown(c, Run(c, w, es))
    decreases |es|
  {
    if es != [] {
      StepKeepsShown(c, w, es[0]);
      RunKeepsShown(c, Next(c, w, es[0]), es[1..]);
    }
  }

  /**
   Over every run: a delivery that is queued is for the claimer of its entitlement, and names the
   order, line, artwork and display that the entitlement had at some time, each in its place.
   */
  lemma QueuedDeliveriesSay(c: Config, clock: int, es: seq<Event>, event: string)
    requires event in Run(c, Start(clock), es).tables.outbox
    ensures var w := Run(c, Start(clock), es);
            var row := w.tables.outbox[event];
            && row.entitlementId in w.tables.entitlements && w.tables.entitlements[row.entitlementId].claimedBy.Some?
            && exists s :: (row.entitlementId, s) in w.shown
                           && Says(row.payload, event, row.entitlementId, w.tables.entitlements[row.entitlementId].claimedBy.value,
                                   s, c.addresses)
  {
    RunKeepsInv(c, Start(clock), es);
    RunKeepsShown(c, Start(clock), es);
    var w := Run(c, Start(clock), es);
    var row := w.tables.outbox[event];
    var k :| 0 <= k < |w.wins| && w.wins[k].id == row.entitlementId && w.wins[k].event == Some(event);
    assert WinStands(w.tables, w.wins[k]);
    assert EventShown(c.addresses, w.shown, event, row);
  }

  // --- what each step of a confirmation comes to ----------------------------------------

  lemma LookupSaysExactly(c: Config, w: World, tokenHash: string, commonUserId: string, key: string)
    requires TokensUnique(w)
    ensures var w' := Next(c, w, Lookup(tokenHash, commonUserId, key));
            var phase := w'.parties[|w.parties|].phase;
            |w'.parties| == |w.parties| + 1
            && (phase == Replied(Failed(TokenInvalid))
                <==> forall id :: id in w.tables.entitlements ==> w.tables.entitlements[id].tokenHash != tokenHash)
            && (forall id :: id in w.tables.entitlements && w.tables.entitlements[id].tokenHash == tokenHash ==>
                  phase == Looked(Found(id, w.tables.entitlements[id])))
  {
    var found := FindByTokenHash(w.tables, tokenHash);
    if found.Some? {
      assert HasToken(w.tables, tokenHash, found.value.id);
    }
    forall id | id in w.tables.entitlements && w.tables.entitlements[id].tokenHash == tokenHash
      ensures found == Some(Found(id, w.tables.entitlements[id]))
    {
      assert HasToken(w.tables, tokenHash, id);
    }
  }

  /** A refusal or an answer that needs no claim ends the body; only a claim that may go ahead goes on, with its event. */
  lemma DecideSaysExactly(
    c: Config, w: World, who: nat, decidedAt: int, plannedAt: int, generatedId: string, correlationId: string)
    requires Enabled(w, Decide(who, decidedAt, plannedAt, generatedId, correlationId))
    ensures var p := w.parties[who];
            var found, holder := p.phase.found, p.phase.holder;
            var w' := Next(c, w, Decide(who, decidedAt, plannedAt, generatedId, correlationId));
            var plan := PlanDelivery(c.addresses, generatedId, found.id, p.commonUserId, correlationId,
                                     found.row.snapshot, plannedAt);
            w'.tables == w.tables
            && w'.parties[who].phase ==
               match EvaluateWalletClaim(found.row, p.commonUserId, decidedAt)
               case Err(error) => Settling(holder, Err(error))
               case Ok(PendingCommonUser) => Settling(holder, Ok(Confirmation(PubPending, true)))
               case Ok(AlreadyClaimed(status)) => Settling(holder, Ok(Confirmation(status, false)))
               case Ok(MayClaim) =>
                 if c.claimServiceDelivers && plan.Err? then Settling(holder, Err(EventInvalid))
                 else Writing(found, holder, if c.claimServiceDelivers then Some(plan.value) else None, decidedAt, plannedAt)
  {
    var p := w.parties[who];
    PlannedEventSays(c.addresses, generatedId, p.phase.found.id, p.commonUserId, correlationId,
                     p.phase.found.row.snapshot, plannedAt);
  }

  /** A claim that goes through is answered as on its way; one that comes too late has the row read again. */
  lemma CommitSaysExactly(c: Config, w: World, who: nat)
    requires Enabled(w, Commit(who, Acknowledged))
    ensures var p := w.parties[who];
            var Writing(found, holder, plan, _, at) := p.phase;
            var (t, outcome) := ConfirmClaim(w.tables, found.id, p.commonUserId, at, plan);
            var w' := Next(c, w, Commit(who, Acknowledged));
            w'.tables == t
            && w'.parties[who].phase ==
               match outcome
               case Won => Settling(holder, Ok(Confirmation(PubDeliveryPending, false)))
               case Raced => Rereading(holder)
               case Rejected => Settling(holder, Err(Unavailable))
  {
  }

  /** What the buyer does not learn of is no success: nothing written, or written and the reply lost, or not read again. */
  lemma OutagesSayExactly(c: Config, w: World, who: nat)
    ensures Enabled(w, Commit(who, Down)) ==>
              var p := w.parties[who];
              var (down, lost) := (Next(c, w, Commit(who, Down)), Next(c, w, Commit(who, LostReply)));
              && down.tables == w.tables && down.parties[who].phase == Settling(p.phase.holder, Err(Unavailable))
              && lost.tables == ConfirmClaim(w.tables, p.phase.found.id, p.commonUserId, p.phase.at, p.phase.plan).0
              && lost.parties[who].phase == Settling(p.phase.holder, Err(Unavailable))
    ensures Enabled(w, Reread(who, false)) ==>
              Next(c, w, Reread(who, false)).parties[who].phase == Settling(w.parties[who].phase.holder, Err(Unavailable))
  {
  }

  /** After a lost race, whoever finds the entitlement claimed by themselves is answered its status, and nobody else is. */
  lemma RereadSaysExactly(c: Config, w: World, who: nat)
    requires TokensUnique(w) && Enabled(w, Reread(who, true))
    ensures var p := w.parties[who];
            var phase := Next(c, w, Reread(who, true)).parties[who].phase;
            && (forall id :: id in w.tables.entitlements && w.tables.entitlements[id].tokenHash == p.tokenHash ==>
                  var row := w.tables.entitlements[id];
                  phase == Settling(
                    p.phase.holder,
                    if row.status == Claimed && row.claimedBy == Some(p.commonUserId)
                    then Ok(Confirmation(if row.delivery == Delivered then PubDelivered else PubDeliveryPending, false))
                    else Err(ClaimProcessing)))
            && ((forall id :: id in w.tables.entitlements ==> w.tables.entitlements[id].tokenHash != p.tokenHash) ==>
                  phase == Settling(p.phase.holder, Err(ClaimProcessing)))
  {
    var p := w.parties[who];
    var found := FindByTokenHash(w.tables, p.tokenHash);
    if found.Some? {
      assert HasToken(w.tables, p.tokenHash, found.value.id);
    }
    forall id | id in w.tables.entitlements && w.tables.entitlements[id].tokenHash == p.tokenHash
      ensures found == Some(Found(id, w.tables.entitlements[id]))
    {
      assert HasToken(w.tables, p.tokenHash, id);
    }
  }

  /** A success is answered once it is stored, a pending one in any case, and a failure as it is. */
  lemma SettleSaysExactly(c: Config, w: World, who: nat, stored: bool)
    requires HoldersOk(w) && I.Inv(w.keys) && Enabled(w, Settle(who, stored))
    ensures var outcome := w.parties[who].phase.outcome;
            Next(c, w, Settle(who, stored)).parties[who].phase ==
            Replied(match outcome
                    case Err(error) => Failed(error)
                    case Ok(result) =>
                      if result.commonUserPending || stored then Confirmed(result) else Failed(Unavailable))
  {
    var holder := w.parties[who].phase.holder;
    assert HolderOk(w.keys, w.parties[who]);
    I.ClosingIsAnswered(w.keys, holder, 202, stored);
  }

  /** Losing the race to a claim for oneself is a success: the buyer whose delivery came first is told so. */
  lemma LosingToOneselfIsSuccess(c: Config, w: World, who: nat)
    requires TokensUnique(w) && Enabled(w, Commit(who, Acknowledged)) && w.parties[who].phase.found.id in w.tables.entitlements
    requires var row := w.tables.entitlements[w.parties[who].phase.found.id];
             row.status == Claimed && row.claimedBy == Some(w.parties[who].commonUserId)
             && row.tokenHash == w.parties[who].tokenHash
    ensures var row := w.tables.entitlements[w.parties[who].phase.found.id];
            var w' := Next(c, Next(c, w, Commit(who, Acknowledged)), Reread(who, true));
            w'.tables == w.tables
            && w'.parties[who].phase == Settling(
                 w.parties[who].phase.holder,
                 Ok(Confirmation(if row.delivery == Delivered then PubDelivered else PubDeliveryPending, false)))
  {
    var p := w.parties[who];
    var w1 := Next(c, w, Commit(who, Acknowledged));
    CommitSaysExactly(c, w, who);
    ClaimWritesExactly(w.tables, p.phase.found.id, p.commonUserId, p.phase.at, p.phase.plan);
    StepKeepsTokensUnique(c, w, Commit(who, Acknowledged));
    CommitMovesOwnKey(c, w, Commit(who, Acknowledged));
    RereadSaysExactly(c, w1, who);
  }
}
