/**
 What buyers are told, and what is recorded under their keys: every confirmation, also one given
 again, is the success worked out for that very token and buyer, and is true of the claimer.
 */
module ClaimAnswers {
  import opened Wrappers
  import opened EntitlementClaim
  import opened ClaimProtocol
  import I = Idempotency

  // --- what is told was worked out ------------------------------------------------------

  /** A success with this status was worked out for this token and buyer. */
  ghost predicate WorkedOut(answers: seq<Answer>, d: Digest, status: PublicStatus) {
    exists i :: 0 <= i < |answers| && answers[i].tokenHash == d.tokenHash && answers[i].commonUserId == d.commonUserId
                && answers[i].status == status
  }

  function DigestOf(p: Party): Digest
    requires p.Buyer?
  {
    Digest(p.tokenHash, p.commonUserId)
  }

  /** The result a buyer's request has come to, or been answered with. */
  function Told(p: Party): Option<Confirmation> {
    if p.phase.Settling? && p.phase.outcome.Ok? then Some(p.phase.outcome.value)
    else if p.phase.Replied? && p.phase.reply.Confirmed? then Some(p.phase.reply.result)
    else None
  }

  ghost predicate PartyTold(answers: seq<Answer>, p: Party) {
    p.Buyer? && Told(p).Some? && !Told(p).value.commonUserPending ==> WorkedOut(answers, DigestOf(p), Told(p).value.status)
  }

  ghost predicate NoteTold(answers: seq<Answer>, n: I.Note<Digest, Confirmation>) {
    n.Succeeded? ==> !n.body.commonUserPending && WorkedOut(answers, n.digest, n.body.status)
  }

  ghost predicate AllTold(w: World) {
    && (forall i :: 0 <= i < |w.parties| ==> PartyTold(w.answers, w.parties[i]))
    && (forall n :: n in w.keys.notes ==> NoteTold(w.answers, n))
  }

  lemma StaysWorkedOut(answers: seq<Answer>, more: seq<Answer>, d: Digest, status: PublicStatus)
    requires WorkedOut(answers, d, status)
    ensures WorkedOut(answers + more, d, status)
  {
    var i :| 0 <= i < |answers| && answers[i].tokenHash == d.tokenHash && answers[i].commonUserId == d.commonUserId
             && answers[i].status == status;
    assert (answers + more)[i] == answers[i];
  }

  lemma LastIsWorkedOut(answers: seq<Answer>, a: Answer)
    ensures WorkedOut(answers + [a], Digest(a.tokenHash, a.commonUserId), a.status)
  {
    assert (answers + [a])[|answers|] == a;
  }

  /** One party moves and answers are added; what was told before stays told. */
  lemma PartyMoveKeepsTold(w: World, w': World, who: nat, more: seq<Answer>)
    requires AllTold(w) && who < |w.parties| && |w'.parties| == |w.parties| && w'.parties == w.parties[who := w'.parties[who]]
    requires w'.answers == w.answers + more && PartyTold(w'.answers, w'.parties[who])
    requires forall n :: n in w'.keys.notes ==> n in w.keys.notes || NoteTold(w'.answers, n)
    ensures AllTold(w')
  {
    forall i | 0 <= i < |w'.parties|
      ensures PartyTold(w'.answers, w'.parties[i])
    {
      if i != who {
        var p := w.parties[i];
        assert w'.parties[i] == p && PartyTold(w.answers, p);
        if p.Buyer? && Told(p).Some? && !Told(p).value.commonUserPending {
          StaysWorkedOut(w.answers, more, DigestOf(p), Told(p).value.status);
        }
      }
    }
    forall n | n in w'.keys.notes
      ensures NoteTold(w'.answers, n)
    {
      if n in w.keys.notes && n.Succeeded? {
        StaysWorkedOut(w.answers, more, n.digest, n.body.status);
      }
    }
  }

  /** The body of a request ends with a success that has just been worked out, or with something else. */
  lemma BodyEndKeepsTold(w: World, w': World, who: nat, outcome: Result<Confirmation, ClaimError>, more: seq<Answer>)
    requires AllTold(w) && HoldersOk(w) && who < |w.parties| && Holding(w.parties[who]) && !w.parties[who].phase.Settling?
    requires outcome.Ok? && !outcome.value.commonUserPending ==>
               WorkedOut(w.answers + more, DigestOf(w.parties[who]), outcome.value.status)
    requires var ended := BodyEnded(w, who, w.parties[who].phase.holder, outcome);
             w'.parties == ended.parties && w'.keys == ended.keys && w'.answers == w.answers + more
    ensures AllTold(w')
  {
    assert HolderOk(w.keys, w.parties[who]);
    forall n | n in w'.keys.notes && n !in w.keys.notes
      ensures NoteTold(w'.answers, n)
    {
    }
    PartyMoveKeepsTold(w, w', who, more);
  }

  /** What the three steps of a body leave: it goes on, or ends with what it added to the answers. */
  ghost predicate GoesOnOrEnds(w: World, w': World, who: nat, more: seq<Answer>)
    requires who < |w.parties| && Holding(w.parties[who])
  {
    && w'.answers == w.answers + more
    && |w'.parties| == |w.parties| && w'.parties == w.parties[who := w'.parties[who]]
    && if w'.parties[who].phase.Settling? then
         var outcome := w'.parties[who].phase.outcome;
         var ended := BodyEnded(w, who, w.parties[who].phase.holder, outcome);
         && w'.parties == ended.parties && w'.keys == ended.keys
         && (outcome.Ok? && !outcome.value.commonUserPending ==>
               |more| == 1 && more[0].status == outcome.value.status
               && Digest(more[0].tokenHash, more[0].commonUserId) == DigestOf(w.parties[who]))
       else w'.keys == w.keys && Told(w'.parties[who]).None?
  }

  lemma DecideEnds(c: Config, w: World, e: Event)
    requires Enabled(w, e) && e.Decide?
    ensures GoesOnOrEnds(w, Next(c, w, e), e.who, Next(c, w, e).answers[|w.answers|..])
  {
  }

  lemma CommitEnds(c: Config, w: World, e: Event)
    requires Enabled(w, e) && e.Commit?
    ensures GoesOnOrEnds(w, Next(c, w, e), e.who, Next(c, w, e).answers[|w.answers|..])
  {
  }

  lemma RereadEnds(c: Config, w: World, e: Event)
    requires Enabled(w, e) && e.Reread?
    ensures GoesOnOrEnds(w, Next(c, w, e), e.who, Next(c, w, e).answers[|w.answers|..])
  {
  }

  lemma BodyKeepsTold(w: World, w': World, who: nat, more: seq<Answer>)
    requires AllTold(w) && HoldersOk(w) && who < |w.parties| && Holding(w.parties[who]) && !w.parties[who].phase.Settling?
    requires GoesOnOrEnds(w, w', who, more)
    ensures AllTold(w')
  {
    if w'.parties[who].phase.Settling? {
      if more != [] {
        LastIsWorkedOut(w.answers, more[0]);
        assert |more| == 1 ==> more == [more[0]];
      }
      BodyEndKeepsTold(w, w', who, w'.parties[who].phase.outcome, more);
    } else {
      PartyMoveKeepsTold(w, w', who, more);
    }
  }

  lemma SettleKeepsTold(w: World, who: nat, stored: bool)
    requires AllTold(w) && Enabled(w, Settle(who, stored))
    ensures AllTold(StepSettle(w, who, stored))
  {
    assert PartyTold(w.answers, w.parties[who]);
    PartyMoveKeepsTold(w, StepSettle(w, who, stored), who, []);
  }

  /** What is given again was recorded, and so worked out. */
  lemma BeginKeepsTold(w: World, who: nat, now: int)
    requires AllTold(w) && I.HistoryInv(w.keys) && Enabled(w, Begin(who, now))
    ensures AllTold(StepBegin(w, who, now))
  {
    var w' := StepBegin(w, who, now);
    var p := w.parties[who];
    if Told(w'.parties[who]).Some? {
      var body := Told(w'.parties[who]).value;
      var slot := I.Slot(p.phase.found.row.accountId, p.key);
      assert slot in w.keys.rows && w.keys.rows[slot].requestDigest == DigestOf(p);
      assert I.Succeeded(slot, DigestOf(p), w.keys.rows[slot].createdAt, body) in w.keys.notes;
    }
    PartyMoveKeepsTold(w, w', who, []);
  }

  lemma NewPartyKeepsTold(w: World, w': World)
    requires AllTold(w) && w'.answers == w.answers && w'.keys == w.keys
    requires |w'.parties| == |w.parties| + 1 && w'.parties[..|w.parties|] == w.parties && PartyTold(w.answers, w'.parties[|w.parties|])
    ensures AllTold(w')
  {
    forall i | 0 <= i < |w'.parties|
      ensures PartyTold(w'.answers, w'.parties[i])
    {
      assert i < |w.parties| ==> w'.parties[i] == w'.parties[..|w.parties|][i] == w.parties[i];
    }
  }

  lemma BodyStepKeepsTold(c: Config, w: World, e: Event)
    requires AllTold(w) && HoldersOk(w) && Enabled(w, e) && (e.Decide? || e.Commit? || e.Reread?)
    ensures AllTold(Next(c, w, e))
  {
    if e.Decide? {
      DecideEnds(c, w, e);
    } else if e.Commit? {
      CommitEnds(c, w, e);
    } else {
      RereadEnds(c, w, e);
    }
    BodyKeepsTold(w, Next(c, w, e), e.who, Next(c, w, e).answers[|w.answers|..]);
  }

  lemma BuyerStepKeepsTold(c: Config, w: World, e: Event)
    requires AllTold(w) && HoldersOk(w) && I.HistoryInv(w.keys) && Enabled(w, e) && IsBuyerStep(e)
    ensures AllTold(Next(c, w, e))
  {
    if e.Lookup? {
      NewPartyKeepsTold(w, Next(c, w, e));
    } else if e.Begin? {
      BeginKeepsTold(w, e.who, e.now);
    } else if e.Settle? {
      SettleKeepsTold(w, e.who, e.stored);
    } else {
      BodyStepKeepsTold(c, w, e);
    }
  }

  lemma MachineMoves(c: Config, w: World, e: Event)
    requires Enabled(w, e) && (e.AutoDecide? || e.AutoCommit? || e.Crash?)
    ensures var w' := Next(c, w, e);
            && w'.answers == w.answers && w'.keys.notes == w.keys.notes
            && |w'.parties| == |w.parties| && w'.parties == w.parties[e.who := w'.parties[e.who]]
            && Told(w'.parties[e.who]).None?
  {
  }

  lemma StepKeepsTold(c: Config, w: World, e: Event)
    requires AllTold(w) && HoldersOk(w) && I.HistoryInv(w.keys) && Enabled(w, e)
    ensures AllTold(Next(c, w, e))
  {
    var w' := Next(c, w, e);
    if IsBuyerStep(e) {
      BuyerStepKeepsTold(c, w, e);
    } else if e.AutoLookup? {
      NewPartyKeepsTold(w, w');
    } else if IsMachineStep(e) {
      MachineMoves(c, w, e);
      PartyMoveKeepsTold(w, w', e.who, []);
    } else {
      SurroundingsEvolve(w, e);
    }
  }

  // --- tokens name the entitlements that answers are about ------------------------------

  ghost predicate PartyNamed(w: World, p: Party) {
    p.Buyer? && (p.phase.Looked? || p.phase.Deciding? || p.phase.Writing?) ==> NamedBy(w, p.tokenHash, p.phase.found.id)
  }

  ghost predicate AllNamed(w: World) {
    && TokensUnique(w)
    && (forall i :: 0 <= i < |w.parties| ==> PartyNamed(w, w.parties[i]))
    && (forall i :: 0 <= i < |w.answers| ==> NamedBy(w, w.answers[i].tokenHash, w.answers[i].id))
  }

  lemma BodyIsNamed(c: Config, w: World, e: Event)
    requires AllNamed(w) && Enabled(w, e) && (e.Decide? || e.Commit?)
    ensures var w' := Next(c, w, e);
            && (PartyNamed(w, w'.parties[e.who]))
            && (forall a :: a in w'.answers ==> a in w.answers || NamedBy(w, a.tokenHash, a.id))
  {
    assert PartyNamed(w, w.parties[e.who]);
  }

  lemma RereadIsNamed(c: Config, w: World, e: Event)
    requires AllNamed(w) && Enabled(w, e) && e.Reread?
    ensures var w' := Next(c, w, e);
            && (PartyNamed(w, w'.parties[e.who]))
            && (forall a :: a in w'.answers ==> a in w.answers || NamedBy(w, a.tokenHash, a.id))
  {
  }

  lemma OthersAreNamed(c: Config, w: World, e: Event)
    requires AllNamed(w) && Enabled(w, e) && (e.Begin? || e.Settle? || e.AutoDecide? || e.AutoCommit? || e.Crash?)
    ensures var w' := Next(c, w, e); PartyNamed(w, w'.parties[e.who]) && w'.answers == w.answers
  {
    assert PartyNamed(w, w.parties[e.who]);
  }

  lemma MoveKeepsNamed(w: World, w': World, who: nat)
    requires AllNamed(w) && TokensUnique(w') && w'.tokens == w.tokens
    requires who < |w.parties| && |w'.parties| == |w.parties| && w'.parties == w.parties[who := w'.parties[who]]
    requires PartyNamed(w, w'.parties[who])
    requires forall a :: a in w'.answers ==> a in w.answers || NamedBy(w, a.tokenHash, a.id)
    ensures AllNamed(w')
  {
    forall i | 0 <= i < |w'.parties|
      ensures PartyNamed(w', w'.parties[i])
    {
      assert i != who ==> w'.parties[i] == w.parties[i];
    }
    forall i | 0 <= i < |w'.answers|
      ensures NamedBy(w', w'.answers[i].tokenHash, w'.answers[i].id)
    {
      assert w'.answers[i] in w'.answers;
    }
  }

  lemma OneMoves(c: Config, w: World, e: Event)
    requires Enabled(w, e) && (IsBuyerStep(e) || IsMachineStep(e)) && !e.Lookup? && !e.AutoLookup?
    ensures var w' := Next(c, w, e);
            e.who < |w.parties| && |w'.parties| == |w.parties| && w'.parties == w.parties[e.who := w'.parties[e.who]]
  {
  }

  lemma PartyStepKeepsNamed(c: Config, w: World, e: Event)
    requires AllNamed(w) && Enabled(w, e) && (IsBuyerStep(e) || IsMachineStep(e)) && !e.Lookup? && !e.AutoLookup?
    ensures AllNamed(Next(c, w, e))
  {
    StepKeepsTokensUnique(c, w, e);
    OneMoves(c, w, e);
    if e.Commit? || e.AutoCommit? {
      CommitKeepsTokens(c, w, e);
    } else {
      OthersKeepTables(c, w, e);
    }
    if e.Decide? || e.Commit? {
      BodyIsNamed(c, w, e);
    } else if e.Reread? {
      RereadIsNamed(c, w, e);
    } else {
      OthersAreNamed(c, w, e);
    }
    MoveKeepsNamed(w, Next(c, w, e), e.who);
  }

  lemma LookupKeepsNamed(c: Config, w: World, e: Event)
    requires AllNamed(w) && (e.Lookup? || e.AutoLookup?)
    ensures AllNamed(Next(c, w, e))
  {
  }

  lemma SurroundingsKeepNamed(w: World, e: Event)
    requires AllNamed(w)
    ensures AllNamed(Surroundings(w, e))
  {
    SurroundingsKeepTokens(w, e);
    SurroundingsEvolve(w, e);
    var w' := Surroundings(w, e);
    assert forall t :: t in w.tokens ==> t in w'.tokens && w'.tokens[t] == w.tokens[t];
    forall i | 0 <= i < |w'.parties|
      ensures PartyNamed(w', w'.parties[i])
    {
      assert PartyNamed(w, w.parties[i]);
    }
  }

  lemma StepKeepsNamed(c: Config, w: World, e: Event)
    requires AllNamed(w)
    ensures AllNamed(Next(c, w, e))
  {
    if !Enabled(w, e) {
    } else if e.Lookup? || e.AutoLookup? {
      LookupKeepsNamed(c, w, e);
    } else if IsBuyerStep(e) || IsMachineStep(e) {
      PartyStepKeepsNamed(c, w, e);
    } else {
      SurroundingsKeepNamed(w, e);
    }
  }

  // --- every run ------------------------------------------------------------------------

  lemma KeysKeepHistory(c: Config, w: World, e: Event)
    requires I.HistoryInv(w.keys) && Orderly(w, e)
    ensures I.HistoryInv(Next(c, w, e).keys)
  {
    ClaimsFollowIdempotency(c, w, e);
    if Next(c, w, e).keys != w.keys {
      var k :| KeysMoveBy(w, e, Next(c, w, e).keys, k);
      I.StepKeepsHistory(w.keys, k);
    }
  }

  lemma {:induction false} RunKeepsTold(c: Config, w: World, es: seq<Event>)
    requires AllTold(w) && AllNamed(w) && HoldersOk(w) && I.HistoryInv(w.keys) && OrderlyRun(c, w, es)
    ensures AllTold(Run(c, w, es)) && AllNamed(Run(c, w, es)) && I.HistoryInv(Run(c, w, es).keys)
    decreases |es|
  {
    if es != [] {
      if Enabled(w, es[0]) {
        StepKeepsTold(c, w, es[0]);
        StepKeepsHolders(c, w, es[0]);
      }
      StepKeepsNamed(c, w, es[0]);
      KeysKeepHistory(c, w, es[0]);
      RunKeepsTold(c, Next(c, w, es[0]), es[1..]);
    }
  }

  /** The entitlement this token was issued for is claimed by this buyer, and this status was worked out for the two. */
  ghost predicate TrueOf(w: World, d: Digest, status: PublicStatus) {
    && WorkedOut(w.answers, d, status)
    && d.tokenHash in w.tokens && w.tokens[d.tokenHash] in w.tables.entitlements
    && w.tables.entitlements[w.tokens[d.tokenHash]].claimedBy == Some(d.commonUserId)
  }

  lemma WorkedOutIsTrue(c: Config, w: World, d: Digest, status: PublicStatus)
    requires Inv(c, w) && AllNamed(w) && WorkedOut(w.answers, d, status)
    ensures TrueOf(w, d, status)
  {
    var i :| 0 <= i < |w.answers| && w.answers[i].tokenHash == d.tokenHash && w.answers[i].commonUserId == d.commonUserId
             && w.answers[i].status == status;
    assert AnswerStands(w.tables, w.answers[i]);
    assert NamedBy(w, w.answers[i].tokenHash, w.answers[i].id);
  }

  /**
   Whatever a buyer was answered other than "pending", at first or again under the same key, was
   worked out for that buyer and that token, and the buyer is the claimer of the entitlement the
   token was issued for.
   */
  lemma RepliesAreTrue(c: Config, clock: int, es: seq<Event>, i: nat)
    requires OrderlyRun(c, Start(clock), es)
    ensures var w := Run(c, Start(clock), es);
            i < |w.parties| && w.parties[i].Buyer? && Told(w.parties[i]).Some? && !Told(w.parties[i]).value.commonUserPending
            ==> TrueOf(w, DigestOf(w.parties[i]), Told(w.parties[i]).value.status)
  {
    RunKeepsInv(c, Start(clock), es);
    RunKeepsTold(c, Start(clock), es);
    var w := Run(c, Start(clock), es);
    if i < |w.parties| && w.parties[i].Buyer? && Told(w.parties[i]).Some? && !Told(w.parties[i]).value.commonUserPending {
      assert PartyTold(w.answers, w.parties[i]);
      WorkedOutIsTrue(c, w, DigestOf(w.parties[i]), Told(w.parties[i]).value.status);
    }
  }

  /**
   What is recorded under a key is the confirmation worked out for the very token and buyer it is
   bound to, never a "pending" one, and still true; so is whatever is given again.
   */
  lemma RecordedConfirmations(c: Config, clock: int, es: seq<Event>)
    requires OrderlyRun(c, Start(clock), es)
    ensures var w := Run(c, Start(clock), es);
            && I.SoundNotes(w.keys.notes)
            && (forall s :: s in w.keys.rows && w.keys.rows[s].progress.Completed? ==>
                  var row := w.keys.rows[s];
                  !row.progress.responseBody.commonUserPending && TrueOf(w, row.requestDigest, row.progress.responseBody.status)
                  && I.Succeeded(s, row.requestDigest, row.createdAt, row.progress.responseBody) in w.keys.notes)
            && (forall n :: n in w.keys.notes && n.Repeated? ==>
                  !n.body.commonUserPending && TrueOf(w, n.digest, n.body.status))
  {
    RunKeepsInv(c, Start(clock), es);
    RunKeepsTold(c, Start(clock), es);
    var w := Run(c, Start(clock), es);
    forall n | n in w.keys.notes && n.Succeeded?
      ensures !n.body.commonUserPending && TrueOf(w, n.digest, n.body.status)
    {
      assert NoteTold(w.answers, n);
      WorkedOutIsTrue(c, w, n.digest, n.body.status);
    }
    forall n | n in w.keys.notes && n.Repeated?
      ensures !n.body.commonUserPending && TrueOf(w, n.digest, n.body.status)
    {
      var j :| 0 <= j < |w.keys.notes| && w.keys.notes[j] == n;
      var i :| 0 <= i < j && I.RepeatOf(w.keys.notes[i], w.keys.notes[j]);
      assert w.keys.notes[i] in w.keys.notes;
    }
  }
}
