/**
 When queueing a notice again does conflict with the one that is queued: exactly by a refund that
 is dated back while a pass has yet to queue the notice it has listed.
 */
module RevocationConflicts {
  import opened Wrappers
  import opened WalletEvents
  import opened Revocation
  import opened RevocationRepair
  import opened RevocationPasses

  // --- passes and nothing else ----------------------------------------------------------

  predicate IsPassStep(e: Event) {
    e.BeginPass? || e.Repair? || e.Queue?
  }

  predicate OnlyPasses(es: seq<Event>) {
    forall i :: 0 <= i < |es| ==> IsPassStep(es[i])
  }

  /** What passes alone can come to. */
  ghost predicate Reaches(hash: Hasher, w: World, w': World) {
    exists es :: OnlyPasses(es) && w' == Run(hash, w, es)
  }

  lemma {:induction false} RunOfBoth(hash: Hasher, w: World, es: seq<Event>, more: seq<Event>)
    ensures Run(hash, w, es + more) == Run(hash, Run(hash, w, es), more)
    decreases |es|
  {
    if es == [] {
      assert es + more == more;
    } else {
      assert (es + more)[1..] == es[1..] + more;
      RunOfBoth(hash, Next(hash, w, es[0]), es[1..], more);
    }
  }

  lemma ReachesFurther(hash: Hasher, w: World, w1: World, w2: World)
    requires Reaches(hash, w, w1) && Reaches(hash, w1, w2)
    ensures Reaches(hash, w, w2)
  {
    var es :| OnlyPasses(es) && w1 == Run(hash, w, es);
    var more :| OnlyPasses(more) && w2 == Run(hash, w1, more);
    RunOfBoth(hash, w, es, more);
    assert OnlyPasses(es + more);
  }

  lemma ReachesByStep(hash: Hasher, w: World, e: Event)
    requires IsPassStep(e)
    ensures Reaches(hash, w, Next(hash, w, e))
  {
    assert [e][1..] == [];
    assert OnlyPasses([e]) && Next(hash, w, e) == Run(hash, w, [e]);
  }

  lemma ReachesItself(hash: Hasher, w: World)
    ensures Reaches(hash, w, w)
  {
    assert OnlyPasses([]) && w == Run(hash, w, []);
  }

  /** However the passes go on from here, no conflict is recorded. */
  ghost predicate Peaceful(hash: Hasher, w: World) {
    forall w' :: Reaches(hash, w, w') ==> NoConflict(w')
  }

  ghost predicate StaysPeaceful(hash: Hasher, w: World, es: seq<Event>)
    decreases |es|
  {
    Peaceful(hash, w) && (es == [] || StaysPeaceful(hash, Next(hash, w, es[0]), es[1..]))
  }

  lemma {:induction false} PassesAreCalm(hash: Hasher, w: World, es: seq<Event>)
    requires OnlyPasses(es)
    ensures CalmRun(hash, w, es)
    decreases |es|
  {
    if es != [] {
      assert IsPassStep(es[0]);
      assert !Upsets(hash, w, es[0]);
      PassesAreCalm(hash, Next(hash, w, es[0]), es[1..]);
    }
  }

  lemma AgreementIsPeaceful(hash: Hasher, w: World)
    requires Fits(hash, w) && AllAgree(hash, w)
    ensures Peaceful(hash, w)
  {
    forall w' | Reaches(hash, w, w')
      ensures NoConflict(w')
    {
      var es :| OnlyPasses(es) && w' == Run(hash, w, es);
      PassesAreCalm(hash, w, es);
      RunKeepsAgreement(hash, w, es);
    }
  }

  // --- a pass can go on to any of its rows ----------------------------------------------

  /** Reviews stay open, and what is queued stays queued as it is. */
  ghost predicate Records(w: World, w': World) {
    && w.db.reviews <= w'.db.reviews
    && (forall event :: event in w.db.outbox ==>
          event in w'.db.outbox && w'.db.outbox[event].payloadHash == w.db.outbox[event].payloadHash)
  }

  /** Only this pass has moved, to this row. */
  ghost predicate MovedTo(w: World, w': World, who: nat, k: nat) {
    && who < |w.passes| == |w'.passes|
    && w'.passes == w.passes[who := w'.passes[who]]
    && w'.passes[who].rows == w.passes[who].rows && w'.passes[who].next == k && !w'.passes[who].phase.Over?
  }

  /** This notice is queued, or a conflict over it recorded; the latter if another one was queued before. */
  ghost predicate NoticeSettled(w: World, w': World, id: string, p: Plan) {
    && ((p.eventId in w'.db.outbox && w'.db.outbox[p.eventId].payloadHash == p.payloadHash)
        || (id, PayloadConflict) in w'.db.reviews)
    && (p.eventId in w.db.outbox && w.db.outbox[p.eventId].payloadHash != p.payloadHash ==>
          (id, PayloadConflict) in w'.db.reviews)
  }

  lemma QueueingRow(w: World, who: nat)
    requires Enabled(w, Queue(who))
    ensures var pass := w.passes[who];
            var w' := StepQueue(w, who);
            Records(w, w') && MovedTo(w, w', who, pass.next + 1)
            && NoticeSettled(w, w', pass.rows[pass.next].entitlementId, pass.phase.plan)
  {
  }

  lemma StoppingRow(hash: Hasher, w: World, who: nat)
    requires Enabled(w, Repair(who)) && IsUuid(w.passes[who].rows[w.passes[who].next].orderId)
    ensures var pass := w.passes[who];
            var planned := Planned(hash, pass.rows[pass.next]);
            var w' := StepRepair(hash, w, who);
            Records(w, w')
            && (if planned.None? then MovedTo(w, w', who, pass.next + 1)
                else MovedTo(w, w', who, pass.next) && w'.passes[who].phase == Stopped(planned.value)
                     && (forall event :: event in w'.db.outbox ==> event in w.db.outbox))
  {
    var row := w.passes[who].rows[w.passes[who].next];
    if DecideRevocation(row, true).RevokeAndNotify? {
      DecidedRowsCanBePlanned(hash, row);
    }
  }

  /** What passes alone can come to, in good order and with nothing lost. */
  ghost predicate GoesOnTo(hash: Hasher, w: World, w': World) {
    Reaches(hash, w, w') && Fits(hash, w') && Records(w, w')
  }

  lemma GoesOnFurther(hash: Hasher, w: World, w1: World, w2: World)
    requires GoesOnTo(hash, w, w1) && GoesOnTo(hash, w1, w2)
    ensures GoesOnTo(hash, w, w2)
  {
    ReachesFurther(hash, w, w1, w2);
  }

  lemma StepGoesOn(hash: Hasher, w: World, e: Event)
    requires Fits(hash, w) && IsPassStep(e) && Records(w, Next(hash, w, e))
    ensures GoesOnTo(hash, w, Next(hash, w, e))
  {
    ReachesByStep(hash, w, e);
    StepKeepsFit(hash, w, e);
  }

  /** Up to where a notice is ready, or past a row without one. */
  lemma BeginRow(hash: Hasher, w: World, who: nat) returns (w': World)
    requires Fits(hash, w) && who < |w.passes| && ToDo(w.passes[who], w.passes[who].next)
    ensures var pass := w.passes[who];
            var planned := Planned(hash, pass.rows[pass.next]);
            GoesOnTo(hash, w, w')
            && (if planned.None? then MovedTo(w, w', who, pass.next + 1)
                else MovedTo(w, w', who, pass.next) && w'.passes[who].phase == Stopped(planned.value)
                     && (forall event :: event in w'.db.outbox ==> event in w.db.outbox))
  {
    var pass := w.passes[who];
    assert PassFits(hash, w.db, pass);
    if pass.phase.AtRow? {
      assert Describes(w.db, pass.rows[pass.next]);
      StoppingRow(hash, w, who);
      StepGoesOn(hash, w, Repair(who));
      w' := Next(hash, w, Repair(who));
    } else {
      ReachesItself(hash, w);
      w' := w;
    }
  }

  lemma FinishRow(hash: Hasher, w: World, who: nat) returns (w': World)
    requires Fits(hash, w) && Enabled(w, Queue(who))
    ensures GoesOnTo(hash, w, w') && MovedTo(w, w', who, w.passes[who].next + 1)
    ensures NoticeSettled(w, w', w.passes[who].rows[w.passes[who].next].entitlementId, w.passes[who].phase.plan)
  {
    QueueingRow(w, who);
    StepGoesOn(hash, w, Queue(who));
    w' := Next(hash, w, Queue(who));
  }

  lemma SettledOnTheWay(w: World, w1: World, w2: World, who: nat, k: nat, id: string, p: Plan)
    requires Records(w, w1) && MovedTo(w, w1, who, k) && MovedTo(w1, w2, who, k + 1)
    requires NoticeSettled(w1, w2, id, p)
    ensures MovedTo(w, w2, who, k + 1) && NoticeSettled(w, w2, id, p)
  {
  }

  /** The next row of a pass is brought to its end. */
  lemma DoRow(hash: Hasher, w: World, who: nat) returns (w': World)
    requires Fits(hash, w) && who < |w.passes| && ToDo(w.passes[who], w.passes[who].next)
    ensures GoesOnTo(hash, w, w') && MovedTo(w, w', who, w.passes[who].next + 1)
    ensures var row := w.passes[who].rows[w.passes[who].next];
            Planned(hash, row).Some? ==> NoticeSettled(w, w', row.entitlementId, Planned(hash, row).value)
  {
    var k, row := w.passes[who].next, w.passes[who].rows[w.passes[who].next];
    var planned := Planned(hash, row);
    w' := BeginRow(hash, w, who);
    if planned.Some? {
      var stopped := w';
      w' := FinishRow(hash, stopped, who);
      SettledOnTheWay(w, stopped, w', who, k, row.entitlementId, planned.value);
      GoesOnFurther(hash, w, stopped, w');
    }
  }

  lemma {:induction false} WalkTo(hash: Hasher, w: World, who: nat, k: nat) returns (w': World)
    requires Fits(hash, w) && who < |w.passes| && ToDo(w.passes[who], k)
    ensures GoesOnTo(hash, w, w') && MovedTo(w, w', who, k)
    decreases k - w.passes[who].next
  {
    if k == w.passes[who].next {
      ReachesItself(hash, w);
      w' := w;
    } else {
      var w1 := DoRow(hash, w, who);
      w' := WalkTo(hash, w1, who, k);
      GoesOnFurther(hash, w, w1, w');
    }
  }

  /** A pass goes on until it has dealt with this row. */
  lemma DealWith(hash: Hasher, w: World, who: nat, k: nat) returns (w': World)
    requires Fits(hash, w) && who < |w.passes| && ToDo(w.passes[who], k) && Planned(hash, w.passes[who].rows[k]).Some?
    ensures GoesOnTo(hash, w, w') && |w'.passes| == |w.passes|
    ensures forall i :: 0 <= i < |w.passes| && i != who ==> w'.passes[i] == w.passes[i]
    ensures NoticeSettled(w, w', w.passes[who].rows[k].entitlementId, Planned(hash, w.passes[who].rows[k]).value)
  {
    var w1 := WalkTo(hash, w, who, k);
    w' := DoRow(hash, w1, who);
    GoesOnFurther(hash, w, w1, w');
  }

  // --- a listing that shows everything --------------------------------------------------

  lemma {:induction false} DrawAll(db: Database, rows: seq<MissingRow>, rest: set<string>) returns (all: seq<MissingRow>)
    requires Drawing(db, rows, rest)
    ensures Drawing(db, all, {})
    decreases |rest|
  {
    if rest == {} {
      return rows;
    }
    KeysAreMissing(db);
    OldestExists(Ages(db), rest);
    var id :| id in rest && forall other :: other in rest ==> Ages(db)[id] <= Ages(db)[other];
    assert id in MissingIds(db);
    var row := RowOf(db, id, GrantedOf(db.outbox, id));
    DrawingGoesOn(db, rows, rest, row);
    all := DrawAll(db, rows + [row], rest - {id});
  }

  lemma ListingShows(db: Database, id: string) returns (rows: seq<MissingRow>, k: nat)
    requires id in MissingIds(db)
    ensures IsListing(db, |MissingIds(db)|, rows) && k < |rows| && rows[k] == RowOf(db, id, GrantedOf(db.outbox, id))
  {
    KeysAreMissing(db);
    rows := DrawAll(db, [], Ages(db).Keys);
    DrawingEnds(db, rows, {}, |rows|);
    assert id in Ages(db).Keys && id in IdsOf(rows, |rows|);
    IdsAreListed(rows, |rows|, id);
    k :| 0 <= k < |rows| && rows[k].entitlementId == id;
  }

  // --- two instants conflict ------------------------------------------------------------

  lemma NewPassBegins(hash: Hasher, w: World, id: string) returns (w': World, n: nat)
    requires Fits(hash, w) && id in MissingIds(w.db)
    ensures GoesOnTo(hash, w, w') && |w'.passes| == |w.passes| + 1 && w'.passes[..|w.passes|] == w.passes
    ensures ToDo(w'.passes[|w.passes|], n) && w'.passes[|w.passes|].rows[n] == RowOf(w.db, id, GrantedOf(w.db.outbox, id))
  {
    var rows;
    rows, n := ListingShows(w.db, id);
    StepGoesOn(hash, w, BeginPass(|MissingIds(w.db)|, rows));
    w' := Next(hash, w, BeginPass(|MissingIds(w.db)|, rows));
  }

  /** The same row read at another instant has another notice, under the same id. */
  ghost predicate Contradicts(hash: Hasher, row: MissingRow, other: MissingRow) {
    && other.entitlementId == row.entitlementId && Planned(hash, row).Some? && Planned(hash, other).Some?
    && Planned(hash, other).value.eventId == Planned(hash, row).value.eventId
    && Planned(hash, other).value.payloadHash != Planned(hash, row).value.payloadHash
  }

  lemma OtherInstantContradicts(hash: Hasher, row: MissingRow, at: int)
    requires forall a, b :: hash(a) == hash(b) ==> a == b
    requires IsUuid(row.orderId) && Planned(hash, row).Some? && at != row.occurredAt
    ensures Contradicts(hash, row, row.(occurredAt := at))
  {
    SameEventExactlyWhenSameInstant(hash, row, at);
  }

  /** A row read at one instant and the tables at another: a new pass queues the one, and the old pass the other. */
  lemma TwoInstantsConflict(hash: Hasher, w: World, who: nat, k: nat)
    requires forall a, b :: hash(a) == hash(b) ==> a == b
    requires Fits(hash, w) && who < |w.passes| && ToDo(w.passes[who], k)
    requires var row := w.passes[who].rows[k];
             Planned(hash, row).Some? && Describes(w.db, row) && !HasRevoked(w.db.outbox, row.entitlementId)
             && row.occurredAt != OccurredAt(w.db, row.entitlementId)
    ensures !Peaceful(hash, w)
  {
    var row := w.passes[who].rows[k];
    var w1, n := NewPassBegins(hash, w, row.entitlementId);
    OtherInstantContradicts(hash, row, OccurredAt(w.db, row.entitlementId));
    assert Contradicts(hash, row, w1.passes[|w.passes|].rows[n]);
    assert w1.passes[who] == w1.passes[..|w.passes|][who] == w.passes[who];
    var w2 := DealWith(hash, w1, |w.passes|, n);
    GoesOnFurther(hash, w, w1, w2);
    assert w2.passes[who] == w.passes[who];
    var w3 := DealWith(hash, w2, who, k);
    GoesOnFurther(hash, w, w2, w3);
    assert (row.entitlementId, PayloadConflict) in w3.db.reviews;
  }

  lemma UpsetEndsPeace(hash: Hasher, w: World, e: Event)
    requires forall a, b :: hash(a) == hash(b) ==> a == b
    requires Fits(hash, w) && AllAgree(hash, w) && Upsets(hash, w, e)
    ensures !Peaceful(hash, Next(hash, w, e))
  {
    var i: nat, k: nat :| BackDatesListed(hash, w, e, i, k);
    var w' := Next(hash, w, e);
    var row := w.passes[i].rows[k];
    assert PassFits(hash, w.db, w.passes[i]);
    assert w'.passes == w.passes;
    StepKeepsFit(hash, w, e);
    StepKeeps(hash, w, e, row.entitlementId);
    KeptKinds(w.db, w'.db, row.entitlementId);
    InstantMovesExactlyWhenBackDated(hash, w, e, row.entitlementId);
    TwoInstantsConflict(hash, w', i, k);
  }

  /**
   However the passes go on at any point of a run, no conflict is recorded, exactly when no refund
   of the run is dated back while a pass has yet to queue a notice of that order.
   */
  lemma {:induction false} PeacefulExactlyWhenCalm(hash: Hasher, w: World, es: seq<Event>)
    requires forall a, b :: hash(a) == hash(b) ==> a == b
    requires Fits(hash, w) && AllAgree(hash, w)
    ensures StaysPeaceful(hash, w, es) <==> CalmRun(hash, w, es)
    decreases |es|
  {
    AgreementIsPeaceful(hash, w);
    if es != [] {
      if Upsets(hash, w, es[0]) {
        UpsetEndsPeace(hash, w, es[0]);
      } else {
        StepKeepsFit(hash, w, es[0]);
        StepKeepsAgreement(hash, w, es[0]);
        PeacefulExactlyWhenCalm(hash, Next(hash, w, es[0]), es[1..]);
      }
    }
  }

  // --- such a run -----------------------------------------------------------------------

  datatype Story = Story(
    id: string, order: string, commonUserId: string, generatedId: string, grant: OutboxRow, settledAt: int)

  predicate GoodStory(s: Story) {
    IsUuid(s.order) && IsUuid(s.generatedId) && IsCommonUserId(s.commonUserId)
  }

  /** A purchase, its claim with the grant, a refund without notice. */
  function Beginning(s: Story): seq<Event> {
    [Issue(s.id, s.order, "", "", 0), Claim(s.id, s.commonUserId, s.generatedId, Some(s.grant), 1),
     Event.Refund(s.id, false, true, s.settledAt, 2)]
  }

  function AfterBeginning(s: Story): Database {
    Database(map[s.id := Entitlement(s.order, "", "", EntitlementStatus.Revoked, Some(s.commonUserId), 2)],
             map[s.order := s.settledAt],
             map["evt_" + s.generatedId := s.grant.(eventType := GrantedEvent, entitlementId := s.id, status := Pending)], {})
  }

  function ListedRow(s: Story): MissingRow {
    RowOf(AfterBeginning(s), s.id, "evt_" + s.generatedId)
  }

  lemma BeginningComesTo(hash: Hasher, s: Story)
    requires GoodStory(s)
    ensures Run(hash, Start(), Beginning(s)) == World(AfterBeginning(s), [], {})
  {
    var es := Beginning(s);
    assert es[1..] == [es[1], es[2]] && es[1..][1..] == [es[2]] && es[1..][1..][1..] == [];
    var w1 := Next(hash, Start(), es[0]);
    assert w1.db.entitlements == map[s.id := Entitlement(s.order, "", "", Issued, None, 0)];
    var w2 := Next(hash, w1, es[1]);
    assert w2.db.entitlements == map[s.id := Entitlement(s.order, "", "", EntitlementStatus.Claimed, Some(s.commonUserId), 1)];
    assert w2.db.outbox == AfterBeginning(s).outbox;
    assert Next(hash, w2, es[2]).db == AfterBeginning(s);
    assert Run(hash, w2, [es[2]]) == Run(hash, Next(hash, w2, es[2]), []);
  }

  lemma TheRowIsListed(s: Story)
    ensures IsListing(AfterBeginning(s), 1, [ListedRow(s)])
  {
    var db, event := AfterBeginning(s), "evt_" + s.generatedId;
    assert event in db.outbox && IsGranted(db.outbox, event, s.id);
    assert GrantedOf(db.outbox, s.id) == event;
    assert MissingIds(db) == {s.id};
    KeysAreMissing(db);
    assert IdsOf([ListedRow(s)], 1) == {s.id};
    assert [ListedRow(s)][..0] == [];
  }

  lemma TheRowHasANotice(hash: Hasher, s: Story)
    requires GoodStory(s)
    ensures Planned(hash, ListedRow(s)).Some?
  {
    DecidedRowsCanBePlanned(hash, ListedRow(s));
  }

  function AfterListing(s: Story): World {
    World(AfterBeginning(s), [Pass([ListedRow(s)], 0, AtRow)], {})
  }

  lemma ListingComesTo(hash: Hasher, s: Story)
    requires GoodStory(s)
    ensures Next(hash, Run(hash, Start(), Beginning(s)), BeginPass(1, [ListedRow(s)])) == AfterListing(s)
    ensures Fits(hash, AfterListing(s)) && AllAgree(hash, AfterListing(s))
  {
    BeginningComesTo(hash, s);
    TheRowIsListed(s);
    CalmBeginning(hash, Start(), Beginning(s));
    var w, e := World(AfterBeginning(s), [], {}), BeginPass(1, [ListedRow(s)]);
    assert w.passes + [Pass([ListedRow(s)], 0, AtRow)] == [Pass([ListedRow(s)], 0, AtRow)];
    StepKeepsFit(hash, w, e);
    BeginningKeepsAgreement(hash, w, e);
  }

  lemma TheListingIsUpset(hash: Hasher, s: Story, at: int)
    requires GoodStory(s) && at < s.settledAt
    ensures Upsets(hash, AfterListing(s), OtherRefund(s.order, at))
  {
    TheRowHasANotice(hash, s);
    var w := AfterListing(s);
    assert w.passes[0].rows[0] == ListedRow(s) && ToDo(w.passes[0], 0);
    assert BackDatesListed(hash, w, OtherRefund(s.order, at), 0, 0);
  }

  lemma RunOfTwo(hash: Hasher, w: World, a: Event, b: Event)
    ensures Run(hash, w, [a, b]) == Next(hash, Next(hash, w, a), b)
  {
    assert [a, b][1..] == [b] && [b][1..] == [];
    assert Run(hash, Next(hash, w, a), [b]) == Next(hash, Next(hash, w, a), b);
  }

  /** From the start: a back-dated refund after the listing, and a second pass can make a conflict of it. */
  lemma BackDatingEndsPeace(hash: Hasher, s: Story, at: int)
    requires forall a, b :: hash(a) == hash(b) ==> a == b
    requires GoodStory(s) && at < s.settledAt
    ensures var es := Beginning(s) + [BeginPass(1, [ListedRow(s)]), OtherRefund(s.order, at)];
            !Peaceful(hash, Run(hash, Start(), es))
  {
    var e, e' := BeginPass(1, [ListedRow(s)]), OtherRefund(s.order, at);
    ListingComesTo(hash, s);
    TheListingIsUpset(hash, s, at);
    UpsetEndsPeace(hash, AfterListing(s), e');
    RunOfTwo(hash, Run(hash, Start(), Beginning(s)), e, e');
    RunOfBoth(hash, Start(), Beginning(s), [e, e']);
  }

  lemma {:induction false} CalmBeginning(hash: Hasher, w: World, es: seq<Event>)
    requires Fits(hash, w) && AllAgree(hash, w) && w.passes == [] && forall i :: 0 <= i < |es| ==> !es[i].BeginPass?
    ensures Fits(hash, Run(hash, w, es)) && AllAgree(hash, Run(hash, w, es)) && Run(hash, w, es).passes == []
    decreases |es|
  {
    if es != [] {
      assert !Upsets(hash, w, es[0]);
      StepKeepsFit(hash, w, es[0]);
      StepKeepsAgreement(hash, w, es[0]);
      PassesBegin(hash, w, es[0]);
      CalmBeginning(hash, Next(hash, w, es[0]), es[1..]);
    }
  }
}
