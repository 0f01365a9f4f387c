/**
 Idempotency keys: the table behind them, the service that takes a key before any work is
 done, and every interleaving of the requests that use it.

 A digest and a response body are type parameters, so that the same results serve the
 catalogue operations and the claim confirmation.
 */
module Idempotency {
  import opened Wrappers

  const IDEMPOTENCY_TTL_MS: int := 24 * 60 * 60 * 1000

  // --- the stored rows ------------------------------------------------------------------

  datatype Slot = Slot(actorAccountId: string, key: string)

  datatype Progress<B> = InProgress | Completed(statusCode: int, responseBody: B)

  datatype Row<D, B> = Row(requestDigest: D, progress: Progress<B>, createdAt: int, expiresAt: int)

  datatype ClaimResult<D, B> = ClaimResult(claimed: bool, existing: Option<Row<D, B>>)

  /** An expired row counts as never used. */
  function Purged<D, B>(rows: map<Slot, Row<D, B>>, slot: Slot, now: int): map<Slot, Row<D, B>> {
    if slot in rows && rows[slot].expiresAt <= now then rows - {slot} else rows
  }

  /** One transaction: drop an expired row, insert unless a row is there, report what is there. */
  function ClaimRow<D, B>(rows: map<Slot, Row<D, B>>, slot: Slot, digest: D, now: int, expiresAt: int)
    : (map<Slot, Row<D, B>>, ClaimResult<D, B>)
  {
    var kept := Purged(rows, slot, now);
    if slot in kept then (kept, ClaimResult(false, Some(kept[slot])))
    else (kept[slot := Row(digest, InProgress, now, expiresAt)], ClaimResult(true, None))
  }

  /** The update is by key alone; it fails when there is no such row. */
  function CompleteRow<D, B>(rows: map<Slot, Row<D, B>>, slot: Slot, statusCode: int, body: B)
    : Option<map<Slot, Row<D, B>>>
  {
    if slot in rows then Some(rows[slot := rows[slot].(progress := Completed(statusCode, body))]) else None
  }

  /** Only a row still in progress is removed; a completed one stays. */
  function ReleaseRow<D, B>(rows: map<Slot, Row<D, B>>, slot: Slot): map<Slot, Row<D, B>> {
    if slot in rows && rows[slot].progress.InProgress? then rows - {slot} else rows
  }

  // --- what `begin` answers -------------------------------------------------------------

  datatype Refusal = Vanished | DifferentDigest | StillRunning

  datatype Outcome<B> = Proceed | Replay(body: B) | Refuse(reason: Refusal)

  function OutcomeOf<D(==), B>(result: ClaimResult<D, B>, digest: D): Outcome<B> {
    if result.claimed then Proceed
    else match result.existing
      case None => Refuse(Vanished)
      case Some(row) =>
        if row.requestDigest != digest then Refuse(DifferentDigest)
        else match row.progress
          case InProgress => Refuse(StillRunning)
          case Completed(_, body) => Replay(body)
  }

  // --- interleaved requests -------------------------------------------------------------

  /**
   How a guarded body ends. `Unrecorded` is a result that is answered but must not be kept:
   the key is given back, as after a failure.
   */
  datatype BodyResult<B> = Recorded(body: B) | Unrecorded(body: B) | Failed

  datatype Reply<B> = Answered(body: B) | Replayed(body: B) | Refused(reason: Refusal) | Error

  datatype Phase<B> =
    | Running(startedAt: int)
    | Ended(startedAt: int, result: BodyResult<B>)
    | Done(reply: Reply<B>)
    | Crashed

  datatype Request<D, B> = Request(slot: Slot, digest: D, phase: Phase<B>)

  /** What happened so far, in order. */
  datatype Note<D, B> =
    | Started(slot: Slot, at: int)
    | Succeeded(slot: Slot, digest: D, startedAt: int, body: B)
    | Repeated(slot: Slot, digest: D, at: int, body: B)

  datatype World<D, B> = World(
    rows: map<Slot, Row<D, B>>, requests: seq<Request<D, B>>, clock: int, notes: seq<Note<D, B>>)

  /**
   `stored` tells whether the closing write (complete or release) reached the database;
   a request that crashes simply never takes another step.
   */
  datatype Event<D, B> =
    | Arrive(slot: Slot, digest: D, now: int)
    | BodyEnds(who: nat, result: BodyResult<B>)
    | Settle(who: nat, statusCode: int, stored: bool)
    | Crash(who: nat)

  function Start<D, B>(clock: int): World<D, B> {
    World(map[], [], clock, [])
  }

  predicate Holds<D, B>(w: World<D, B>, who: nat) {
    who < |w.requests| && (w.requests[who].phase.Running? || w.requests[who].phase.Ended?)
  }

  function Next<D(==), B>(w: World<D, B>, e: Event<D, B>): World<D, B> {
    match e
    case Arrive(slot, digest, now) => Arrival(w, slot, digest, now)
    case BodyEnds(who, result) =>
      if who < |w.requests| && w.requests[who].phase.Running? then
        var r := w.requests[who];
        w.(requests := w.requests[who := r.(phase := Ended(r.phase.startedAt, result))],
           notes := if result.Recorded?
                    then w.notes + [Succeeded(r.slot, r.digest, r.phase.startedAt, result.body)]
                    else w.notes)
      else w
    case Settle(who, statusCode, stored) =>
      if who < |w.requests| && w.requests[who].phase.Ended? then Settled(w, who, statusCode, stored) else w
    case Crash(who) =>
      if Holds(w, who) then w.(requests := w.requests[who := w.requests[who].(phase := Crashed)]) else w
  }

  function Arrival<D(==), B>(w: World<D, B>, slot: Slot, digest: D, now: int): World<D, B> {
    var (rows, result) := ClaimRow(w.rows, slot, digest, now, now + IDEMPOTENCY_TTL_MS);
    match OutcomeOf(result, digest)
    case Proceed =>
      World(rows, w.requests + [Request(slot, digest, Running(now))], now, w.notes + [Started(slot, now)])
    case Replay(body) =>
      World(rows, w.requests + [Request(slot, digest, Done(Replayed(body)))], now,
            w.notes + [Repeated(slot, digest, now, body)])
    case Refuse(reason) =>
      World(rows, w.requests + [Request(slot, digest, Done(Refused(reason)))], now, w.notes)
  }

  /** A failed `complete` is an error to the caller; a failed `release` is swallowed. */
  function Settled<D, B>(w: World<D, B>, who: nat, statusCode: int, stored: bool): World<D, B>
    requires who < |w.requests| && w.requests[who].phase.Ended?
  {
    var r := w.requests[who];
    match r.phase.result
    case Recorded(body) =>
      var completed := if stored then CompleteRow(w.rows, r.slot, statusCode, body) else None;
      match completed {
        case Some(rows) => w.(rows := rows, requests := w.requests[who := r.(phase := Done(Answered(body)))])
        case None => w.(requests := w.requests[who := r.(phase := Done(Error))])
      }
    case Unrecorded(body) =>
      w.(rows := if stored then ReleaseRow(w.rows, r.slot) else w.rows,
         requests := w.requests[who := r.(phase := Done(Answered(body)))])
    case Failed =>
      w.(rows := if stored then ReleaseRow(w.rows, r.slot) else w.rows,
         requests := w.requests[who := r.(phase := Done(Error))])
  }

  function Run<D(==), B>(w: World<D, B>, es: seq<Event<D, B>>): World<D, B>
    decreases |es|
  {
    if es == [] then w else Run(Next(w, es[0]), es[1..])
  }

  lemma RunOfThree<D, B>(w: World<D, B>, a: Event<D, B>, b: Event<D, B>, c: Event<D, B>)
    ensures Run(w, [a, b, c]) == Next(Next(Next(w, a), b), c)
  {
    assert [a, b, c][1..] == [b, c] && [b, c][1..] == [c];
    assert Run(Next(Next(w, a), b), [c]) == Next(Next(Next(w, a), b), c);
  }

  // --- one holder at a time -------------------------------------------------------------

  /** No two requests are between taking and giving back the same key. */
  ghost predicate Exclusive<D, B>(w: World<D, B>) {
    forall i: nat, j: nat :: Holds(w, i) && Holds(w, j) && w.requests[i].slot == w.requests[j].slot ==> i == j
  }

  /** Whoever holds a key finds its own row, in progress, under that key. */
  ghost predicate Owned<D, B>(w: World<D, B>) {
    && (forall s :: s in w.rows ==> w.rows[s].expiresAt == w.rows[s].createdAt + IDEMPOTENCY_TTL_MS)
    && (forall i: nat :: Holds(w, i) ==>
          var r := w.requests[i];
          r.slot in w.rows && w.rows[r.slot] ==
            Row(r.digest, InProgress, r.phase.startedAt, r.phase.startedAt + IDEMPOTENCY_TTL_MS))
  }

  ghost predicate Inv<D, B>(w: World<D, B>) {
    Exclusive(w) && Owned(w)
  }

  /** Nobody arrives for a key whose current holder has outlived its twenty-four hours. */
  ghost predicate Timely<D, B>(w: World<D, B>, e: Event<D, B>) {
    e.Arrive? ==>
      forall i: nat :: Holds(w, i) && w.requests[i].slot == e.slot ==>
        e.now < w.requests[i].phase.startedAt + IDEMPOTENCY_TTL_MS
  }

  ghost predicate TimelyRun<D, B>(w: World<D, B>, es: seq<Event<D, B>>)
    decreases |es|
  {
    es == [] || (Timely(w, es[0]) && TimelyRun(Next(w, es[0]), es[1..]))
  }

  ghost predicate AlwaysExclusive<D, B>(w: World<D, B>, es: seq<Event<D, B>>)
    decreases |es|
  {
    Exclusive(w) && (es == [] || AlwaysExclusive(Next(w, es[0]), es[1..]))
  }

  lemma ArrivalKeepsInv<D, B>(w: World<D, B>, slot: Slot, digest: D, now: int)
    requires Inv(w) && Timely(w, Arrive(slot, digest, now))
    ensures Inv(Arrival(w, slot, digest, now))
  {
    var w' := Arrival(w, slot, digest, now);
    forall i: nat | Holds(w', i) && i < |w.requests|
      ensures Holds(w, i) && w'.requests[i] == w.requests[i]
    {
    }
  }

  lemma TimelyStepKeepsInv<D, B>(w: World<D, B>, e: Event<D, B>)
    requires Inv(w) && Timely(w, e)
    ensures Inv(Next(w, e))
  {
    if e.Arrive? {
      ArrivalKeepsInv(w, e.slot, e.digest, e.now);
    } else {
      var w' := Next(w, e);
      forall i: nat | Holds(w', i)
        ensures Holds(w, i) && w'.requests[i].slot == w.requests[i].slot
      {
      }
    }
  }

  lemma UntimelyStepOverlaps<D, B>(w: World<D, B>, e: Event<D, B>)
    requires Inv(w) && !Timely(w, e)
    ensures !Exclusive(Next(w, e))
  {
    var i: nat :| Holds(w, i) && w.requests[i].slot == e.slot
                  && e.now >= w.requests[i].phase.startedAt + IDEMPOTENCY_TTL_MS;
    var w' := Next(w, e);
    assert Holds(w', i) && Holds(w', |w.requests|);
  }

  /** Such a run from the start: a second request a lifetime after a first that is still at work. */
  lemma LateArrivalOverlaps<D, B>(slot: Slot, first: D, second: D, at: int, now: int)
    requires now >= at + IDEMPOTENCY_TTL_MS
    ensures var start: World<D, B> := Start(at);
            !Exclusive(Run(start, [Arrive(slot, first, at), Arrive(slot, second, now)]))
  {
    var start: World<D, B> := Start(at);
    var w := Next(start, Arrive(slot, first, at));
    assert Holds(w, 0) && w.requests[0].slot == slot;
    assert Inv(start);
    TimelyStepKeepsInv(start, Arrive(slot, first, at));
    UntimelyStepOverlaps(w, Arrive(slot, second, now));
    var es := [Arrive(slot, first, at), Arrive(slot, second, now)];
    assert es[1..] == [es[1]] && es[1..][1..] == [];
    assert Run(w, [es[1]]) == Run(Next(w, es[1]), []);
  }

  /**
   Two requests never hold one key at the same time, whatever fails or crashes, exactly when
   no request arrives for a key whose holder has outlived the key's lifetime.
   */
  lemma {:induction false} ExclusiveExactlyWhenTimely<D, B>(w: World<D, B>, es: seq<Event<D, B>>)
    requires Inv(w)
    ensures AlwaysExclusive(w, es) <==> TimelyRun(w, es)
    decreases |es|
  {
    if es != [] {
      if Timely(w, es[0]) {
        TimelyStepKeepsInv(w, es[0]);
        ExclusiveExactlyWhenTimely(Next(w, es[0]), es[1..]);
      } else {
        UntimelyStepOverlaps(w, es[0]);
      }
    }
  }

  // --- what the history of a run says ---------------------------------------------------

  ghost predicate Forward<D, B>(w: World<D, B>, e: Event<D, B>) {
    e.Arrive? ==> w.clock <= e.now
  }

  ghost predicate OrderlyRun<D, B>(w: World<D, B>, es: seq<Event<D, B>>)
    decreases |es|
  {
    es == [] || (Timely(w, es[0]) && Forward(w, es[0]) && OrderlyRun(Next(w, es[0]), es[1..]))
  }

  /** No body starts within the lifetime that an earlier success on its key belongs to. */
  ghost predicate NoStartAfterSuccess<D, B>(notes: seq<Note<D, B>>) {
    forall i, j :: 0 <= i < j < |notes| && notes[i].Succeeded? && notes[j].Started? && notes[i].slot == notes[j].slot
      ==> notes[j].at >= notes[i].startedAt + IDEMPOTENCY_TTL_MS
  }

  /** Two successful bodies on one key started in different lifetimes. */
  ghost predicate OneSuccessPerLifetime<D, B>(notes: seq<Note<D, B>>) {
    forall i, j :: 0 <= i < j < |notes| && notes[i].Succeeded? && notes[j].Succeeded? && notes[i].slot == notes[j].slot
      ==> notes[j].startedAt >= notes[i].startedAt + IDEMPOTENCY_TTL_MS
  }

  /** A repeat answers the body of an earlier success of the same digest, still within its lifetime. */
  ghost predicate RepeatOf<D, B>(earlier: Note<D, B>, later: Note<D, B>)
    requires later.Repeated?
  {
    && earlier.Succeeded?
    && earlier == Succeeded(later.slot, later.digest, earlier.startedAt, later.body)
    && earlier.startedAt <= later.at < earlier.startedAt + IDEMPOTENCY_TTL_MS
  }

  ghost predicate RepeatsAreGenuine<D, B>(notes: seq<Note<D, B>>) {
    forall j :: 0 <= j < |notes| && notes[j].Repeated? ==> exists i :: 0 <= i < j && RepeatOf(notes[i], notes[j])
  }

  ghost predicate SoundNotes<D, B>(notes: seq<Note<D, B>>) {
    NoStartAfterSuccess(notes) && OneSuccessPerLifetime(notes) && RepeatsAreGenuine(notes)
  }

  /** A completed row holds the body of a success of this very key, digest and start. */
  ghost predicate StoredAreGenuine<D, B>(w: World<D, B>) {
    forall s :: s in w.rows && w.rows[s].progress.Completed? ==>
      Succeeded(s, w.rows[s].requestDigest, w.rows[s].createdAt, w.rows[s].progress.responseBody) in w.notes
  }

  /** Until its lifetime is over, a success is guarded by its own row and by nobody else's work. */
  ghost predicate Guarded<D, B>(w: World<D, B>, n: Note<D, B>)
    requires n.Succeeded?
  {
    && (forall i: nat :: Holds(w, i) && w.requests[i].slot == n.slot ==>
          w.requests[i].phase == Ended(n.startedAt, Recorded(n.body))
          || w.requests[i].phase.startedAt >= n.startedAt + IDEMPOTENCY_TTL_MS)
    && (w.clock < n.startedAt + IDEMPOTENCY_TTL_MS ==>
          n.slot in w.rows && w.rows[n.slot].createdAt == n.startedAt && w.rows[n.slot].requestDigest == n.digest
          && (w.rows[n.slot].progress.Completed? ==> w.rows[n.slot].progress.responseBody == n.body))
  }

  ghost predicate AllGuarded<D, B>(w: World<D, B>) {
    forall k :: 0 <= k < |w.notes| && w.notes[k].Succeeded? ==> Guarded(w, w.notes[k])
  }

  ghost predicate Tied<D, B>(w: World<D, B>) {
    && (forall s :: s in w.rows ==> w.rows[s].createdAt <= w.clock)
    && (forall i: nat :: Holds(w, i) && w.requests[i].phase.Ended? && w.requests[i].phase.result.Recorded? ==>
          var r := w.requests[i];
          Succeeded(r.slot, r.digest, r.phase.startedAt, r.phase.result.body) in w.notes)
  }

  ghost predicate HistoryInv<D, B>(w: World<D, B>) {
    Inv(w) && SoundNotes(w.notes) && StoredAreGenuine(w) && AllGuarded(w) && Tied(w)
  }

  /** What the next note must satisfy for the history to stay sound. */
  ghost predicate Fits<D, B>(notes: seq<Note<D, B>>, n: Note<D, B>) {
    match n
    case Started(s, at) =>
      forall i :: 0 <= i < |notes| && notes[i].Succeeded? && notes[i].slot == s ==>
        at >= notes[i].startedAt + IDEMPOTENCY_TTL_MS
    case Succeeded(s, _, t, _) =>
      forall i :: 0 <= i < |notes| && notes[i].Succeeded? && notes[i].slot == s ==>
        t >= notes[i].startedAt + IDEMPOTENCY_TTL_MS
    case Repeated(_, _, _, _) => exists i :: 0 <= i < |notes| && RepeatOf(notes[i], n)
  }

  lemma NotesGrow<D, B>(notes: seq<Note<D, B>>, n: Note<D, B>)
    requires SoundNotes(notes) && Fits(notes, n)
    ensures SoundNotes(notes + [n])
  {
    var all := notes + [n];
    forall j | 0 <= j < |all| && all[j].Repeated?
      ensures exists i :: 0 <= i < j && RepeatOf(all[i], all[j])
    {
      if j < |notes| {
        var i :| 0 <= i < j && RepeatOf(notes[i], notes[j]);
        assert RepeatOf(all[i], all[j]);
      } else {
        var i :| 0 <= i < |notes| && RepeatOf(notes[i], n);
        assert RepeatOf(all[i], all[j]);
      }
    }
  }

  lemma ArrivalKeepsNotes<D, B>(w: World<D, B>, slot: Slot, digest: D, now: int)
    requires HistoryInv(w) && Timely(w, Arrive(slot, digest, now)) && w.clock <= now
    ensures SoundNotes(Arrival(w, slot, digest, now).notes)
  {
    var w' := Arrival(w, slot, digest, now);
    if |w'.notes| > |w.notes| {
      var n := w'.notes[|w.notes|];
      assert w'.notes == w.notes + [n];
      if n.Repeated? {
        var row := w.rows[slot];
        var i :| 0 <= i < |w.notes| && w.notes[i] == Succeeded(slot, row.requestDigest, row.createdAt, n.body);
        assert RepeatOf(w.notes[i], n);
      } else {
        assert n == Started(slot, now);
        forall i | 0 <= i < |w.notes| && w.notes[i].Succeeded? && w.notes[i].slot == slot
          ensures now >= w.notes[i].startedAt + IDEMPOTENCY_TTL_MS
        {
          assert Guarded(w, w.notes[i]);
        }
      }
      NotesGrow(w.notes, n);
    }
  }

  lemma ArrivalKeepsGuards<D, B>(w: World<D, B>, slot: Slot, digest: D, now: int)
    requires HistoryInv(w) && Timely(w, Arrive(slot, digest, now)) && w.clock <= now
    ensures AllGuarded(Arrival(w, slot, digest, now))
  {
    var w' := Arrival(w, slot, digest, now);
    forall k | 0 <= k < |w'.notes| && w'.notes[k].Succeeded?
      ensures Guarded(w', w'.notes[k])
    {
      assert k < |w.notes| && w'.notes[k] == w.notes[k] && Guarded(w, w.notes[k]);
    }
  }

  lemma BodyEndsKeepsHistory<D, B>(w: World<D, B>, who: nat, result: BodyResult<B>)
    requires HistoryInv(w) && who < |w.requests| && w.requests[who].phase.Running?
    ensures HistoryInv(Next(w, BodyEnds(who, result)))
  {
    TimelyStepKeepsInv(w, BodyEnds(who, result));
    var w' := Next(w, BodyEnds(who, result));
    if result.Recorded? {
      var n := w'.notes[|w.notes|];
      assert w'.notes == w.notes + [n];
      forall i | 0 <= i < |w.notes| && w.notes[i].Succeeded? && w.notes[i].slot == n.slot
        ensures n.startedAt >= w.notes[i].startedAt + IDEMPOTENCY_TTL_MS
      {
        assert Guarded(w, w.notes[i]) && Holds(w, who);
      }
      NotesGrow(w.notes, n);
    }
    forall k | 0 <= k < |w'.notes| && w'.notes[k].Succeeded?
      ensures Guarded(w', w'.notes[k])
    {
      assert Holds(w, who);
      assert k < |w.notes| ==> w'.notes[k] == w.notes[k] && Guarded(w, w.notes[k]);
    }
  }

  /** What a closing step may do: end one holder, and touch no row but that holder's own. */
  ghost predicate ClosedBy<D, B>(w: World<D, B>, w': World<D, B>, who: nat)
    requires Holds(w, who) && w.requests[who].slot in w.rows
  {
    var slot := w.requests[who].slot;
    && w'.notes == w.notes && w'.clock == w.clock && |w'.requests| == |w.requests|
    && !Holds(w', who)
    && (forall i: nat :: i < |w.requests| && i != who ==> w'.requests[i] == w.requests[i])
    && (w'.rows == w.rows
        || (w'.rows == w.rows - {slot}
            && !(w.requests[who].phase.Ended? && w.requests[who].phase.result.Recorded?))
        || (w.requests[who].phase.Ended? && w.requests[who].phase.result.Recorded?
            && w'.rows.Keys == w.rows.Keys
            && (forall s :: s in w.rows && s != slot ==> w'.rows[s] == w.rows[s])
            && w'.rows[slot].createdAt == w.rows[slot].createdAt
            && w'.rows[slot].requestDigest == w.rows[slot].requestDigest
            && w'.rows[slot].progress.Completed?
            && w'.rows[slot].progress.responseBody == w.requests[who].phase.result.body))
  }

  lemma ClosingKeepsGuards<D, B>(w: World<D, B>, w': World<D, B>, who: nat)
    requires HistoryInv(w) && Holds(w, who) && ClosedBy(w, w', who)
    ensures AllGuarded(w')
  {
    forall k | 0 <= k < |w'.notes| && w'.notes[k].Succeeded?
      ensures Guarded(w', w'.notes[k])
    {
      assert Guarded(w, w.notes[k]);
      forall i: nat | Holds(w', i)
        ensures Holds(w, i) && w'.requests[i] == w.requests[i]
      {
      }
    }
  }

  lemma ClosingKeepsTies<D, B>(w: World<D, B>, w': World<D, B>, who: nat)
    requires HistoryInv(w) && Holds(w, who) && ClosedBy(w, w', who)
    ensures Tied(w') && StoredAreGenuine(w')
  {
  }

  lemma ClosingKeepsHistory<D, B>(w: World<D, B>, e: Event<D, B>)
    requires HistoryInv(w) && (e.Settle? || e.Crash?) && Holds(w, e.who)
    ensures HistoryInv(Next(w, e))
  {
    TimelyStepKeepsInv(w, e);
    var w' := Next(w, e);
    if w' != w {
      assert ClosedBy(w, w', e.who);
      ClosingKeepsGuards(w, w', e.who);
      ClosingKeepsTies(w, w', e.who);
    }
  }

  lemma StepKeepsHistory<D, B>(w: World<D, B>, e: Event<D, B>)
    requires HistoryInv(w) && Timely(w, e) && Forward(w, e)
    ensures HistoryInv(Next(w, e))
  {
    match e
    case Arrive(slot, digest, now) =>
      TimelyStepKeepsInv(w, e);
      ArrivalKeepsNotes(w, slot, digest, now);
      ArrivalKeepsGuards(w, slot, digest, now);
    case BodyEnds(who, result) =>
      if who < |w.requests| && w.requests[who].phase.Running? {
        BodyEndsKeepsHistory(w, who, result);
      }
    case Settle(who, _, _) =>
      if Holds(w, who) {
        ClosingKeepsHistory(w, e);
      }
    case Crash(who) =>
      if Holds(w, who) {
        ClosingKeepsHistory(w, e);
      }
  }

  /**
   Over any run with a clock that does not go back and no holder outliving its key: no body
   starts after a success, bodies succeed at most once a lifetime, and what is stored or
   repeated is the body of that success, given only to requests of the same digest.
   */
  lemma {:induction false} RunKeepsHistory<D, B>(w: World<D, B>, es: seq<Event<D, B>>)
    requires HistoryInv(w) && OrderlyRun(w, es)
    ensures HistoryInv(Run(w, es))
    decreases |es|
  {
    if es != [] {
      StepKeepsHistory(w, es[0]);
      RunKeepsHistory(Next(w, es[0]), es[1..]);
    }
  }

  /** A stored answer stays what it is until a request arrives under its key after its lifetime. */
  lemma StoredAnswerIsStable<D, B>(w: World<D, B>, e: Event<D, B>, s: Slot)
    requires HistoryInv(w) && s in w.rows && w.rows[s].progress.Completed?
    requires e.Arrive? && e.slot == s ==> e.now < w.rows[s].createdAt + IDEMPOTENCY_TTL_MS
    ensures s in Next(w, e).rows && Next(w, e).rows[s] == w.rows[s]
  {
  }

  // --- what a request is answered -------------------------------------------------------

  /** A row that has not expired at this time. */
  predicate LiveRow<D, B>(rows: map<Slot, Row<D, B>>, slot: Slot, now: int) {
    slot in rows && now < rows[slot].expiresAt
  }

  /** Taken by nobody and still not there to be read: the request is sent away rather than run. */
  lemma VanishedIsRefused<D, B>(digest: D)
    ensures OutcomeOf<D, B>(ClaimResult(false, None), digest) == Refuse(Vanished)
  {
  }

  /**
   What a request is answered depends on the live row under its key alone: without one it goes on
   and holds the key for a day; another digest is refused as such; the same digest is refused as
   running while it is, and given the stored body again once it is there.
   */
  lemma ArrivalIsAnsweredByTheRow<D, B>(w: World<D, B>, slot: Slot, digest: D, now: int)
    ensures var w' := Next(w, Arrive(slot, digest, now));
            var phase := w'.requests[|w.requests|].phase;
            |w'.requests| == |w.requests| + 1
            && (forall s :: s != slot ==> (s in w'.rows <==> s in w.rows))
            && (forall s :: s != slot && s in w.rows ==> w'.rows[s] == w.rows[s])
            && if !LiveRow(w.rows, slot, now)
               then phase == Running(now) && slot in w'.rows
                    && w'.rows[slot] == Row(digest, InProgress, now, now + 86_400_000)
               else var row := w.rows[slot];
                    slot in w'.rows && w'.rows[slot] == row
                    && (phase == Done(Refused(DifferentDigest)) <==> row.requestDigest != digest)
                    && (phase == Done(Refused(StillRunning)) <==> row.requestDigest == digest && row.progress.InProgress?)
                    && (row.requestDigest == digest && row.progress.Completed? ==>
                          phase == Done(Replayed(row.progress.responseBody)))
  {
  }

  /** Closing a key: what is stored and what is answered, by how the body ended and whether the write got through. */
  lemma ClosingIsAnswered<D, B>(w: World<D, B>, who: nat, statusCode: int, stored: bool)
    requires Inv(w) && who < |w.requests| && w.requests[who].phase.Ended?
    ensures var r := w.requests[who];
            var w' := Next(w, Settle(who, statusCode, stored));
            (!stored ==> w'.rows == w.rows)
            && match r.phase.result
               case Recorded(body) =>
                 w'.requests[who].phase == Done(if stored then Answered(body) else Error)
                 && (stored ==> w'.rows == w.rows[r.slot := Row(r.digest, Completed(statusCode, body), r.phase.startedAt,
                                                                r.phase.startedAt + 86_400_000)])
               case Unrecorded(body) =>
                 w'.requests[who].phase == Done(Answered(body)) && (stored ==> w'.rows == w.rows - {r.slot})
               case Failed => w'.requests[who].phase == Done(Error) && (stored ==> w'.rows == w.rows - {r.slot})
  {
    assert Holds(w, who);
  }

  /** No request under this key arrives after this time. */
  predicate NoneAfter<D, B>(es: seq<Event<D, B>>, slot: Slot, end: int) {
    forall i :: 0 <= i < |es| && es[i].Arrive? && es[i].slot == slot ==> es[i].now < end
  }

  lemma {:induction false} StoredAnswerStays<D, B>(w: World<D, B>, es: seq<Event<D, B>>, s: Slot)
    requires HistoryInv(w) && OrderlyRun(w, es) && s in w.rows && w.rows[s].progress.Completed?
    requires NoneAfter(es, s, w.rows[s].createdAt + IDEMPOTENCY_TTL_MS)
    ensures s in Run(w, es).rows && Run(w, es).rows[s] == w.rows[s]
    decreases |es|
  {
    if es != [] {
      StoredAnswerIsStable(w, es[0], s);
      StepKeepsHistory(w, es[0]);
      StoredAnswerStays(Next(w, es[0]), es[1..], s);
    }
  }

  /**
   Once the result of a body is stored, and whatever happens until its day is over, every request
   under its key is given that very result again if it has the same digest, and refused if not.
   */
  lemma RecordedResultIsReplayed<D, B>(
    w: World<D, B>, who: nat, statusCode: int, es: seq<Event<D, B>>, digest: D, now: int)
    requires HistoryInv(w) && who < |w.requests| && w.requests[who].phase.Ended? && w.requests[who].phase.result.Recorded?
    requires OrderlyRun(Next(w, Settle(who, statusCode, true)), es)
    requires NoneAfter(es, w.requests[who].slot, w.requests[who].phase.startedAt + IDEMPOTENCY_TTL_MS)
    requires now < w.requests[who].phase.startedAt + 86_400_000
    ensures var r := w.requests[who];
            var end := Run(Next(w, Settle(who, statusCode, true)), es);
            Next(end, Arrive(r.slot, digest, now)).requests[|end.requests|].phase
            == Done(if digest == r.digest then Replayed(r.phase.result.body) else Refused(DifferentDigest))
  {
    var r := w.requests[who];
    var w' := Next(w, Settle(who, statusCode, true));
    ClosingIsAnswered(w, who, statusCode, true);
    StepKeepsHistory(w, Settle(who, statusCode, true));
    StoredAnswerStays(w', es, r.slot);
    ArrivalIsAnsweredByTheRow(Run(w', es), r.slot, digest, now);
  }

  // --- inside one lifetime --------------------------------------------------------------

  /** Arrival times do not go back and stay inside the lifetime that begins at `from`. */
  predicate WithinOneLifetime<D, B>(es: seq<Event<D, B>>, from: int, clock: int) {
    es == [] ||
    (if es[0].Arrive?
     then clock <= es[0].now < from + IDEMPOTENCY_TTL_MS && WithinOneLifetime(es[1..], from, es[0].now)
     else WithinOneLifetime(es[1..], from, clock))
  }

  lemma {:induction false} OneLifetimeIsOrderly<D, B>(w: World<D, B>, es: seq<Event<D, B>>, from: int)
    requires WithinOneLifetime(es, from, w.clock)
    requires from <= w.clock
    requires forall i: nat :: Holds(w, i) ==> from <= w.requests[i].phase.startedAt
    ensures OrderlyRun(w, es)
    decreases |es|
  {
    if es != [] {
      var w' := Next(w, es[0]);
      forall i: nat | Holds(w', i)
        ensures from <= w'.requests[i].phase.startedAt
      {
        assert i < |w.requests| ==> Holds(w, i);
      }
      OneLifetimeIsOrderly(w', es[1..], from);
    }
  }

  lemma {:induction false} OrderlyIsTimely<D, B>(w: World<D, B>, es: seq<Event<D, B>>)
    requires OrderlyRun(w, es)
    ensures TimelyRun(w, es)
    decreases |es|
  {
    if es != [] {
      OrderlyIsTimely(Next(w, es[0]), es[1..]);
    }
  }

  lemma {:induction false} RunStaysInside<D, B>(w: World<D, B>, es: seq<Event<D, B>>, from: int)
    requires WithinOneLifetime(es, from, w.clock) && from <= w.clock
    requires forall n :: n in w.notes ==>
               (n.Started? ==> from <= n.at < from + IDEMPOTENCY_TTL_MS)
               && (n.Succeeded? ==> from <= n.startedAt < from + IDEMPOTENCY_TTL_MS)
    requires forall i: nat :: Holds(w, i) ==> from <= w.requests[i].phase.startedAt < from + IDEMPOTENCY_TTL_MS
    ensures forall n :: n in Run(w, es).notes ==>
              (n.Started? ==> from <= n.at < from + IDEMPOTENCY_TTL_MS)
              && (n.Succeeded? ==> from <= n.startedAt < from + IDEMPOTENCY_TTL_MS)
    decreases |es|
  {
    if es != [] {
      var w' := Next(w, es[0]);
      forall i: nat | Holds(w', i)
        ensures from <= w'.requests[i].phase.startedAt < from + IDEMPOTENCY_TTL_MS
      {
        assert i < |w.requests| ==> Holds(w, i);
      }
      forall n | n in w'.notes && n !in w.notes
        ensures (n.Started? ==> from <= n.at < from + IDEMPOTENCY_TTL_MS)
                && (n.Succeeded? ==> from <= n.startedAt < from + IDEMPOTENCY_TTL_MS)
      {
        if n.Succeeded? {
          assert Holds(w, es[0].who);
        }
      }
      RunStaysInside(w', es[1..], from);
    }
  }

  /**
   For any number of concurrent requests whose arrivals fall inside one lifetime, with bodies
   that fail, closing writes that fail and crashes anywhere: no two requests hold a key at
   once, at most one body per key succeeds, and none starts after that success.
   */
  lemma InsideOneLifetime<D, B>(es: seq<Event<D, B>>, from: int)
    requires WithinOneLifetime(es, from, from)
    ensures AlwaysExclusive(Start(from), es)
    ensures var notes := Run(Start(from), es).notes;
            forall i, j :: 0 <= i < j < |notes| && notes[i].Succeeded? && notes[i].slot == notes[j].slot
              ==> notes[j].Repeated? && notes[j].digest == notes[i].digest && notes[j].body == notes[i].body
  {
    var w: World<D, B> := Start(from);
    OneLifetimeIsOrderly(w, es, from);
    OrderlyIsTimely(w, es);
    ExclusiveExactlyWhenTimely(w, es);
    RunKeepsHistory(w, es);
    RunStaysInside(w, es, from);
    var notes := Run(w, es).notes;
    forall i, j | 0 <= i < j < |notes| && notes[i].Succeeded? && notes[i].slot == notes[j].slot
      ensures notes[j].Repeated? && notes[j].digest == notes[i].digest && notes[j].body == notes[i].body
    {
      assert notes[i] in notes && notes[j] in notes;
      if notes[j].Repeated? {
        var k :| 0 <= k < j && RepeatOf(notes[k], notes[j]);
        assert notes[k] in notes;
        assert k == i;
      }
    }
  }

  /**
   After a body whose result is not to be kept, or a failed one, the key is free again as soon
   as the release is stored: the next request runs its own body, whatever its digest.
   */
  lemma ReleasedKeyCanBeTakenAgain<D, B>(w: World<D, B>, who: nat, statusCode: int, digest: D, now: int)
    requires Inv(w) && who < |w.requests| && w.requests[who].phase.Ended?
    requires !w.requests[who].phase.result.Recorded?
    ensures var slot := w.requests[who].slot;
            var freed := Next(w, Settle(who, statusCode, true));
            slot !in freed.rows
            && Next(freed, Arrive(slot, digest, now)).requests[|w.requests|].phase == Running(now)
  {
    assert Holds(w, who);
  }

  // --- the store and the service --------------------------------------------------------

  class IdempotencyStore<D(==), B> {
    var rows: map<Slot, Row<D, B>>

    constructor ()
      ensures rows == map[]
    {
      rows := map[];
    }

    method Claim(slot: Slot, digest: D, now: int, expiresAt: int) returns (result: ClaimResult<D, B>)
      modifies this
      ensures (rows, result) == ClaimRow(old(rows), slot, digest, now, expiresAt)
    {
      if slot in rows && rows[slot].expiresAt <= now {
        rows := rows - {slot};
      }
      if slot in rows {
        return ClaimResult(false, Some(rows[slot]));
      }
      rows := rows[slot := Row(digest, InProgress, now, expiresAt)];
      return ClaimResult(true, None);
    }

    method Complete(slot: Slot, statusCode: int, body: B) returns (stored: bool)
      modifies this
      ensures stored == (slot in old(rows))
      ensures rows == if stored then CompleteRow(old(rows), slot, statusCode, body).value else old(rows)
    {
      stored := slot in rows;
      if stored {
        rows := rows[slot := rows[slot].(progress := Completed(statusCode, body))];
      }
    }

    method Release(slot: Slot)
      modifies this
      ensures rows == ReleaseRow(old(rows), slot)
    {
      if slot in rows && rows[slot].progress.InProgress? {
        rows := rows - {slot};
      }
    }
  }

  class IdempotencyService<D(==), B> {
    const store: IdempotencyStore<D, B>

    constructor (store: IdempotencyStore<D, B>)
      ensures this.store == store
    {
      this.store := store;
    }

    method Begin(slot: Slot, digest: D, now: int) returns (outcome: Outcome<B>)
      modifies store
      ensures var (rows, result) := ClaimRow(old(store.rows), slot, digest, now, now + IDEMPOTENCY_TTL_MS);
              store.rows == rows && outcome == OutcomeOf(result, digest)
      ensures outcome.Proceed? <==> !LiveRow(old(store.rows), slot, now)
      ensures outcome.Proceed? ==> store.rows == old(store.rows)[slot := Row(digest, InProgress, now, now + 86_400_000)]
      ensures LiveRow(old(store.rows), slot, now) ==>
                var row := old(store.rows)[slot];
                store.rows == old(store.rows)
                && (outcome == Refuse(DifferentDigest) <==> row.requestDigest != digest)
                && (outcome == Refuse(StillRunning) <==> row.requestDigest == digest && row.progress.InProgress?)
                && (outcome.Replay? <==> row.requestDigest == digest && row.progress.Completed?)
                && (outcome.Replay? ==> outcome.body == row.progress.responseBody)
    {
      var result := store.Claim(slot, digest, now, now + IDEMPOTENCY_TTL_MS);
      if result.claimed {
        return Proceed;
      }
      if result.existing.None? {
        return Refuse(Vanished);
      }
      var row := result.existing.value;
      if row.requestDigest != digest {
        return Refuse(DifferentDigest);
      }
      if row.progress.InProgress? {
        return Refuse(StillRunning);
      }
      return Replay(row.progress.responseBody);
    }

    /**
     The wrapper around a catalogue operation, with nobody in between. `body` is what the
     wrapped operation comes to, `None` when it throws, and `reachable` whether the closing
     write gets through; a request without a key runs its body unguarded.
     */
    method WithIdempotency(key: Option<Slot>, digest: D, now: int, body: Option<B>, reachable: bool)
      returns (reply: Reply<B>)
      modifies store
      ensures key.None? ==>
                store.rows == old(store.rows) && reply == (if body.Some? then Answered(body.value) else Error)
      ensures key.Some? ==>
                var ended := if body.Some? then Recorded(body.value) else Failed;
                var w := Run(World(old(store.rows), [], now, []),
                             [Arrive(key.value, digest, now), BodyEnds(0, ended), Settle(0, 200, reachable)]);
                |w.requests| == 1 && store.rows == w.rows && w.requests[0].phase == Done(reply)
      ensures key.Some? && LiveRow(old(store.rows), key.value, now) ==>
                var row := old(store.rows)[key.value];
                store.rows == old(store.rows)
                && reply == if row.requestDigest != digest then Refused(DifferentDigest)
                            else if row.progress.InProgress? then Refused(StillRunning)
                            else Replayed(row.progress.responseBody)
      ensures key.Some? && !LiveRow(old(store.rows), key.value, now) ==>
                reply == (if body.Some? && reachable then Answered(body.value) else Error)
                && store.rows == if !reachable then old(store.rows)[key.value := Row(digest, InProgress, now, now + 86_400_000)]
                                 else if body.None? then old(store.rows) - {key.value}
                                 else old(store.rows)[key.value := Row(digest, Completed(200, body.value), now, now + 86_400_000)]
    {
      if key.None? {
        return if body.Some? then Answered(body.value) else Error;
      }
      var slot := key.value;
      ghost var ended := if body.Some? then Recorded(body.value) else Failed;
      RunOfThree(World(old(store.rows), [], now, []),
                 Arrive(slot, digest, now), BodyEnds(0, ended), Settle(0, 200, reachable));
      var outcome := Begin(slot, digest, now);
      match outcome {
        case Refuse(reason) => return Refused(reason);
        case Replay(previous) => return Replayed(previous);
        case Proceed =>
      }
      if body.None? {
        if reachable {
          store.Release(slot);
        }
        return Error;
      }
      if !reachable {
        return Error;
      }
      var stored := store.Complete(slot, 200, body.value);
      return if stored then Answered(body.value) else Error;
    }
  }
}
