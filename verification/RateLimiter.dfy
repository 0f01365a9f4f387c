/**
 The rate limit on claims: fixed windows counted in memory and swept now and then, and the two
 buckets a key id has.
 */
module RateLimiter {
  import opened Wrappers

  datatype Window = Window(startedAt: int, count: nat)

  datatype Decision = Decision(allowed: bool, remaining: nat, retryAfterSeconds: nat)

  // --- one window -----------------------------------------------------------------------

  predicate Elapsed(w: Window, windowMs: int, now: int) {
    now - w.startedAt >= windowMs
  }

  function Max(a: int, b: int): int {
    if a < b then b else a
  }

  function CeilingOfThousandths(n: nat): nat {
    (n + 999) / 1000
  }

  /** An elapsed window is as good as none; a refused request is counted too. */
  function ConsumeFixedWindow(current: Option<Window>, limit: nat, windowMs: int, now: int): (Decision, Window) {
    var window := if current.None? || Elapsed(current.value, windowMs, now) then Window(now, 0) else current.value;
    var nextCount := window.count + 1;
    var allowed := nextCount <= limit;
    var remainingMs := Max(0, windowMs - (now - window.startedAt));
    (Decision(allowed, Max(0, limit - nextCount), if allowed then 0 else Max(1, CeilingOfThousandths(remainingMs))),
     Window(window.startedAt, nextCount))
  }

  /**
   Whoever is refused and waits as told is let in, unless others use up the next window first;
   one second less would have been too early.
   */
  lemma RetryAfterIsTheFirstWholeSecond(current: Option<Window>, limit: nat, windowMs: int, now: int)
    requires limit >= 1 && windowMs >= 1 && (current.Some? ==> current.value.startedAt <= now)
    requires !ConsumeFixedWindow(current, limit, windowMs, now).0.allowed
    ensures var (decision, window) := ConsumeFixedWindow(current, limit, windowMs, now);
            var retry := decision.retryAfterSeconds;
            && ConsumeFixedWindow(Some(window), limit, windowMs, now + retry * 1000).0.allowed
            && forall earlier :: 0 <= earlier < retry ==>
                 !ConsumeFixedWindow(Some(window), limit, windowMs, now + earlier * 1000).0.allowed
  {
  }

  /** How many calls of a window have been let in or refused after `n` of them at the given times. */
  function After(windowMs: int, limit: nat, times: seq<int>): Option<Window>
    decreases |times|
  {
    if times == [] then None
    else
      var before := After(windowMs, limit, times[..|times| - 1]);
      Some(ConsumeFixedWindow(before, limit, windowMs, times[|times| - 1]).1)
  }

  /** Of the calls that fall into one window, the first `limit` are let in and no others, and each is told how many are left. */
  lemma {:induction false} ExactlyTheFirstAreLetIn(windowMs: int, limit: nat, times: seq<int>, now: int)
    requires windowMs >= 1 && forall i :: 0 <= i < |times| ==> times[0] <= times[i] < times[0] + windowMs
    requires times != [] ==> times[0] <= now < times[0] + windowMs
    ensures After(windowMs, limit, times) == if times == [] then None else Some(Window(times[0], |times|))
    ensures var d := ConsumeFixedWindow(After(windowMs, limit, times), limit, windowMs, now).0;
            (d.allowed <==> |times| < limit) && d.remaining == Max(0, limit - |times| - 1)
    decreases |times|
  {
    if times != [] {
      ExactlyTheFirstAreLetIn(windowMs, limit, times[..|times| - 1], times[|times| - 1]);
    }
  }

  // --- the limiter, and one that never forgets ------------------------------------------

  const SWEEP_INTERVAL_MS := 5 * 60 * 1000

  type Windows = map<string, Window>

  datatype Limiter = Limiter(windows: Windows, lastSweptAt: int)

  datatype Call = Call(bucket: string, limit: nat, windowMs: int, now: int)

  function Get(windows: Windows, bucket: string): Option<Window> {
    if bucket in windows then Some(windows[bucket]) else None
  }

  function Swept(windows: Windows, windowMs: int, now: int): Windows {
    map b | b in windows && !Elapsed(windows[b], windowMs, now) :: windows[b]
  }

  function Sweep(l: Limiter, windowMs: int, now: int): Limiter {
    if now - l.lastSweptAt < SWEEP_INTERVAL_MS then l else Limiter(Swept(l.windows, windowMs, now), now)
  }

  function Consume(l: Limiter, c: Call): (Limiter, Decision) {
    var swept := Sweep(l, c.windowMs, c.now);
    var (decision, window) := ConsumeFixedWindow(Get(swept.windows, c.bucket), c.limit, c.windowMs, c.now);
    (swept.(windows := swept.windows[c.bucket := window]), decision)
  }

  function Decisions(l: Limiter, cs: seq<Call>): seq<Decision>
    decreases |cs|
  {
    if cs == [] then []
    else
      var (l', decision) := Consume(l, cs[0]);
      [decision] + Decisions(l', cs[1..])
  }

  /** The same counting with nothing ever thrown away. */
  function DecisionsUnswept(windows: Windows, cs: seq<Call>): seq<Decision>
    decreases |cs|
  {
    if cs == [] then []
    else
      var (decision, window) := ConsumeFixedWindow(Get(windows, cs[0].bucket), cs[0].limit, cs[0].windowMs, cs[0].now);
      [decision] + DecisionsUnswept(windows[cs[0].bucket := window], cs[1..])
  }

  predicate InOrder(cs: seq<Call>, clock: int)
    decreases |cs|
  {
    cs == [] || (clock <= cs[0].now && InOrder(cs[1..], cs[0].now))
  }

  predicate OneLength(cs: seq<Call>, windowMs: int) {
    forall i :: 0 <= i < |cs| ==> cs[i].windowMs == windowMs
  }

  /** This call finds its window thrown away although, by its own time and length, it has not elapsed. */
  predicate Forgotten(l: Limiter, full: Windows, c: Call) {
    && c.bucket in full && !Elapsed(full[c.bucket], c.windowMs, c.now)
    && c.bucket !in Sweep(l, c.windowMs, c.now).windows
  }

  function Counted(full: Windows, c: Call): Windows {
    full[c.bucket := ConsumeFixedWindow(Get(full, c.bucket), c.limit, c.windowMs, c.now).1]
  }

  predicate NothingForgotten(l: Limiter, full: Windows, cs: seq<Call>)
    decreases |cs|
  {
    cs == [] || (!Forgotten(l, full, cs[0]) && NothingForgotten(Consume(l, cs[0]).0, Counted(full, cs[0]), cs[1..]))
  }

  /** What is kept is kept as it is, and nothing is kept that was never counted. */
  ghost predicate PartOf(swept: Windows, full: Windows) {
    && (forall b :: b in swept ==> b in full && full[b] == swept[b])
    && (forall b :: b in full ==> full[b].count >= 1)
  }

  lemma SameAnswerExactlyWhenNotForgotten(l: Limiter, full: Windows, c: Call)
    requires PartOf(l.windows, full) && c.limit >= 1
    ensures var (l', decision) := Consume(l, c);
            var (plain, _) := ConsumeFixedWindow(Get(full, c.bucket), c.limit, c.windowMs, c.now);
            && (decision == plain <==> !Forgotten(l, full, c))
            && (!Forgotten(l, full, c) ==> PartOf(l'.windows, Counted(full, c)))
  {
  }

  /**
   The limiter answers like one that never forgets exactly as long as no call finds its window
   thrown away before its time. A limit is at least one.
   */
  lemma {:induction false} AnswersAlikeExactlyWhenNothingForgotten(l: Limiter, full: Windows, cs: seq<Call>)
    requires PartOf(l.windows, full) && forall i :: 0 <= i < |cs| ==> cs[i].limit >= 1
    ensures Decisions(l, cs) == DecisionsUnswept(full, cs) <==> NothingForgotten(l, full, cs)
    decreases |cs|
  {
    if cs != [] {
      SameAnswerExactlyWhenNotForgotten(l, full, cs[0]);
      var ds, plain := Decisions(l, cs), DecisionsUnswept(full, cs);
      assert ds[0] == Consume(l, cs[0]).1 && ds[1..] == Decisions(Consume(l, cs[0]).0, cs[1..]);
      assert plain[1..] == DecisionsUnswept(Counted(full, cs[0]), cs[1..]);
      if !Forgotten(l, full, cs[0]) {
        assert ds == [ds[0]] + ds[1..] && plain == [plain[0]] + plain[1..];
        AnswersAlikeExactlyWhenNothingForgotten(Consume(l, cs[0]).0, Counted(full, cs[0]), cs[1..]);
      }
    }
  }

  /** All that is missing are windows that have elapsed. */
  ghost predicate OnlyElapsedMissing(swept: Windows, full: Windows, windowMs: int, clock: int) {
    && (forall b :: b in swept ==> b in full && full[b] == swept[b])
    && (forall b :: b in full && b !in swept ==> Elapsed(full[b], windowMs, clock))
  }

  lemma {:induction false} SweepingIsUnobservableFrom(
    l: Limiter, full: Windows, windowMs: int, cs: seq<Call>, clock: int)
    requires OnlyElapsedMissing(l.windows, full, windowMs, clock) && InOrder(cs, clock) && OneLength(cs, windowMs)
    ensures Decisions(l, cs) == DecisionsUnswept(full, cs) && NothingForgotten(l, full, cs)
    decreases |cs|
  {
    if cs != [] {
      var c := cs[0];
      var swept := Sweep(l, windowMs, c.now);
      assert OnlyElapsedMissing(swept.windows, full, windowMs, c.now);
      var (decision, window) := ConsumeFixedWindow(Get(full, c.bucket), c.limit, windowMs, c.now);
      assert ConsumeFixedWindow(Get(swept.windows, c.bucket), c.limit, windowMs, c.now) == (decision, window);
      SweepingIsUnobservableFrom(Consume(l, c).0, full[c.bucket := window], windowMs, cs[1..], c.now);
    }
  }

  /** With one window length and a clock that does not go back, no answer ever shows that windows are thrown away. */
  lemma SweepingIsUnobservable(windowMs: int, cs: seq<Call>, clock: int)
    requires InOrder(cs, clock) && OneLength(cs, windowMs)
    ensures Decisions(Limiter(map[], 0), cs) == DecisionsUnswept(map[], cs)
  {
    SweepingIsUnobservableFrom(Limiter(map[], 0), map[], windowMs, cs, clock);
  }

  /** With a clock that goes back it does: a full window is forgotten and the bucket is let in again. */
  lemma ClockGoingBackShows(a: string, b: string, start: int)
    requires a != b && start >= SWEEP_INTERVAL_MS
    ensures var cs := [Call(a, 1, 60_000, start), Call(b, 1, 60_000, start + SWEEP_INTERVAL_MS), Call(a, 1, 60_000, start + 1)];
            var swept := Decisions(Limiter(map[], 0), cs);
            var full := DecisionsUnswept(map[], cs);
            |swept| == |full| == 3 && swept[2].allowed && !full[2].allowed
  {
    var c0, c1, c2 := Call(a, 1, 60_000, start), Call(b, 1, 60_000, start + SWEEP_INTERVAL_MS), Call(a, 1, 60_000, start + 1);
    var l1 := Consume(Limiter(map[], 0), c0).0;
    assert l1.windows == map[a := Window(start, 1)] && l1.lastSweptAt == start;
    var l2 := Consume(l1, c1).0;
    assert l2.windows == map[b := Window(start + SWEEP_INTERVAL_MS, 1)];
    var m1 := map[a := Window(start, 1)];
    var m2 := m1[b := Window(start + SWEEP_INTERVAL_MS, 1)];
    ThreeDecisions(Limiter(map[], 0), c0, c1, c2);
    ThreeDecisionsUnswept(map[], c0, c1, c2);
    assert ConsumeFixedWindow(Get(m1, b), 1, 60_000, c1.now).1 == Window(start + SWEEP_INTERVAL_MS, 1);
    assert Get(m2, a) == Some(Window(start, 1));
  }

  lemma ThreeDecisions(l: Limiter, c0: Call, c1: Call, c2: Call)
    ensures var (l1, d0) := Consume(l, c0);
            var (l2, d1) := Consume(l1, c1);
            Decisions(l, [c0, c1, c2]) == [d0, d1, Consume(l2, c2).1]
  {
    var cs := [c0, c1, c2];
    assert cs[1..] == [c1, c2] && cs[1..][1..] == [c2] && cs[1..][1..][1..] == [];
    var (l1, d0) := Consume(l, c0);
    var (l2, d1) := Consume(l1, c1);
    var (l3, d2) := Consume(l2, c2);
    assert Decisions(l3, []) == [];
    assert Decisions(l2, [c2]) == [d2] + Decisions(l3, [c2][1..]);
    assert Decisions(l1, [c1, c2]) == [d1] + Decisions(l2, [c2]);
  }

  lemma ThreeDecisionsUnswept(m: Windows, c0: Call, c1: Call, c2: Call)
    ensures var (d0, w0) := ConsumeFixedWindow(Get(m, c0.bucket), c0.limit, c0.windowMs, c0.now);
            var m1 := m[c0.bucket := w0];
            var (d1, w1) := ConsumeFixedWindow(Get(m1, c1.bucket), c1.limit, c1.windowMs, c1.now);
            var m2 := m1[c1.bucket := w1];
            DecisionsUnswept(m, [c0, c1, c2])
            == [d0, d1, ConsumeFixedWindow(Get(m2, c2.bucket), c2.limit, c2.windowMs, c2.now).0]
  {
    var cs := [c0, c1, c2];
    assert cs[1..] == [c1, c2] && cs[1..][1..] == [c2] && cs[1..][1..][1..] == [];
    var (d0, w0) := ConsumeFixedWindow(Get(m, c0.bucket), c0.limit, c0.windowMs, c0.now);
    var m1 := m[c0.bucket := w0];
    var (d1, w1) := ConsumeFixedWindow(Get(m1, c1.bucket), c1.limit, c1.windowMs, c1.now);
    var m2 := m1[c1.bucket := w1];
    var (d2, w2) := ConsumeFixedWindow(Get(m2, c2.bucket), c2.limit, c2.windowMs, c2.now);
    assert DecisionsUnswept(m2, [c2]) == [d2] + DecisionsUnswept(m2[c2.bucket := w2], [c2][1..]);
    assert DecisionsUnswept(m1, [c1, c2]) == [d1] + DecisionsUnswept(m2, [c2]);
  }

  // --- buckets do not meet --------------------------------------------------------------

  function OnlyOf(cs: seq<Call>, bucket: string): seq<Call>
    decreases |cs|
  {
    if cs == [] then [] else (if cs[0].bucket == bucket then [cs[0]] else []) + OnlyOf(cs[1..], bucket)
  }

  /** The answers that went to one bucket. */
  function AnswersTo(cs: seq<Call>, ds: seq<Decision>, bucket: string): seq<Decision>
    requires |cs| == |ds|
    decreases |cs|
  {
    if cs == [] then [] else (if cs[0].bucket == bucket then [ds[0]] else []) + AnswersTo(cs[1..], ds[1..], bucket)
  }

  lemma {:induction false} OneAnswerEach(windows: Windows, cs: seq<Call>)
    ensures |DecisionsUnswept(windows, cs)| == |cs|
    decreases |cs|
  {
    if cs != [] {
      var window := ConsumeFixedWindow(Get(windows, cs[0].bucket), cs[0].limit, cs[0].windowMs, cs[0].now).1;
      OneAnswerEach(windows[cs[0].bucket := window], cs[1..]);
    }
  }

  lemma {:induction false} BucketsAreIndependent(windows: Windows, own: Windows, cs: seq<Call>, bucket: string)
    requires Get(windows, bucket) == Get(own, bucket)
    ensures |DecisionsUnswept(windows, cs)| == |cs|
    ensures AnswersTo(cs, DecisionsUnswept(windows, cs), bucket)
            == DecisionsUnswept(own, OnlyOf(cs, bucket))
    decreases |cs|
  {
    OneAnswerEach(windows, cs);
    if cs != [] {
      var c := cs[0];
      var (decision, window) := ConsumeFixedWindow(Get(windows, c.bucket), c.limit, c.windowMs, c.now);
      var rest := windows[c.bucket := window];
      var ds := DecisionsUnswept(windows, cs);
      assert ds[1..] == DecisionsUnswept(rest, cs[1..]);
      if c.bucket == bucket {
        BucketsAreIndependent(rest, own[bucket := window], cs[1..], bucket);
        var mine := OnlyOf(cs, bucket);
        assert mine == [c] + OnlyOf(cs[1..], bucket) && mine[1..] == OnlyOf(cs[1..], bucket);
      } else {
        BucketsAreIndependent(rest, own, cs[1..], bucket);
        assert OnlyOf(cs, bucket) == OnlyOf(cs[1..], bucket);
      }
    }
  }

  lemma {:induction false} PartStaysInOrder(cs: seq<Call>, bucket: string, clock: int, earlier: int)
    requires InOrder(cs, clock) && earlier <= clock
    ensures InOrder(OnlyOf(cs, bucket), earlier)
    decreases |cs|
  {
    if cs != [] {
      if cs[0].bucket == bucket {
        PartStaysInOrder(cs[1..], bucket, cs[0].now, cs[0].now);
        assert OnlyOf(cs, bucket) == [cs[0]] + OnlyOf(cs[1..], bucket);
        assert OnlyOf(cs, bucket)[1..] == OnlyOf(cs[1..], bucket);
      } else {
        PartStaysInOrder(cs[1..], bucket, cs[0].now, earlier);
        assert OnlyOf(cs, bucket) == OnlyOf(cs[1..], bucket);
      }
    }
  }

  lemma {:induction false} PartHasOneLength(cs: seq<Call>, bucket: string, windowMs: int)
    requires OneLength(cs, windowMs)
    ensures OneLength(OnlyOf(cs, bucket), windowMs)
    decreases |cs|
  {
    if cs != [] {
      PartHasOneLength(cs[1..], bucket, windowMs);
    }
  }

  // --- the guard ------------------------------------------------------------------------

  const WINDOW_MS := 60_000

  datatype Limits = Limits(postPerMinute: nat, getPerMinute: nat)

  datatype ClaimRequest = ClaimRequest(keyId: string, isConfirm: bool, now: int)

  function BucketOf(r: ClaimRequest): string {
    "claim:" + (if r.isConfirm then "confirm" else "status") + ":" + r.keyId
  }

  function CallOf(limits: Limits, r: ClaimRequest): Call {
    Call(BucketOf(r), if r.isConfirm then limits.postPerMinute else limits.getPerMinute, WINDOW_MS, r.now)
  }

  /** No two kinds of request and no two key ids share a bucket. */
  lemma BucketsDiffer(r: ClaimRequest, s: ClaimRequest)
    ensures BucketOf(r) == BucketOf(s) <==> r.keyId == s.keyId && r.isConfirm == s.isConfirm
  {
    var b, c := BucketOf(r), BucketOf(s);
    assert b[6] == (if r.isConfirm then 'c' else 's') && c[6] == (if s.isConfirm then 'c' else 's');
    assert b[(if r.isConfirm then 14 else 13)..] == r.keyId;
    assert c[(if s.isConfirm then 14 else 13)..] == s.keyId;
  }

  function CallsOf(limits: Limits, rs: seq<ClaimRequest>): seq<Call> {
    seq(|rs|, i requires 0 <= i < |rs| => CallOf(limits, rs[i]))
  }

  /**
   With a clock that does not go back, what is answered to the confirmations under one key id is
   what would be answered to them alone: no status request, no other key and no sweep tells.
   */
  lemma StatusNeverChangesConfirm(limits: Limits, rs: seq<ClaimRequest>, keyId: string, clock: int)
    requires InOrder(CallsOf(limits, rs), clock)
    ensures var cs := CallsOf(limits, rs);
            var bucket := BucketOf(ClaimRequest(keyId, true, 0));
            var ds := Decisions(Limiter(map[], 0), cs);
            && |ds| == |cs|
            && AnswersTo(cs, ds, bucket) == Decisions(Limiter(map[], 0), OnlyOf(cs, bucket))
            && forall i :: 0 <= i < |rs| ==> (cs[i].bucket == bucket <==> rs[i].isConfirm && rs[i].keyId == keyId)
  {
    var cs := CallsOf(limits, rs);
    var bucket := BucketOf(ClaimRequest(keyId, true, 0));
    SweepingIsUnobservable(WINDOW_MS, cs, clock);
    PartStaysInOrder(cs, bucket, clock, clock);
    PartHasOneLength(cs, bucket, WINDOW_MS);
    SweepingIsUnobservable(WINDOW_MS, OnlyOf(cs, bucket), clock);
    BucketsAreIndependent(map[], map[], cs, bucket);
    forall i | 0 <= i < |rs|
      ensures cs[i].bucket == bucket <==> rs[i].isConfirm && rs[i].keyId == keyId
    {
      BucketsDiffer(rs[i], ClaimRequest(keyId, true, 0));
    }
  }

  // --- the limiter as it is kept --------------------------------------------------------

  class InMemoryRateLimiter {
    var windows: Windows
    var lastSweptAt: int

    constructor ()
      ensures View() == Limiter(map[], 0)
    {
      windows, lastSweptAt := map[], 0;
    }

    function View(): Limiter
      reads this
    {
      Limiter(windows, lastSweptAt)
    }

    method ConsumeOne(c: Call) returns (decision: Decision)
      modifies this
      ensures (View(), decision) == Consume(old(View()), c)
    {
      SweepOld(c.windowMs, c.now);
      var result := ConsumeFixedWindow(Get(windows, c.bucket), c.limit, c.windowMs, c.now);
      windows := windows[c.bucket := result.1];
      return result.0;
    }

    method SweepOld(windowMs: int, now: int)
      modifies this
      ensures View() == Sweep(old(View()), windowMs, now)
    {
      if now - lastSweptAt < SWEEP_INTERVAL_MS {
        return;
      }
      lastSweptAt := now;
      var todo := windows.Keys;
      while todo != {}
        invariant todo <= windows.Keys <= old(windows).Keys
        invariant forall b :: b in windows ==> windows[b] == old(windows)[b]
        invariant forall b :: b in old(windows) && b !in todo ==> (b in windows <==> !Elapsed(old(windows)[b], windowMs, now))
        invariant lastSweptAt == now
        decreases |todo|
      {
        var bucket :| bucket in todo;
        if Elapsed(windows[bucket], windowMs, now) {
          windows := windows - {bucket};
        }
        todo := todo - {bucket};
      }
    }
  }

  class ClaimRateLimitGuard {
    const limiter: InMemoryRateLimiter
    const limits: Limits

    constructor (limiter: InMemoryRateLimiter, limits: Limits)
      ensures this.limiter == limiter && this.limits == limits
    {
      this.limiter, this.limits := limiter, limits;
    }

    /** `Some` is the number of seconds the refused caller is told to wait. */
    method CanActivate(r: ClaimRequest) returns (retryAfter: Option<nat>)
      modifies limiter
      ensures var (after, decision) := Consume(old(limiter.View()), CallOf(limits, r));
              limiter.View() == after && retryAfter == if decision.allowed then None else Some(decision.retryAfterSeconds)
    {
      var decision := limiter.ConsumeOne(CallOf(limits, r));
      return if decision.allowed then None else Some(decision.retryAfterSeconds);
    }
  }

  // --- how many are let in --------------------------------------------------------------

  function TimesOf(cs: seq<Call>): seq<int> {
    seq(|cs|, i requires 0 <= i < |cs| => cs[i].now)
  }

  /** Calls to one bucket are answered as by one window counting them. */
  lemma {:induction false} OneBucketCounts(
    windows: Windows, bucket: string, limit: nat, windowMs: int, past: seq<int>, cs: seq<Call>, i: nat)
    requires Get(windows, bucket) == After(windowMs, limit, past) && i < |cs|
    requires forall k :: 0 <= k < |cs| ==> cs[k].bucket == bucket && cs[k].limit == limit && cs[k].windowMs == windowMs
    ensures |DecisionsUnswept(windows, cs)| == |cs|
    ensures DecisionsUnswept(windows, cs)[i]
            == ConsumeFixedWindow(After(windowMs, limit, past + TimesOf(cs[..i])), limit, windowMs, cs[i].now).0
    decreases |cs|
  {
    OneAnswerEach(windows, cs);
    var more := past + [cs[0].now];
    assert more[..|more| - 1] == past;
    assert Get(Counted(windows, cs[0]), bucket) == After(windowMs, limit, more);
    if i == 0 {
      assert past + TimesOf(cs[..0]) == past;
    } else {
      OneBucketCounts(Counted(windows, cs[0]), bucket, limit, windowMs, more, cs[1..], i - 1);
      assert DecisionsUnswept(windows, cs)[i] == DecisionsUnswept(Counted(windows, cs[0]), cs[1..])[i - 1];
      assert more + TimesOf(cs[1..][..i - 1]) == past + TimesOf(cs[..i]);
    }
  }

  /**
   Of one key id's confirmations within a minute exactly as many are let in as confirmations are
   allowed per minute, of its status requests as many as status requests are: the first ones.
   */
  lemma FirstOfAMinuteAreLetIn(limits: Limits, rs: seq<ClaimRequest>, i: nat)
    requires i < |rs|
    requires forall k :: 0 <= k < |rs| ==>
               rs[k].keyId == rs[0].keyId && rs[k].isConfirm == rs[0].isConfirm && rs[0].now <= rs[k].now < rs[0].now + 60_000
    requires InOrder(CallsOf(limits, rs), rs[0].now)
    ensures var ds := Decisions(Limiter(map[], 0), CallsOf(limits, rs));
            var limit := if rs[0].isConfirm then limits.postPerMinute else limits.getPerMinute;
            |ds| == |rs| && (ds[i].allowed <==> i < limit)
  {
    var cs := CallsOf(limits, rs);
    var c := cs[0];
    SweepingIsUnobservable(WINDOW_MS, cs, rs[0].now);
    OneBucketCounts(map[], c.bucket, c.limit, WINDOW_MS, [], cs, i);
    var times := [] + TimesOf(cs[..i]);
    ExactlyTheFirstAreLetIn(WINDOW_MS, c.limit, times, cs[i].now);
  }

  /** Under which name, with which limit and for how long a request is counted. */
  lemma CallSays(limits: Limits, r: ClaimRequest)
    ensures CallOf(limits, r) ==
            if r.isConfirm then Call("claim:confirm:" + r.keyId, limits.postPerMinute, 60_000, r.now)
            else Call("claim:status:" + r.keyId, limits.getPerMinute, 60_000, r.now)
  {
  }

  /** Five minutes after the last sweep all windows that have elapsed are thrown away, and before that none. */
  lemma SweepFreesElapsed(l: Limiter, c: Call, b: string)
    requires b != c.bucket
    ensures var l' := Consume(l, c).0;
            && (b in l'.windows ==> b in l.windows && l'.windows[b] == l.windows[b])
            && (c.now - l.lastSweptAt >= 300_000 ==>
                  l'.lastSweptAt == c.now
                  && (b in l'.windows <==> b in l.windows && c.now - l.windows[b].startedAt < c.windowMs))
            && (c.now - l.lastSweptAt < 300_000 ==>
                  l'.lastSweptAt == l.lastSweptAt && (b in l'.windows <==> b in l.windows))
  {
  }
}
