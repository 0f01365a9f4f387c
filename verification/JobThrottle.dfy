/**
 How often an internal job is attempted, and the loop that gives every job its turn.
 */
module JobThrottle {
  import opened Wrappers

  // --- the throttle ---------------------------------------------------------------------

  /** What came of a call that was made. */
  datatype Response = Succeeded | Refused | Unreachable

  predicate Due(last: Option<int>, everyMs: int, now: int) {
    last.None? || now - last.value >= everyMs
  }

  datatype Poll = Poll(now: int, response: Response)

  /** The times of the attempts made at these polls; whether they succeeded plays no part. */
  function Attempts(last: Option<int>, everyMs: int, polls: seq<Poll>): seq<int>
    decreases |polls|
  {
    if polls == [] then []
    else if Due(last, everyMs, polls[0].now)
    then [polls[0].now] + Attempts(Some(polls[0].now), everyMs, polls[1..])
    else Attempts(last, everyMs, polls[1..])
  }

  ghost predicate Spaced(times: seq<int>, everyMs: int) {
    forall i :: 0 <= i < |times| - 1 ==> times[i + 1] - times[i] >= everyMs
  }

  lemma {:induction false} AttemptsAreSpacedFrom(last: Option<int>, everyMs: int, polls: seq<Poll>)
    ensures Spaced(Attempts(last, everyMs, polls), everyMs)
    ensures var times := Attempts(last, everyMs, polls);
            last.Some? && times != [] ==> times[0] - last.value >= everyMs
    decreases |polls|
  {
    if polls != [] {
      if Due(last, everyMs, polls[0].now) {
        AttemptsAreSpacedFrom(Some(polls[0].now), everyMs, polls[1..]);
        var rest := Attempts(Some(polls[0].now), everyMs, polls[1..]);
        var times := Attempts(last, everyMs, polls);
        forall i | 0 <= i < |times| - 1
          ensures times[i + 1] - times[i] >= everyMs
        {
          assert i > 0 ==> times[i] == rest[i - 1];
          assert times[i + 1] == rest[i];
        }
      } else {
        AttemptsAreSpacedFrom(last, everyMs, polls[1..]);
      }
    }
  }

  /** How many of the times lie in a span, both ends included. */
  function CountWithin(times: seq<int>, from: int, to: int): nat
    decreases |times|
  {
    if times == [] then 0
    else CountWithin(times[..|times| - 1], from, to) + (if from <= times[|times| - 1] <= to then 1 else 0)
  }

  lemma {:induction false} SpacedIsSorted(times: seq<int>, everyMs: int, i: nat, j: nat)
    requires Spaced(times, everyMs) && everyMs >= 0 && i < j < |times|
    ensures times[j] - times[i] >= everyMs
    decreases j
  {
    if i < j - 1 {
      SpacedIsSorted(times, everyMs, i, j - 1);
    }
    assert times[(j - 1) + 1] - times[j - 1] >= everyMs;
  }

  lemma {:induction false} NothingAbove(times: seq<int>, from: int, to: int, cap: int)
    requires forall i :: 0 <= i < |times| ==> times[i] <= cap
    ensures CountWithin(times, from, to) == CountWithin(times, from, if cap < to then cap else to)
    decreases |times|
  {
    if times != [] {
      NothingAbove(times[..|times| - 1], from, to, cap);
    }
  }

  lemma {:induction false} EmptySpan(times: seq<int>, from: int, to: int)
    requires to < from
    ensures CountWithin(times, from, to) == 0
    decreases |times|
  {
    if times != [] {
      EmptySpan(times[..|times| - 1], from, to);
    }
  }

  lemma OneIntervalLess(n: int, e: int)
    requires e >= 1 && n >= e
    ensures (n - e) / e == n / e - 1
  {
    var q, r := (n - e) / e, (n - e) % e;
    assert n - e == q * e + r;
    assert n == (q + 1) * e + r by {
      assert (q + 1) * e == q * e + e;
    }
    QuotientIs(n, e, q + 1, r);
  }

  lemma QuotientIs(n: int, e: int, q: int, r: int)
    requires e >= 1 && 0 <= r < e && n == q * e + r
    ensures n / e == q
  {
    var p, s := n / e, n % e;
    assert n == p * e + s;
    assert (p - q) * e == r - s by {
      assert (p - q) * e == p * e - q * e;
    }
    assert (q - p) * e == -((p - q) * e);
    if p > q {
      MulAtLeast(p - q, e);
    } else if p < q {
      MulAtLeast(q - p, e);
    }
  }

  lemma MulAtLeast(k: int, e: int)
    requires k >= 1 && e >= 1
    ensures k * e >= e
  {
  }

  lemma QuotientGrows(a: int, b: int, e: int)
    requires e >= 1 && 0 <= a <= b
    ensures a / e <= b / e
    decreases b
  {
    if a >= e {
      OneIntervalLess(a, e);
      OneIntervalLess(b, e);
      QuotientGrows(a - e, b - e, e);
    } else {
      QuotientIs(a, e, 0, a);
      NotNegative(b, e);
    }
  }

  lemma NotNegative(b: int, e: int)
    requires b >= 0 && e >= 1
    ensures b / e >= 0
  {
  }

  lemma {:induction false} FewWithin(times: seq<int>, everyMs: int, from: int, to: int)
    requires Spaced(times, everyMs) && everyMs >= 1 && from <= to
    ensures CountWithin(times, from, to) <= (to - from) / everyMs + 1
    decreases |times|
  {
    if times == [] {
      NotNegative(to - from, everyMs);
    } else {
      var front, x := times[..|times| - 1], times[|times| - 1];
      assert Spaced(front, everyMs);
      if from <= x <= to {
        forall i | 0 <= i < |front|
          ensures front[i] <= x - everyMs
        {
          SpacedIsSorted(times, everyMs, i, |times| - 1);
        }
        NothingAbove(front, from, to, x - everyMs);
        QuotientGrows(x - from, to - from, everyMs);
        if from <= x - everyMs {
          FewWithin(front, everyMs, from, x - everyMs);
          OneIntervalLess(x - from, everyMs);
        } else {
          EmptySpan(front, from, x - everyMs);
          NotNegative(x - from, everyMs);
        }
      } else {
        FewWithin(front, everyMs, from, to);
      }
    }
  }

  /**
   Whatever the polling, whatever comes of the calls and wherever the clock jumps: attempts carry
   times at least the interval apart, so that a span holds at most its length divided by the
   interval, rounded down, and one more.
   */
  lemma AttemptsAreFew(everyMs: int, polls: seq<Poll>, from: int, to: int)
    requires everyMs >= 1 && from <= to
    ensures Spaced(Attempts(None, everyMs, polls), everyMs)
    ensures CountWithin(Attempts(None, everyMs, polls), from, to) <= (to - from) / everyMs + 1
  {
    AttemptsAreSpacedFrom(None, everyMs, polls);
    FewWithin(Attempts(None, everyMs, polls), everyMs, from, to);
  }

  /** The price of a clock that once ran ahead: until it is caught up with, nothing is attempted. */
  lemma {:induction false} SilentUntilCaughtUp(last: int, everyMs: int, polls: seq<Poll>)
    ensures Attempts(Some(last), everyMs, polls) == []
            <==> forall i :: 0 <= i < |polls| ==> polls[i].now < last + everyMs
    decreases |polls|
  {
    if polls != [] {
      SilentUntilCaughtUp(last, everyMs, polls[1..]);
      if forall i :: 0 <= i < |polls[1..]| ==> polls[1..][i].now < last + everyMs {
        forall i | 1 <= i < |polls|
          ensures polls[i].now < last + everyMs
        {
          assert polls[i] == polls[1..][i - 1];
        }
      } else {
        var i :| 0 <= i < |polls[1..]| && polls[1..][i].now >= last + everyMs;
        assert polls[i + 1].now >= last + everyMs;
      }
    }
  }

  /** One more poll adds its time if an attempt is due, and nothing else. */
  lemma {:induction false} OneMorePoll(last: Option<int>, everyMs: int, polls: seq<Poll>, p: Poll)
    ensures var times := Attempts(last, everyMs, polls);
            Attempts(last, everyMs, polls + [p]) == times + (if Due(LastOf(last, times), everyMs, p.now) then [p.now] else [])
    decreases |polls|
  {
    if polls == [] {
      assert [p][1..] == [];
    } else {
      assert (polls + [p])[1..] == polls[1..] + [p];
      if Due(last, everyMs, polls[0].now) {
        OneMorePoll(Some(polls[0].now), everyMs, polls[1..], p);
        assert LastOf(last, Attempts(last, everyMs, polls))
               == LastOf(Some(polls[0].now), Attempts(Some(polls[0].now), everyMs, polls[1..]));
      } else {
        OneMorePoll(last, everyMs, polls[1..], p);
      }
    }
  }

  function LastOf(last: Option<int>, times: seq<int>): Option<int> {
    if times == [] then last else Some(times[|times| - 1])
  }

  /** `polls` and `attempted` are what has been so far; the caller itself keeps only the last time. */
  class InternalJobCaller {
    const everyMs: int
    var lastAttemptedAt: Option<int>
    ghost var polls: seq<Poll>
    ghost var attempted: seq<int>

    ghost predicate Valid()
      reads this
    {
      attempted == Attempts(None, everyMs, polls) && lastAttemptedAt == LastOf(None, attempted)
    }

    constructor (everyMs: int)
      ensures this.everyMs == everyMs && polls == [] && Valid()
    {
      this.everyMs, lastAttemptedAt, polls, attempted := everyMs, None, [], [];
    }

    /** The time is put down before the call is made; only a successful call counts as work done. */
    method RunOnce(now: int, response: Response) returns (processed: nat)
      requires Valid()
      modifies this
      ensures Valid() && polls == old(polls) + [Poll(now, response)]
      ensures var due := Due(old(lastAttemptedAt), everyMs, now);
              && lastAttemptedAt == (if due then Some(now) else old(lastAttemptedAt))
              && processed == (if due && response.Succeeded? then 1 else 0)
    {
      OneMorePoll(None, everyMs, polls, Poll(now, response));
      polls := polls + [Poll(now, response)];
      if lastAttemptedAt.Some? && now - lastAttemptedAt.value < everyMs {
        return 0;
      }
      attempted := attempted + [now];
      lastAttemptedAt := Some(now);
      return if response.Succeeded? then 1 else 0;
    }
  }

  // --- the loop over the jobs -----------------------------------------------------------

  /** One turn of a job: what it came to, `None` if it threw, and whether a stop was asked for meanwhile. */
  datatype Turn = Turn(result: Option<nat>, stopAsked: bool)

  datatype RunResult = RunResult(processed: nat, failures: nat)

  /** The turns that are given: those up to and including the one during which a stop is asked for. */
  function Given(turns: seq<Turn>): nat
    ensures Given(turns) <= |turns|
    decreases |turns|
  {
    if turns == [] then 0 else if turns[0].stopAsked then 1 else 1 + Given(turns[1..])
  }

  function Totals(turns: seq<Turn>, n: nat): RunResult
    requires n <= |turns|
  {
    if n == 0 then RunResult(0, 0)
    else
      var t := Totals(turns, n - 1);
      match turns[n - 1].result
      case Some(k) => t.(processed := t.processed + k)
      case None => t.(failures := t.failures + 1)
  }

  /** A turn is given to every job before the stop, and to none after it; throwing makes no difference. */
  lemma {:induction false} EveryJobUpToTheStop(turns: seq<Turn>, i: nat)
    requires i < |turns|
    ensures i < Given(turns) <==> forall k :: 0 <= k < i ==> !turns[k].stopAsked
    decreases |turns|
  {
    if !turns[0].stopAsked && i > 0 {
      EveryJobUpToTheStop(turns[1..], i - 1);
      if forall k :: 0 <= k < i - 1 ==> !turns[1..][k].stopAsked {
        forall k | 0 <= k < i
          ensures !turns[k].stopAsked
        {
          assert k > 0 ==> turns[k] == turns[1..][k - 1];
        }
      } else {
        var k :| 0 <= k < i - 1 && turns[1..][k].stopAsked;
        assert turns[k + 1].stopAsked;
      }
    }
  }

  lemma {:induction false} NotStoppedYet(turns: seq<Turn>, n: nat)
    requires n <= |turns| && forall k :: 0 <= k < n ==> !turns[k].stopAsked
    ensures n <= Given(turns)
    ensures n < |turns| && turns[n].stopAsked ==> Given(turns) == n + 1
    ensures n == |turns| ==> Given(turns) == n
    decreases |turns|
  {
    if n > 0 {
      assert forall k :: 0 <= k < n - 1 ==> turns[1..][k] == turns[k + 1];
      NotStoppedYet(turns[1..], n - 1);
    }
  }

  predicate StopAskedIn(turns: seq<Turn>) {
    exists k :: 0 <= k < |turns| && turns[k].stopAsked
  }

  /** A round and the sleep after it, in which a stop may be asked for too. */
  datatype Round = Round(turns: seq<Turn>, stopAsleep: bool)

  predicate StopAskedAround(r: Round) {
    StopAskedIn(r.turns) || r.stopAsleep
  }

  class WorkerRunner {
    var stopping: bool
    var running: bool

    constructor ()
      ensures !stopping && !running
    {
      stopping, running := false, false;
    }

    method RequestStop()
      modifies this`stopping
      ensures stopping
    {
      stopping := true;
    }

    /** One round. `turns` is what each job would come to; none is cut short. */
    method RunRound(turns: seq<Turn>) returns (r: RunResult)
      modifies this`stopping
      ensures r == Totals(turns, if old(stopping) then 0 else Given(turns))
      ensures stopping == (old(stopping) || StopAskedIn(turns))
    {
      var processed, failures := 0, 0;
      var i := 0;
      while i < |turns| && !stopping
        invariant 0 <= i <= |turns| && RunResult(processed, failures) == Totals(turns, i)
        invariant old(stopping) ==> stopping && i == 0
        invariant !stopping ==> forall k :: 0 <= k < i ==> !turns[k].stopAsked
        invariant stopping && !old(stopping) ==>
                    i > 0 && turns[i - 1].stopAsked && forall k :: 0 <= k < i - 1 ==> !turns[k].stopAsked
      {
        match turns[i].result {
          case Some(k) => processed := processed + k;
          case None => failures := failures + 1;
        }
        if turns[i].stopAsked {
          RequestStop();
        }
        i := i + 1;
      }
      if !old(stopping) {
        NotStoppedYet(turns, if stopping then i - 1 else i);
      }
      return RunResult(processed, failures);
    }

    /** Round after round until a stop is asked for; `rounds` is what the rounds and the sleeps after them would come to. */
    method RunForever(rounds: seq<Round>) returns (done: nat)
      requires !stopping
      modifies this
      ensures done <= |rounds| && !running
      ensures forall r :: 0 <= r < done - 1 ==> !StopAskedAround(rounds[r])
      ensures done < |rounds| ==> done > 0 && StopAskedAround(rounds[done - 1])
    {
      running := true;
      done := 0;
      while done < |rounds| && !stopping
        invariant done <= |rounds|
        invariant forall r :: 0 <= r < done - 1 ==> !StopAskedAround(rounds[r])
        invariant stopping <==> done > 0 && StopAskedAround(rounds[done - 1])
      {
        var _ := RunRound(rounds[done].turns);
        if !stopping && rounds[done].stopAsleep {
          RequestStop();
        }
        done := done + 1;
      }
      running := false;
    }
  }

  // --- what exactly is attempted and counted --------------------------------------------

  /** A poll is attempted exactly if it is the first, or comes at least the interval after the last attempt. */
  lemma PollIsAttemptedExactlyWhen(everyMs: int, polls: seq<Poll>, p: Poll)
    ensures Attempts(None, everyMs, []) == []
    ensures var times := Attempts(None, everyMs, polls);
            Attempts(None, everyMs, polls + [p])
            == if times == [] || p.now - times[|times| - 1] >= everyMs then times + [p.now] else times
  {
    OneMorePoll(None, everyMs, polls, p);
  }

  /** What a job has processed is added up, and one that threw is one failure more. */
  lemma TurnIsCounted(turns: seq<Turn>, n: nat)
    requires n < |turns|
    ensures Totals(turns, 0) == RunResult(0, 0)
    ensures var t, t' := Totals(turns, n), Totals(turns, n + 1);
            if turns[n].result == None then t' == RunResult(t.processed, t.failures + 1)
            else t' == RunResult(t.processed + turns[n].result.value, t.failures)
  {
  }
}
