/** The server's fixed-window rate limiter (server/rate_limit.go). Times are
    integers; a call reads the clock up to three times. */
module RateLimit {

  datatype Limiter = Limiter(nextReset: int, count: nat)

  /** The clock readings of one call: the reset test, the new deadline, the wait. */
  datatype Call = Call(tested: int, rearmed: int, waited: int)

  function After(l: Limiter, c: Call, window: nat): Limiter {
    if c.tested > l.nextReset then Limiter(c.rearmed + window, 1)
    else Limiter(l.nextReset, l.count + 1)
  }

  class RateLimiter {
    const limit: int
    const window: nat
    var nextReset: int
    var count: nat

    function View(): Limiter reads this { Limiter(nextReset, count) }

    constructor (limit: int, window: nat, zeroTime: int)
      ensures this.limit == limit && this.window == window && View() == Limiter(zeroTime, 0)
    {
      this.limit, this.window := limit, window;
      nextReset, count := zeroTime, 0;
    }

    /** A positive wait makes the middleware reject the call. */
    method Exceeded(c: Call) returns (wait: int)
      modifies this
      ensures View() == After(old(View()), c, window)
      ensures wait > 0 <==> count > limit && c.waited < nextReset
    {
      if c.tested > nextReset {
        count := 0;
        nextReset := c.rearmed + window;
      }
      count := count + 1;
      if count > limit {
        return nextReset - c.waited;
      }
      return 0;
    }
  }

  // ---------------------------------------------------------------------
  // Whole runs

  /** Calls run one at a time under the lock and the clock never goes back. */
  ghost predicate InOrder(calls: seq<Call>) {
    calls == [] || (
      && calls[0].tested <= calls[0].rearmed <= calls[0].waited
      && (|calls| > 1 ==> calls[0].waited <= calls[1].tested)
      && InOrder(calls[1..]))
  }

  /** How many calls tested between `from` and `to` pass the count check. */
  ghost function Passed(l: Limiter, calls: seq<Call>, limit: nat, window: nat, from: int, to: int): nat
    decreases calls
  {
    if calls == [] then 0
    else
      var next := After(l, calls[0], window);
      (if from <= calls[0].tested <= to && next.count <= limit then 1 else 0)
      + Passed(next, calls[1..], limit, window, from, to)
  }

  lemma {:induction false} NothingAfterEnd(l: Limiter, calls: seq<Call>, limit: nat, window: nat, from: int, to: int)
    requires InOrder(calls)
    requires calls != [] ==> calls[0].tested > to
    ensures Passed(l, calls, limit, window, from, to) == 0
    decreases calls
  {
    if calls != [] {
      NothingAfterEnd(After(l, calls[0], window), calls[1..], limit, window, from, to);
    }
  }

  /** Before the next reset only what is left of the budget passes. */
  lemma {:induction false} WithinOneBudget(l: Limiter, calls: seq<Call>, limit: nat, window: nat, from: int, to: int)
    requires InOrder(calls) && to <= l.nextReset
    ensures Passed(l, calls, limit, window, from, to) <= if l.count < limit then limit - l.count else 0
    decreases calls
  {
    if calls != [] {
      if calls[0].tested > to {
        NothingAfterEnd(l, calls, limit, window, from, to);
      } else {
        WithinOneBudget(After(l, calls[0], window), calls[1..], limit, window, from, to);
      }
    }
  }

  /** From the start of the interval on, at most one reset happens in it. */
  lemma {:induction false} AtMostOneReset(l: Limiter, calls: seq<Call>, limit: nat, window: nat, from: int, to: int)
    requires InOrder(calls) && to - from <= window
    requires calls != [] ==> from <= calls[0].tested
    ensures Passed(l, calls, limit, window, from, to) <= limit + if l.count < limit then limit - l.count else 0
    decreases calls
  {
    if calls != [] {
      var next := After(l, calls[0], window);
      if calls[0].tested > to {
        NothingAfterEnd(l, calls, limit, window, from, to);
      } else if calls[0].tested > l.nextReset {
        WithinOneBudget(next, calls[1..], limit, window, from, to);
      } else {
        AtMostOneReset(next, calls[1..], limit, window, from, to);
      }
    }
  }

  /** In any interval no longer than the window at most twice the limit passes,
      whatever was called before. */
  lemma {:induction false} TwiceTheLimit(l: Limiter, calls: seq<Call>, limit: nat, window: nat, from: int, to: int)
    requires InOrder(calls) && to - from <= window
    ensures Passed(l, calls, limit, window, from, to) <= 2 * limit
    decreases calls
  {
    if calls != [] {
      if calls[0].tested >= from {
        AtMostOneReset(l, calls, limit, window, from, to);
      } else {
        TwiceTheLimit(After(l, calls[0], window), calls[1..], limit, window, from, to);
      }
    }
  }

  // ---------------------------------------------------------------------
  // The bound is reached

  /** `n` calls at one moment. */
  function Burst(time: int, n: nat): (calls: seq<Call>)
    ensures |calls| == n && forall i | 0 <= i < n :: calls[i] == Call(time, time, time)
  {
    seq(n, _ => Call(time, time, time))
  }

  lemma BurstStep(time: int, n: nat, more: seq<Call>)
    requires n > 0
    ensures var calls := Burst(time, n) + more;
      calls[0] == Call(time, time, time) && calls[1..] == Burst(time, n - 1) + more
  {}

  lemma NoBurst(time: int, more: seq<Call>)
    ensures Burst(time, 0) + more == more
  {}

  /** A burst before the deadline passes as far as the limit allows. */
  lemma {:induction false} BurstPasses(l: Limiter, time: int, n: nat, more: seq<Call>, limit: nat, window: nat, from: int, to: int)
    requires time <= l.nextReset && from <= time <= to && l.count + n <= limit
    ensures Passed(l, Burst(time, n) + more, limit, window, from, to)
         == n + Passed(Limiter(l.nextReset, l.count + n), more, limit, window, from, to)
    decreases n
  {
    if n == 0 {
      NoBurst(time, more);
    } else {
      BurstStep(time, n, more);
      BurstPasses(Limiter(l.nextReset, l.count + 1), time, n - 1, more, limit, window, from, to);
    }
  }

  lemma {:induction false} BurstInOrder(time: int, n: nat, more: seq<Call>)
    requires InOrder(more) && (more != [] ==> time <= more[0].tested)
    ensures InOrder(Burst(time, n) + more)
  {
    if n == 0 {
      NoBurst(time, more);
    } else {
      BurstStep(time, n, more);
      BurstInOrder(time, n - 1, more);
    }
  }

  /** A burst after the deadline opens a window of its own. */
  lemma LateBurstPasses(l: Limiter, time: int, n: nat, more: seq<Call>, limit: nat, window: nat, from: int, to: int)
    requires l.nextReset < time && from <= time <= to && 0 < n <= limit
    ensures Passed(l, Burst(time, n) + more, limit, window, from, to)
         == n + Passed(Limiter(time + window, n), more, limit, window, from, to)
  {
    BurstStep(time, n, more);
    BurstPasses(Limiter(time + window, 1), time, n - 1, more, limit, window, from, to);
  }

  /** `limit` calls less `used` at the deadline, `limit` calls right after it. */
  lemma BudgetAround(limit: nat, window: nat, deadline: int, used: nat) returns (calls: seq<Call>)
    requires window >= 1 && used <= limit
    ensures InOrder(calls) && (calls != [] ==> calls[0].tested >= deadline)
    ensures Passed(Limiter(deadline, used), calls, limit, window, deadline, deadline + 1) == 2 * limit - used
  {
    var late := Burst(deadline + 1, limit) + [];
    calls := Burst(deadline, limit - used) + late;
    BurstInOrder(deadline + 1, limit, []);
    BurstInOrder(deadline, limit - used, late);
    BurstPasses(Limiter(deadline, used), deadline, limit - used, late, limit, window, deadline, deadline + 1);
    if limit == 0 {
      NoBurst(deadline + 1, []);
    } else {
      LateBurstPasses(Limiter(deadline, limit), deadline + 1, limit, [], limit, window, deadline, deadline + 1);
    }
  }

  /** For every limit and every window of at least one tick, twice the limit
      passes within one tick: `limit` calls at the deadline and `limit` after it. */
  lemma BoundIsTight(limit: nat, window: nat, deadline: int) returns (calls: seq<Call>)
    requires window >= 1
    ensures InOrder(calls) && Passed(Limiter(deadline, 0), calls, limit, window, deadline, deadline + 1) == 2 * limit
  {
    calls := BudgetAround(limit, window, deadline, 0);
  }

  // ---------------------------------------------------------------------
  // From a new limiter

  /** A limiter whose deadline has passed, as a new one's has, lets at most one
      call less through: the call that opens a window comes too early for the
      calls after that window's end. */
  lemma {:induction false} NewLimiterBound(l: Limiter, calls: seq<Call>, limit: nat, window: nat, from: int, to: int)
    requires InOrder(calls) && to - from <= window
    requires l.count >= 1 || (calls != [] ==> calls[0].tested > l.nextReset)
    ensures Passed(l, calls, limit, window, from, to) <= if limit == 0 then 0 else 2 * limit - 1
    decreases calls
  {
    if calls != [] {
      var next := After(l, calls[0], window);
      if limit == 0 {
        TwiceTheLimit(l, calls, limit, window, from, to);
      } else if calls[0].tested > to {
        NothingAfterEnd(l, calls, limit, window, from, to);
      } else if calls[0].tested < from {
        NewLimiterBound(next, calls[1..], limit, window, from, to);
      } else if l.count >= 1 {
        AtMostOneReset(l, calls, limit, window, from, to);
      } else {
        WithinOneBudget(next, calls[1..], limit, window, from, to);
      }
    }
  }

  /** And that many can: the rest of a budget at its deadline, the next one after it. */
  lemma NewLimiterBoundIsTight(l: Limiter, limit: nat, window: nat, time: int) returns (calls: seq<Call>)
    requires limit >= 1 && window >= 1 && l.nextReset < time
    ensures InOrder(calls) && calls != [] && calls[0].tested > l.nextReset
    ensures Passed(l, calls, limit, window, time + window, time + window + 1) == 2 * limit - 1
  {
    var deadline := time + window;
    var rest := BudgetAround(limit, window, deadline, 1);
    calls := [Call(time, time, time)] + rest;
    assert calls[1..] == rest;
  }
}
