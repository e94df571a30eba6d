/** The fixed-window limiter: INCR, with EXPIRE only when the counter was just created. */
module RateLimit {

  /** A Redis counter: absent once its deadline has passed. */
  datatype Counter = Counter(count: nat, deadline: int)

  /** The increment script at time t. */
  function Increment(c: Counter, t: int, window: nat): Counter {
    if t < c.deadline then Counter(c.count + 1, c.deadline) else Counter(1, t + window)
  }

  /** How many of the requests before time x are admitted. */
  function AdmittedBefore(c: Counter, limit: nat, window: nat, times: seq<int>, x: int): nat
    decreases times
  {
    if times == [] then 0
    else
      var c' := Increment(c, times[0], window);
      (if times[0] < x && c'.count <= limit then 1 else 0)
      + AdmittedBefore(c', limit, window, times[1..], x)
  }

  predicate Sorted(times: seq<int>) {
    forall i, j | 0 <= i < j < |times| :: times[i] <= times[j]
  }

  function Left(c: Counter, limit: nat): nat {
    if c.count >= limit then 0 else limit - c.count
  }

  lemma {:induction false} NothingBefore(c: Counter, limit: nat, window: nat, times: seq<int>, x: int)
    requires forall i | 0 <= i < |times| :: times[i] >= x
    ensures AdmittedBefore(c, limit, window, times, x) == 0
    decreases times
  {
    if times != [] {
      NothingBefore(Increment(c, times[0], window), limit, window, times[1..], x);
    }
  }

  /** Inside the current window only what is left of the limit is admitted. */
  lemma {:induction false} WithinWindow(c: Counter, limit: nat, window: nat, times: seq<int>, x: int)
    requires Sorted(times) && x <= c.deadline
    ensures AdmittedBefore(c, limit, window, times, x) <= Left(c, limit)
    decreases times
  {
    if times != [] {
      if times[0] < x {
        WithinWindow(Increment(c, times[0], window), limit, window, times[1..], x);
      } else {
        NothingBefore(c, limit, window, times, x);
      }
    }
  }

  /** One window length past the current deadline at most one fresh window is opened. */
  lemma {:induction false} WithinTwoWindows(c: Counter, limit: nat, window: nat, times: seq<int>, x: int)
    requires Sorted(times) && x <= c.deadline + window
    ensures AdmittedBefore(c, limit, window, times, x) <= Left(c, limit) + limit
    decreases times
  {
    if times != [] {
      var c' := Increment(c, times[0], window);
      if times[0] >= x {
        NothingBefore(c, limit, window, times, x);
      } else if times[0] < c.deadline {
        WithinTwoWindows(c', limit, window, times[1..], x);
      } else {
        WithinWindow(c', limit, window, times[1..], x);
      }
    }
  }

  /** Admissions with a <= t < a + window, along a whole run. */
  function AdmittedWithin(c: Counter, limit: nat, window: nat, times: seq<int>, a: int): nat
    decreases times
  {
    if times == [] then 0
    else if times[0] >= a then AdmittedBefore(c, limit, window, times, a + window)
    else AdmittedWithin(Increment(c, times[0], window), limit, window, times[1..], a)
  }

  /** A counter the script can have left behind: absent, or opened by at least one request. */
  predicate Opened(c: Counter, times: seq<int>) {
    c.count >= 1 || times == [] || c.deadline <= times[0]
  }

  /**
   For every run of non-decreasing request times and every half-open interval of one
   window length, fewer than twice the limit is admitted.
   */
  lemma {:induction false} FewerThanTwiceTheLimit(c: Counter, limit: nat, window: nat, times: seq<int>, a: int)
    requires Sorted(times) && Opened(c, times)
    ensures AdmittedWithin(c, limit, window, times, a) <= if limit == 0 then 0 else 2 * limit - 1
    decreases times
  {
    if times != [] {
      var c' := Increment(c, times[0], window);
      if times[0] < a {
        FewerThanTwiceTheLimit(c', limit, window, times[1..], a);
      } else if times[0] < c.deadline {
        WithinTwoWindows(c', limit, window, times[1..], a + window);
      } else {
        WithinWindow(c', limit, window, times[1..], a + window);
      }
    }
  }

  /** The bound is met: one early request, then full windows on both sides of the boundary. */
  lemma TheBoundIsMet()
    ensures AdmittedWithin(Counter(0, 0), 3, 10, [0, 8, 9, 10, 11, 12], 8) == 2 * 3 - 1
  {
    assert [0, 8, 9, 10, 11, 12][1..] == [8, 9, 10, 11, 12] && [8, 9, 10, 11, 12][1..] == [9, 10, 11, 12];
    assert [9, 10, 11, 12][1..] == [10, 11, 12] && [10, 11, 12][1..] == [11, 12] && [11, 12][1..] == [12];
  }

  /** The limiter as the handlers use it: one counter key in Redis, updated in place. */
  class Limiter {
    const limit: nat
    const window: nat
    var counter: Counter

    constructor (limit: nat, window: nat)
      ensures this.limit == limit && this.window == window && counter == Counter(0, 0)
    {
      this.limit, this.window, counter := limit, window, Counter(0, 0);
    }

    /** CheckAPIRateLimit at time t. */
    method Check(t: int) returns (admitted: bool)
      modifies this
      ensures counter == Increment(old(counter), t, window)
      ensures admitted <==> counter.count <= limit
    {
      if t < counter.deadline {
        counter := counter.(count := counter.count + 1);
      } else {
        counter := Counter(1, t + window);
      }
      admitted := counter.count <= limit;
    }

    /** A whole run of requests; the decisions realise AdmittedBefore for every horizon. */
    method Serve(times: seq<int>) returns (admitted: seq<bool>)
      modifies this
      ensures |admitted| == |times|
      ensures forall x :: CountBefore(times, admitted, x) == AdmittedBefore(old(counter), limit, window, times, x)
    {
      admitted := [];
      ghost var start := counter;
      for i := 0 to |times|
        invariant |admitted| == i
        invariant forall x ::
                    CountBefore(times[..i], admitted, x) + AdmittedBefore(counter, limit, window, times[i..], x)
                              == AdmittedBefore(start, limit, window, times, x)
      {
        var ok := Check(times[i]);
        assert times[i..][1..] == times[i + 1..];
        assert times[..i + 1][..i] == times[..i] && (admitted + [ok])[..i] == admitted;
        admitted := admitted + [ok];
      }
      assert times[..|times|] == times;
    }
  }

  function CountBefore(times: seq<int>, admitted: seq<bool>, x: int): nat
    requires |times| == |admitted|
  {
    if times == [] then 0
    else
      var n := |times| - 1;
      CountBefore(times[..n], admitted[..n], x) + (if times[n] < x && admitted[n] then 1 else 0)
  }
}
