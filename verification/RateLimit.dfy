/** The fixed-window rate limiter (backend/internal/ratelimit/ratelimit.go).  INCR and the
    EXPIRE that may follow it are one step; times are in any unit. */
module RateLimit {
  import opened Wrappers

  /** A Redis counter and the moment it expires. */
  datatype Counter = Counter(count: nat, expiresAt: int)

  /** The counter after one more request at time `now`. */
  function Incremented(c: Option<Counter>, now: int, window: int): Counter {
    var live := if c.None? || c.value.expiresAt <= now then Counter(0, now) else c.value;
    Counter(live.count + 1, if live.count == 0 then now + window else live.expiresAt)
  }

  class PerIP {
    const limit: int
    const window: int
    var counters: map<string, Counter>

    constructor (limit: int, window: int)
      ensures this.limit == limit && this.window == window && counters == map[]
    {
      this.limit := limit;
      this.window := window;
      counters := map[];
    }

    function CounterOf(ip: string): Option<Counter>
      reads this
    {
      if ip in counters then Some(counters[ip]) else None
    }

    /** Whether the request goes through; without Redis every request does. */
    method Handle(ip: string, now: int, redisUp: bool) returns (served: bool)
      modifies this
      ensures !redisUp ==> served && counters == old(counters)
      ensures redisUp ==>
        && CounterOf(ip) == Some(Incremented(old(CounterOf(ip)), now, window))
        && (served <==> CounterOf(ip).value.count <= limit)
      ensures forall other :: other != ip ==> CounterOf(other) == old(CounterOf(other))
    {
      if !redisUp { return true; }
      var count := 0;
      var expiresAt := now;
      if ip in counters && counters[ip].expiresAt > now {
        count, expiresAt := counters[ip].count, counters[ip].expiresAt;
      }
      count := count + 1;
      if count == 1 { expiresAt := now + window; }
      counters := counters[ip := Counter(count, expiresAt)];
      return count <= limit;
    }
  }

  // ---- Arrivals from one address ----

  predicate Chronological(times: seq<int>) {
    forall i, j :: 0 <= i < j < |times| ==> times[i] <= times[j]
  }

  function After(times: seq<int>, window: int): Option<Counter> {
    if times == [] then None
    else
      var last := |times| - 1;
      Some(Incremented(After(times[..last], window), times[last], window))
  }

  /** The request that opened the window request `k` falls into: the first one, and then each
      that comes a window's length or more after the one that opened the window before. */
  function WindowStart(times: seq<int>, k: nat, window: int): (i: nat)
    requires k < |times|
    ensures i <= k
  {
    if k == 0 then 0
    else
      var i := WindowStart(times, k - 1, window);
      if times[k] - times[i] >= window then k else i
  }

  predicate ServedAt(times: seq<int>, k: nat, limit: int, window: int)
    requires k < |times|
  {
    After(times[..k + 1], window).value.count <= limit
  }

  lemma {:induction false} CountsFromStart(times: seq<int>, k: nat, window: int)
    requires k < |times|
    ensures var i := WindowStart(times, k, window);
      After(times[..k + 1], window) == Some(Counter(k - i + 1, times[i] + window))
  {
    assert times[..k + 1][..k] == times[..k];
    if k > 0 { CountsFromStart(times, k - 1, window); }
  }

  /** A request is served if and only if it is among the first `limit` of its window. */
  lemma ServedExactly(times: seq<int>, k: nat, limit: int, window: int)
    requires k < |times|
    ensures ServedAt(times, k, limit, window) <==> k < WindowStart(times, k, window) + limit
  {
    CountsFromStart(times, k, window);
  }

  /** Whoever stays away for the length of a window is served again. */
  lemma ServedAfterPause(times: seq<int>, k: nat, limit: int, window: int)
    requires Chronological(times) && 0 < k < |times| && times[k] - times[k - 1] >= window && limit >= 1
    ensures ServedAt(times, k, limit, window)
  {
    ServedExactly(times, k, limit, window);
    assert times[WindowStart(times, k - 1, window)] <= times[k - 1];
  }

  /** The requests served in the half-open interval of one window's length from `start`. */
  function ServedIn(times: seq<int>, limit: nat, window: int, start: int): nat {
    if times == [] then 0
    else
      var last := |times| - 1;
      var served := After(times, window).value.count <= limit && start <= times[last] < start + window;
      ServedIn(times[..last], limit, window, start) + if served then 1 else 0
  }

  function Min(x: int, y: int): int { if x < y then x else y }

  /** What at most was served in the interval, given where the current window began. */
  function Bound(c: Option<Counter>, limit: nat, window: int, start: int): int {
    if limit == 0 || c.None? then 0
    else
      var began := c.value.expiresAt - window;
      if began < start then Min(c.value.count, limit) - 1
      else if began < start + window then limit - 1 + Min(c.value.count, limit)
      else 2 * limit - 1
  }

  lemma {:induction false} ServedWithinBound(times: seq<int>, limit: nat, window: int, start: int)
    requires Chronological(times) && window >= 0
    ensures ServedIn(times, limit, window, start) <= Bound(After(times, window), limit, window, start)
    ensures times != [] && times[|times| - 1] < start ==> ServedIn(times, limit, window, start) == 0
    ensures times != [] ==>
      var c := After(times, window).value; c.count >= 1 && c.expiresAt - window <= times[|times| - 1]
  {
    if times != [] {
      var before := times[..|times| - 1];
      ServedWithinBound(before, limit, window, start);
      if before != [] {
        assert before[|before| - 1] == times[|times| - 2] <= times[|times| - 1];
      }
    }
  }

  lemma {:induction false} EmptyInterval(times: seq<int>, limit: nat, window: int, start: int)
    requires window < 0
    ensures ServedIn(times, limit, window, start) == 0
  {
    if times != [] { EmptyInterval(times[..|times| - 1], limit, window, start); }
  }

  /** Sliding-interval bound: for any arrival sequence, any half-open interval of one
      window's length sees at most 2 * limit - 1 requests served (none for limit 0). */
  lemma SlidingIntervalBound(times: seq<int>, limit: nat, window: int, start: int)
    requires Chronological(times)
    ensures ServedIn(times, limit, window, start) <= if limit == 0 then 0 else 2 * limit - 1
  {
    if window < 0 {
      EmptyInterval(times, limit, window, start);
    } else {
      ServedWithinBound(times, limit, window, start);
    }
  }

  // ---- The bound is sharp ----

  function Burst(time: int, n: nat): seq<int> {
    seq(n, _ => time)
  }

  /** A window began early, filled at its very end, and the next one filled at once. */
  function Worst(limit: nat, window: int): seq<int>
    requires limit >= 1
  {
    [0] + Burst(window - 1, limit - 1) + Burst(window, limit)
  }

  /** A burst inside an open window. */
  lemma {:induction false} BurstServed(before: seq<int>, time: int, n: nat, limit: nat, window: int, start: int)
    requires After(before, window).Some?
    requires var c := After(before, window).value; time < c.expiresAt && c.count + n <= limit
    requires start <= time < start + window
    ensures var times := before + Burst(time, n);
      && After(times, window) == Some(After(before, window).value.(count := After(before, window).value.count + n))
      && ServedIn(times, limit, window, start) == ServedIn(before, limit, window, start) + n
    decreases n
  {
    var times := before + Burst(time, n);
    if n == 0 {
      assert times == before;
    } else {
      BurstServed(before, time, n - 1, limit, window, start);
      assert times[..|times| - 1] == before + Burst(time, n - 1);
    }
  }

  /** The sliding-interval bound is reached, for every limit and every window of 2 or more. */
  lemma BoundIsSharp(limit: nat, window: int)
    requires limit >= 1 && window >= 2
    ensures Chronological(Worst(limit, window))
    ensures ServedIn(Worst(limit, window), limit, window, window - 1) == 2 * limit - 1
  {
    var start := window - 1;
    assert [0][..0] == [];
    assert After([0], window) == Some(Counter(1, window));
    assert ServedIn([0], limit, window, start) == 0;
    BurstServed([0], window - 1, limit - 1, limit, window, start);
    var first := [0] + Burst(window - 1, limit - 1);
    var began := first + [window];
    assert began[..|began| - 1] == first;
    assert After(began, window) == Some(Counter(1, 2 * window));
    BurstServed(began, window, limit - 1, limit, window, start);
    assert began + Burst(window, limit - 1) == Worst(limit, window);
  }
}
