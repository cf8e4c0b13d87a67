/**
 * The per-route limiter (src/middleware/rateLimit.ts): a Redis counter when Redis is
 * connected, an in-memory window in development without it, a refusal in production
 * without it.
 */
module RateLimit {
  import opened Common
  import opened FixedWindow
  import opened WindowLoop

  datatype MemoryWindow = MemoryWindow(count: nat, resetAt: int)

  datatype Answer = Proceed | TooManyRequests | Unavailable

  /** Redis expires in whole seconds, rounded up; the memory window still counts at its reset time. */
  function Length(connected: bool, windowMs: nat): int {
    if connected then (windowMs + 999) / 1000 * 1000 else windowMs + 1
  }

  lemma LengthCovers(connected: bool, windowMs: nat)
    ensures Length(connected, windowMs) >= windowMs
    ensures connected ==> Length(connected, windowMs) < windowMs + 1000 && Length(connected, windowMs) % 1000 == 0
    ensures !connected ==> Length(connected, windowMs) == windowMs + 1
  {}

  /** The hit at t opens a new window. */
  predicate Opens(len: int, w: Window, t: int) { !(w.Open? && t < w.start + len) }

  /** Whether a hit passes: the memory window never refuses the one that opens it. */
  predicate Passes(connected: bool, windowMs: nat, max: nat, w: Window, t: int) {
    var len := Length(connected, windowMs);
    Admits(len, max, w, t) || (!connected && Opens(len, w, t))
  }

  class Limiter {
    const windowMs: nat
    const max: nat
    const connected: bool
    const production: bool
    var memoryStore: map<string, MemoryWindow>
    var redis: map<string, Counter>

    constructor (windowMs: nat, max: nat, connected: bool, production: bool)
      ensures this.windowMs == windowMs && this.max == max
      ensures this.connected == connected && this.production == production
      ensures forall key :: View(key) == Closed
    {
      this.windowMs, this.max, this.connected, this.production := windowMs, max, connected, production;
      memoryStore, redis := map[], map[];
    }

    function Len(): int { Length(connected, windowMs) }

    function View(key: string): Window
      reads this
    {
      if connected then
        WindowOf(Get(redis, key), Len())
      else
        if key in memoryStore then Open(memoryStore[key].resetAt - windowMs, memoryStore[key].count) else Closed
    }

    method Check(key: string, now: int) returns (answer: Answer)
      modifies this
      ensures forall other :: other != key ==> View(other) == old(View(other))
      ensures connected || !production ==>
                && View(key) == Hit(Len(), old(View(key)), now)
                && answer
                   == if Passes(connected, windowMs, max, old(View(key)), now) then Proceed else TooManyRequests
      ensures !connected && production ==> answer == Unavailable && View(key) == old(View(key))
    {
      if connected {
        var windowSeconds := (windowMs + 999) / 1000;
        var current := 1;
        if key in redis && now < redis[key].expiresAt {
          current := redis[key].count + 1;
          redis := redis[key := Counter(current, redis[key].expiresAt)];
        } else {
          redis := redis[key := Counter(1, now + windowSeconds * 1000)];
        }
        if current > max {
          return TooManyRequests;
        }
        return Proceed;
      }
      if production {
        return Unavailable;
      }
      if key !in memoryStore || now > memoryStore[key].resetAt {
        memoryStore := memoryStore[key := MemoryWindow(1, now + windowMs)];
        return Proceed;
      }
      var w := memoryStore[key];
      memoryStore := memoryStore[key := MemoryWindow(w.count + 1, w.resetAt)];
      if w.count + 1 > max {
        return TooManyRequests;
      }
      return Proceed;
    }
  }

  /** Requests of the trace in [a, b) that pass. */
  function Passed(connected: bool, windowMs: nat, max: nat, w: Window, times: seq<int>, a: int, b: int): nat
    decreases |times|
  {
    if times == [] then 0
    else
      (if a <= times[0] < b && Passes(connected, windowMs, max, w, times[0]) then 1 else 0)
      + Passed(connected, windowMs, max, Hit(Length(connected, windowMs), w, times[0]), times[1..], a, b)
  }

  lemma {:induction false} PassedIsAdmitted(connected: bool, windowMs: nat, max: nat, w: Window, times: seq<int>,
                                            a: int, b: int)
    requires max >= 1
    ensures Passed(connected, windowMs, max, w, times, a, b)
        == Admitted(Length(connected, windowMs), max, w, times, a, b)
    decreases |times|
  {
    if times == [] {
    } else {
      PassedIsAdmitted(connected, windowMs, max, Hit(Length(connected, windowMs), w, times[0]), times[1..], a, b);
    }
  }

  /** Both stores: at most 2 * max - 1 requests pass in any half-open interval of the configured length. */
  lemma LimiterBound(connected: bool, windowMs: nat, max: nat, times: seq<int>, a: int, b: int)
    requires max >= 1 && b - a <= windowMs && Nondecreasing(times)
    ensures Passed(connected, windowMs, max, Closed, times, a, b) <= 2 * max - 1
  {
    PassedIsAdmitted(connected, windowMs, max, Closed, times, a, b);
    LengthCovers(connected, windowMs);
    SlidingBound(Length(connected, windowMs), max, times, a, b);
  }

  /** And at most max from a request that opens a window until it ends. */
  lemma LimiterWindowBound(connected: bool, windowMs: nat, max: nat, w: Window, times: seq<int>)
    requires max >= 1 && times != [] && Nondecreasing(times)
    requires Opens(Length(connected, windowMs), w, times[0])
    ensures Passed(connected, windowMs, max, w, times, times[0], times[0] + Length(connected, windowMs)) <= max
  {
    PassedIsAdmitted(connected, windowMs, max, w, times, times[0], times[0] + Length(connected, windowMs));
    WindowBound(Length(connected, windowMs), max, w, times);
  }

  /**
   * With a limit of zero the two stores differ: Redis lets nothing through, memory exactly the hits that open a
   * window.
   */
  lemma ZeroLimit(connected: bool, windowMs: nat, w: Window, t: int)
    requires w.Open? ==> w.count >= 1
    ensures Passes(connected, windowMs, 0, w, t) <==> !connected && Opens(Length(connected, windowMs), w, t)
    ensures Hit(Length(connected, windowMs), w, t).count >= 1
  {}
}
