/**
 * A loop over several fixed windows that stops at the first one over its limit, as in
 * `checkCommunicationAbuseLimits` (src/lib/antiAbuse.ts) and
 * `enforceClientEventRateLimit` (src/modules/communication/events.service.ts).
 */
module WindowLoop {
  import opened Common
  import opened FixedWindow

  datatype Counter = Counter(count: nat, expiresAt: int)

  /** A window whose limit is not positive is skipped. */
  datatype Win<K> = Win(key: K, ttl: int, limit: int)

  /** INCR, and PEXPIRE when the counter is new. */
  function Bumped(c: Option<Counter>, ttl: int, now: int): Counter {
    if c.Some? && now < c.value.expiresAt then Counter(c.value.count + 1, c.value.expiresAt) else Counter(1, now + ttl)
  }

  function Get<K>(counters: map<K, Counter>, key: K): Option<Counter> {
    if key in counters then Some(counters[key]) else None
  }

  function Bump<K>(counters: map<K, Counter>, w: Win<K>, now: int): map<K, Counter> {
    counters[w.key := Bumped(Get(counters, w.key), w.ttl, now)]
  }

  predicate Over<K>(counters: map<K, Counter>, w: Win<K>, now: int) {
    Bumped(Get(counters, w.key), w.ttl, now).count > w.limit
  }

  ghost predicate DistinctKeys<K>(windows: seq<Win<K>>) {
    forall i, k :: 0 <= i < k < |windows| ==> windows[i].key != windows[k].key
  }

  /** The first applicable window that this hit takes over its limit, judged on the counters before the loop. */
  function FirstOver<K>(counters: map<K, Counter>, windows: seq<Win<K>>, now: int): (n: nat)
    ensures n <= |windows|
    ensures n < |windows| ==> windows[n].limit > 0 && Over(counters, windows[n], now)
    ensures forall i :: 0 <= i < n ==> windows[i].limit > 0 ==> !Over(counters, windows[i], now)
  {
    if windows == [] then 0
    else if windows[0].limit > 0 && Over(counters, windows[0], now) then 0
    else 1 + FirstOver(counters, windows[1..], now)
  }

  /** The counters after bumping each applicable window of the list in turn. */
  function BumpEach<K>(counters: map<K, Counter>, windows: seq<Win<K>>, now: int): map<K, Counter> {
    if windows == [] then counters
    else
      var w, before := windows[|windows| - 1], BumpEach(counters, windows[..|windows| - 1], now);
      if w.limit > 0 then Bump(before, w, now) else before
  }

  /** Each applicable window was bumped once from what it was before the loop; nothing else changed. */
  ghost predicate BumpedOnce<K(!new)>(before: map<K, Counter>, after: map<K, Counter>, windows: seq<Win<K>>, now: int) {
    && (forall i :: 0 <= i < |windows| && windows[i].limit > 0 ==>
          Get(after, windows[i].key) == Some(Bumped(Get(before, windows[i].key), windows[i].ttl, now)))
    && (forall key :: (forall i :: 0 <= i < |windows| && windows[i].limit > 0 ==> windows[i].key != key) ==>
          Get(after, key) == Get(before, key))
  }

  /** The part of the list the loop bumps. */
  function Reached<K>(counters: map<K, Counter>, windows: seq<Win<K>>, now: int): seq<Win<K>> {
    var n := FirstOver(counters, windows, now);
    if n < |windows| then windows[..n + 1] else windows
  }

  lemma BumpedOnceSnoc<K(!new)>(before: map<K, Counter>, mid: map<K, Counter>, windows: seq<Win<K>>, w: Win<K>,
                                now: int)
    requires BumpedOnce(before, mid, windows, now) && DistinctKeys(windows + [w])
    ensures w.limit <= 0 ==> BumpedOnce(before, mid, windows + [w], now)
    ensures w.limit > 0 ==> BumpedOnce(before, Bump(mid, w, now), windows + [w], now)
    ensures w.limit > 0 ==> Get(mid, w.key) == Get(before, w.key)
  {
    var longer := windows + [w];
    forall i | 0 <= i < |windows|
      ensures windows[i].key != w.key
    {
      assert longer[i].key != longer[|windows|].key;
    }
    var after := if w.limit > 0 then Bump(mid, w, now) else mid;
    forall key | forall i :: 0 <= i < |longer| && longer[i].limit > 0 ==> longer[i].key != key
      ensures Get(after, key) == Get(before, key)
    {
      assert forall i :: 0 <= i < |windows| ==> longer[i] == windows[i];
      assert longer[|windows|] == w;
    }
  }

  /** With distinct keys the turns do not interfere. */
  lemma {:induction false} BumpsOnce<K(!new)>(counters: map<K, Counter>, windows: seq<Win<K>>, now: int)
    requires DistinctKeys(windows)
    ensures BumpedOnce(counters, BumpEach(counters, windows, now), windows, now)
  {
    if windows == [] {
    } else {
      var init, w := windows[..|windows| - 1], windows[|windows| - 1];
      assert windows == init + [w];
      BumpsOnce(counters, init, now);
      BumpedOnceSnoc(counters, BumpEach(counters, init, now), init, w, now);
    }
  }

  /** What the loop does to one counter: nothing, or one bump by its window. */
  lemma LoopOnKey<K(!new)>(counters: map<K, Counter>, windows: seq<Win<K>>, now: int, key: K)
    requires DistinctKeys(windows)
    ensures var after := BumpEach(counters, Reached(counters, windows, now), now);
            || Get(after, key) == Get(counters, key)
            || exists i :: 0 <= i < |windows| && windows[i].key == key
                           && Get(after, key) == Some(Bumped(Get(counters, key), windows[i].ttl, now))
  {
    var reached := Reached(counters, windows, now);
    assert forall i :: 0 <= i < |reached| ==> reached[i] == windows[i];
    BumpsOnce(counters, reached, now);
    if i :| 0 <= i < |reached| && reached[i].limit > 0 && reached[i].key == key {
      assert windows[i].key == key;
    }
  }

  /** A call that gets through bumped every applicable window, each within its limit. */
  lemma LoopPassed<K(!new)>(counters: map<K, Counter>, windows: seq<Win<K>>, now: int, i: nat)
    requires DistinctKeys(windows) && FirstOver(counters, windows, now) == |windows|
    requires i < |windows| && windows[i].limit > 0 && windows[i].ttl > 0
    ensures var key, after := windows[i].key, BumpEach(counters, Reached(counters, windows, now), now);
            && Get(after, key) == Some(Bumped(Get(counters, key), windows[i].ttl, now))
            && Get(after, key) != Get(counters, key)
            && Get(after, key).value.count <= windows[i].limit
  {
    BumpsOnce(counters, windows, now);
    assert !Over(counters, windows[i], now);
  }

  /**
   * A call refused at window n bumped the applicable windows up to n, took the n-th over its limit and left the
   * later ones.
   */
  lemma LoopRefused<K(!new)>(counters: map<K, Counter>, windows: seq<Win<K>>, now: int)
    requires DistinctKeys(windows) && FirstOver(counters, windows, now) < |windows|
    ensures var n, after := FirstOver(counters, windows, now), BumpEach(counters, Reached(counters, windows, now), now);
            && BumpedOnce(counters, after, windows[..n + 1], now)
            && windows[n].key in after && after[windows[n].key].count > windows[n].limit
            && (forall k :: n < k < |windows| ==> Get(after, windows[k].key) == Get(counters, windows[k].key))
  {
    var n := FirstOver(counters, windows, now);
    var reached := windows[..n + 1];
    BumpsOnce(counters, reached, now);
    assert reached[n] == windows[n];
    assert Get(BumpEach(counters, reached, now), windows[n].key).Some?;
    forall k | n < k < |windows|
      ensures forall i :: 0 <= i < |reached| && reached[i].limit > 0 ==> reached[i].key != windows[k].key
    {
      assert forall i :: 0 <= i < |reached| ==> reached[i] == windows[i];
    }
  }

  /** One turn of the loop: the window is judged and bumped as if it were alone. */
  lemma LoopTurn<K(!new)>(before: map<K, Counter>, windows: seq<Win<K>>, i: nat, now: int)
    requires DistinctKeys(windows) && i < |windows|
    ensures var mid, w := BumpEach(before, windows[..i], now), windows[i];
            && BumpEach(before, windows[..i + 1], now) == (if w.limit > 0 then Bump(mid, w, now) else mid)
            && (w.limit > 0 ==> Over(mid, w, now) == Over(before, w, now))
  {
    assert windows[..i + 1][..i] == windows[..i];
    assert windows[..i + 1] == windows[..i] + [windows[i]];
    BumpsOnce(before, windows[..i], now);
    BumpedOnceSnoc(before, BumpEach(before, windows[..i], now), windows[..i], windows[i], now);
  }

  class CounterStore<K(==, !new)> {
    var counters: map<K, Counter>

    constructor ()
      ensures counters == map[]
    {
      counters := map[];
    }

    method BumpWindow(w: Win<K>, now: int) returns (allowed: bool)
      modifies this
      ensures counters == Bump(old(counters), w, now)
      ensures allowed == !Over(old(counters), w, now)
    {
      var current := 1;
      if w.key in counters && now < counters[w.key].expiresAt {
        current := counters[w.key].count + 1;
        counters := counters[w.key := Counter(current, counters[w.key].expiresAt)];
      } else {
        counters := counters[w.key := Counter(1, now + w.ttl)];
      }
      return current <= w.limit;
    }

    /** The loop; `denied` is the place of the window that refused. */
    method BumpAll(windows: seq<Win<K>>, now: int) returns (denied: Option<nat>)
      requires DistinctKeys(windows)
      modifies this
      ensures counters == BumpEach(old(counters), Reached(old(counters), windows, now), now)
      ensures var n := FirstOver(old(counters), windows, now);
              denied == if n < |windows| then Some(n) else None
    {
      ghost var before := counters;
      var i := 0;
      while i < |windows|
        invariant 0 <= i <= |windows|
        invariant counters == BumpEach(before, windows[..i], now)
        invariant forall k :: 0 <= k < i && windows[k].limit > 0 ==> !Over(before, windows[k], now)
      {
        LoopTurn(before, windows, i, now);
        if windows[i].limit > 0 {
          var allowed := BumpWindow(windows[i], now);
          if !allowed {
            FirstOverIs(before, windows, now, i);
            return Some(i);
          }
        }
        i := i + 1;
      }
      assert windows[..i] == windows;
      FirstOverIs(before, windows, now, |windows|);
      return None;
    }
  }

  lemma FirstOverIs<K>(counters: map<K, Counter>, windows: seq<Win<K>>, now: int, n: nat)
    requires n <= |windows|
    requires n < |windows| ==> windows[n].limit > 0 && Over(counters, windows[n], now)
    requires forall i :: 0 <= i < n ==> windows[i].limit > 0 ==> !Over(counters, windows[i], now)
    ensures FirstOver(counters, windows, now) == n
  {
    var m := FirstOver(counters, windows, now);
  }

  // --- A counter as a fixed window -----------------------------------------------

  function WindowOf(c: Option<Counter>, ttl: int): Window {
    match c
    case None => Closed
    case Some(k) => Open(k.expiresAt - ttl, k.count)
  }

  lemma BumpIsHit(c: Option<Counter>, ttl: int, now: int)
    ensures WindowOf(Some(Bumped(c, ttl, now)), ttl) == Hit(ttl, WindowOf(c, ttl), now)
  {}

  // --- Watching one counter over a run --------------------------------------------

  /** What one call did to the watched counter, and whether the call went through and counts there. */
  datatype Observation = Observation(now: int, before: Option<Counter>, after: Option<Counter>, passed: bool)

  /** Nothing or one bump; and a call that went through was bumped within the limit. */
  predicate Fits(ttl: int, limit: nat, o: Observation) {
    && (o.after == o.before || o.after == Some(Bumped(o.before, ttl, o.now)))
    && (o.passed ==> o.after != o.before && o.after.Some? && o.after.value.count <= limit)
  }

  predicate Chained(c: Option<Counter>, seen: seq<Observation>)
    decreases |seen|
  {
    seen == [] || (seen[0].before == c && Chained(seen[0].after, seen[1..]))
  }

  ghost predicate Watched(ttl: int, limit: nat, c: Option<Counter>, seen: seq<Observation>) {
    Chained(c, seen) && forall i :: 0 <= i < |seen| ==> Fits(ttl, limit, seen[i])
  }

  lemma WatchedCons(ttl: int, limit: nat, o: Observation, seen: seq<Observation>)
    requires Fits(ttl, limit, o) && Watched(ttl, limit, o.after, seen)
    ensures Watched(ttl, limit, o.before, [o] + seen)
  {
    assert ([o] + seen)[1..] == seen;
  }

  ghost predicate InOrder(seen: seq<Observation>) {
    forall i, k :: 0 <= i <= k < |seen| ==> seen[i].now <= seen[k].now
  }

  /** Calls in [a, b) that went through. */
  function PassedIn(seen: seq<Observation>, a: int, b: int): nat
    decreases |seen|
  {
    if seen == [] then 0 else (if a <= seen[0].now < b && seen[0].passed then 1 else 0) + PassedIn(seen[1..], a, b)
  }

  /** The times at which the counter was bumped. */
  function Hits(seen: seq<Observation>): seq<int>
    decreases |seen|
  {
    if seen == [] then [] else Prepend(seen[0].after != seen[0].before, seen[0].now, Hits(seen[1..]))
  }

  lemma {:induction false} HitsInOrder(seen: seq<Observation>)
    requires InOrder(seen)
    ensures Nondecreasing(Hits(seen)) && forall t :: t in Hits(seen) && seen != [] ==> seen[0].now <= t
    decreases |seen|
  {
    if seen == [] {
    } else {
      HitsInOrder(seen[1..]);
      if seen[1..] == [] {
        assert Hits(seen[1..]) == [];
      }
      PrependInOrder(seen[0].after != seen[0].before, seen[0].now, Hits(seen[1..]));
    }
  }

  lemma {:induction false} PassedAreAdmitted(ttl: int, limit: nat, c: Option<Counter>, seen: seq<Observation>, a: int,
                                             b: int)
    requires Watched(ttl, limit, c, seen)
    ensures PassedIn(seen, a, b) <= Admitted(ttl, limit, WindowOf(c, ttl), Hits(seen), a, b)
    decreases |seen|
  {
    if seen == [] {
    } else {
      var o, rest := seen[0], Hits(seen[1..]);
      assert Fits(ttl, limit, o);
      PassedAreAdmitted(ttl, limit, o.after, seen[1..], a, b);
      if o.after != o.before {
        BumpIsHit(o.before, ttl, o.now);
        assert ([o.now] + rest)[1..] == rest;
      }
    }
  }

  /** At most 2 * limit - 1 calls that count on a counter go through in any interval of its window's length. */
  lemma PassedBound(ttl: int, limit: nat, seen: seq<Observation>, a: int, b: int)
    requires limit >= 1 && b - a <= ttl && Watched(ttl, limit, None, seen) && InOrder(seen)
    ensures PassedIn(seen, a, b) <= 2 * limit - 1
  {
    PassedAreAdmitted(ttl, limit, None, seen, a, b);
    HitsInOrder(seen);
    SlidingBound(ttl, limit, Hits(seen), a, b);
  }
}
