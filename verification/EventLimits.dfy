/**
 * The rate limit in front of the external communication events
 * (`enforceClientEventRateLimit`, src/modules/communication/events.service.ts), with Redis up
 * and the limit switched on.
 */
module EventLimits {
  import opened Common
  import opened FixedWindow
  import opened WindowLoop

  datatype Span = Quarter | Hour | Day

  datatype Key = Key(clientId: string, event: string, span: Span)

  function TtlOf(span: Span): int {
    match span case Quarter => 900_000 case Hour => 3_600_000 case Day => 86_400_000
  }

  function LimitOf(span: Span): nat {
    match span case Quarter => 20 case Hour => 100 case Day => 500
  }

  datatype Call = Call(clientId: string, event: string, now: int)

  function WinOf(c: Call, span: Span): Win<Key> { Win(Key(c.clientId, c.event, span), TtlOf(span), LimitOf(span)) }

  function Windows(c: Call): seq<Win<Key>> { [WinOf(c, Quarter), WinOf(c, Hour), WinOf(c, Day)] }

  /** The counters afterwards, and whether the call goes through. */
  function Enforce(counters: map<Key, Counter>, c: Call): (map<Key, Counter>, bool) {
    (BumpEach(counters, Reached(counters, Windows(c), c.now), c.now), FirstOver(counters, Windows(c), c.now) == 3)
  }

  class EventLimiter {
    const store: CounterStore<Key>

    constructor ()
      ensures fresh(store) && store.counters == map[]
    {
      store := new CounterStore<Key>();
    }

    method EnforceClientEventRateLimit(clientId: string, event: string, now: int) returns (ok: bool)
      modifies store
      ensures (store.counters, ok) == Enforce(old(store.counters), Call(clientId, event, now))
    {
      var denied := store.BumpAll(Windows(Call(clientId, event, now)), now);
      ok := denied.None?;
    }
  }

  predicate Uses(c: Call, key: Key) { c.clientId == key.clientId && c.event == key.event }

  /** What a run of calls does to the counter of `key`. */
  function Watch(counters: map<Key, Counter>, calls: seq<Call>, key: Key): seq<Observation>
    decreases |calls|
  {
    if calls == [] then []
    else
      var c, (next, ok) := calls[0], Enforce(counters, calls[0]);
      [Observation(c.now, Get(counters, key), Get(next, key), ok && Uses(c, key))] + Watch(next, calls[1..], key)
  }

  ghost predicate CallsInOrder(calls: seq<Call>) {
    forall i, k :: 0 <= i <= k < |calls| ==> calls[i].now <= calls[k].now
  }

  /** A call changes a counter only as a hit of its window; one that goes through was admitted by all three. */
  lemma EnforceFits(counters: map<Key, Counter>, c: Call, key: Key)
    ensures var (next, ok) := Enforce(counters, c);
            Fits(TtlOf(key.span), LimitOf(key.span),
                 Observation(c.now, Get(counters, key), Get(next, key), ok && Uses(c, key)))
  {
    var windows, i := Windows(c), match key.span case Quarter => 0 case Hour => 1 case Day => 2;
    LoopOnKey(counters, windows, c.now, key);
    if Uses(c, key) && FirstOver(counters, windows, c.now) == 3 {
      assert windows[i].key == key;
      LoopPassed(counters, windows, c.now, i);
    }
  }

  lemma {:induction false} RunWatched(counters: map<Key, Counter>, calls: seq<Call>, key: Key)
    ensures var seen := Watch(counters, calls, key);
            && Watched(TtlOf(key.span), LimitOf(key.span), Get(counters, key), seen)
            && |seen| == |calls| && forall i :: 0 <= i < |seen| ==> seen[i].now == calls[i].now
    decreases |calls|
  {
    if calls == [] {
    } else {
      var next := Enforce(counters, calls[0]).0;
      EnforceFits(counters, calls[0], key);
      RunWatched(next, calls[1..], key);
      WatchedCons(TtlOf(key.span), LimitOf(key.span), Watch(counters, calls, key)[0], Watch(next, calls[1..], key));
    }
  }

  /** One client gets at most 39 submissions of an event through in any 15 minutes, 199 in any hour, 999 in any day. */
  lemma EventBound(calls: seq<Call>, key: Key, a: int, b: int)
    requires CallsInOrder(calls)
    requires b - a <= match key.span case Quarter => 15 * 60_000 case Hour => 60 * 60_000 case Day => 24 * 60 * 60_000
    ensures PassedIn(Watch(map[], calls, key), a, b)
        <= match key.span case Quarter => 39 case Hour => 199 case Day => 999
  {
    RunWatched(map[], calls, key);
    PassedBound(TtlOf(key.span), LimitOf(key.span), Watch(map[], calls, key), a, b);
  }

  /** The window has room for one more: it is over, or has counted fewer than its limit. */
  predicate Room(counters: map<Key, Counter>, c: Call, span: Span, limit: nat) {
    var key := Key(c.clientId, c.event, span);
    key in counters && c.now < counters[key].expiresAt ==> counters[key].count < limit
  }

  /** The window has counted the call, and lasts the given number of minutes from the call that opened it. */
  predicate Counted(before: map<Key, Counter>, after: map<Key, Counter>, c: Call, span: Span, minutes: int) {
    var key := Key(c.clientId, c.event, span);
    && key in after
    && after[key] == if key in before && c.now < before[key].expiresAt
                     then Counter(before[key].count + 1, before[key].expiresAt)
                     else Counter(1, c.now + minutes * 60_000)
  }

  /** A submission goes through exactly if each of the three windows has room, and then each has counted it. */
  lemma EventDecided(counters: map<Key, Counter>, c: Call)
    ensures var (after, ok) := Enforce(counters, c);
            && (ok <==> Room(counters, c, Quarter, 20) && Room(counters, c, Hour, 100) && Room(counters, c, Day, 500))
            && (ok ==> Counted(counters, after, c, Quarter, 15) && Counted(counters, after, c, Hour, 60)
                       && Counted(counters, after, c, Day, 1440))
  {
    var windows := Windows(c);
    assert windows[0] == WinOf(c, Quarter) && windows[1] == WinOf(c, Hour) && windows[2] == WinOf(c, Day);
    var n := FirstOver(counters, windows, c.now);
    BumpsOnce(counters, windows, c.now);
    if n == 3 {
      assert !Over(counters, windows[0], c.now) && !Over(counters, windows[1], c.now)
          && !Over(counters, windows[2], c.now);
    }
  }

  /** A refused submission has still been counted by each window up to the first without room, and no further. */
  lemma EventRefused(counters: map<Key, Counter>, c: Call)
    requires !Enforce(counters, c).1
    ensures var after := Enforce(counters, c).0;
            && Counted(counters, after, c, Quarter, 15)
            && (if Room(counters, c, Quarter, 20) then Counted(counters, after, c, Hour, 60)
                else Get(after, Key(c.clientId, c.event, Hour)) == Get(counters, Key(c.clientId, c.event, Hour)))
            && (if Room(counters, c, Quarter, 20) && Room(counters, c, Hour, 100)
                then Counted(counters, after, c, Day, 1440)
                else Get(after, Key(c.clientId, c.event, Day)) == Get(counters, Key(c.clientId, c.event, Day)))
  {
    var windows := Windows(c);
    assert windows[0] == WinOf(c, Quarter) && windows[1] == WinOf(c, Hour) && windows[2] == WinOf(c, Day);
    var n := FirstOver(counters, windows, c.now);
    var reached := windows[..n + 1];
    LoopRefused(counters, windows, c.now);
    assert reached[0] == windows[0] && (n >= 1 ==> reached[1] == windows[1]) && (n >= 2 ==> reached[2] == windows[2]);
    assert n >= 1 ==> !Over(counters, windows[0], c.now);
    assert n >= 2 ==> !Over(counters, windows[1], c.now);
  }
}
