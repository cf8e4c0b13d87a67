/**
 * A fixed window counter: the first hit opens a window of `len` milliseconds, later
 * hits in it are counted, and a hit is admitted while the count is at most `limit`.
 * The Redis counters and the in-memory fallback are all instances.
 */
module FixedWindow {
  datatype Window = Closed | Open(start: int, count: nat)

  function Hit(len: int, w: Window, t: int): Window {
    if w.Open? && t < w.start + len then Open(w.start, w.count + 1) else Open(t, 1)
  }

  predicate Admits(len: int, limit: nat, w: Window, t: int) { Hit(len, w, t).count <= limit }

  function After(len: int, w: Window, times: seq<int>): Window
    decreases |times|
  {
    if times == [] then w else After(len, Hit(len, w, times[0]), times[1..])
  }

  /** How many hits of the trace fall in [a, b) and are admitted, starting from window `w`. */
  function Admitted(len: int, limit: nat, w: Window, times: seq<int>, a: int, b: int): nat
    decreases |times|
  {
    if times == [] then 0
    else
      (if a <= times[0] < b && Admits(len, limit, w, times[0]) then 1 else 0)
      + Admitted(len, limit, Hit(len, w, times[0]), times[1..], a, b)
  }

  ghost predicate Nondecreasing(times: seq<int>) {
    forall i, k :: 0 <= i <= k < |times| ==> times[i] <= times[k]
  }

  /** A time in front of a trace, if it counts. */
  function Prepend(counts: bool, t: int, rest: seq<int>): seq<int> { if counts then [t] + rest else rest }

  lemma PrependInOrder(counts: bool, t: int, rest: seq<int>)
    requires Nondecreasing(rest) && forall x :: x in rest ==> t <= x
    ensures Nondecreasing(Prepend(counts, t, rest)) && forall x :: x in Prepend(counts, t, rest) ==> t <= x
  {
    assert forall i :: 0 <= i < |rest| ==> rest[i] in rest;
  }

  /** The trace can follow a state whose window opened at `start`. */
  ghost predicate From(start: int, times: seq<int>) {
    Nondecreasing(times) && forall i :: 0 <= i < |times| ==> start <= times[i]
  }

  lemma Tail(start: int, times: seq<int>)
    requires From(start, times) && times != []
    ensures From(times[0], times[1..]) && From(start, times[1..])
  {}

  // --- Upper bounds -----------------------------------------------------------

  /** With the current window opened no earlier than b - len, only what is left of it can be admitted. */
  lemma {:induction false} LastWindow(len: int, limit: nat, w: Window, times: seq<int>, a: int, b: int)
    requires w.Open? && w.start + len >= b && w.count >= 1 && From(w.start, times)
    ensures Admitted(len, limit, w, times, a, b) + w.count <= if w.count <= limit then limit else w.count
    decreases |times|
  {
    if times == [] {
    } else {
      var next := Hit(len, w, times[0]);
      Tail(w.start, times);
      if times[0] < w.start + len {
        LastWindow(len, limit, next, times[1..], a, b);
      } else {
        NoneAfter(len, limit, next, times[1..], a, b);
      }
    }
  }

  lemma {:induction false} NoneAfter(len: int, limit: nat, w: Window, times: seq<int>, a: int, b: int)
    requires From(b, times)
    ensures Admitted(len, limit, w, times, a, b) == 0
    decreases |times|
  {
    if times == [] {
    } else {
      NoneAfter(len, limit, Hit(len, w, times[0]), times[1..], a, b);
    }
  }

  function Left(limit: nat, w: Window): nat
    requires w.Open?
  {
    if w.count <= limit then limit - w.count else 0
  }

  /** In an interval no longer than a window: the rest of the current window and one more. */
  lemma {:induction false} TwoWindows(len: int, limit: nat, w: Window, times: seq<int>, a: int, b: int)
    requires limit >= 1 && b - a <= len && w.Open? && w.count >= 1
    requires From(w.start, times) && From(a, times)
    ensures Admitted(len, limit, w, times, a, b) <= Left(limit, w) + limit
    decreases |times|
  {
    if times == [] {
    } else {
      var next := Hit(len, w, times[0]);
      Tail(w.start, times);
      Tail(a, times);
      if times[0] < w.start + len {
        TwoWindows(len, limit, next, times[1..], a, b);
      } else {
        LastWindow(len, limit, next, times[1..], a, b);
      }
    }
  }

  lemma {:induction false} SlidingBoundFrom(len: int, limit: nat, w: Window, times: seq<int>, a: int, b: int)
    requires limit >= 1 && b - a <= len && w.Open? && w.count >= 1 && w.start < a
    requires From(w.start, times)
    ensures Admitted(len, limit, w, times, a, b) <= 2 * limit - 1
    decreases |times|
  {
    if times == [] {
    } else {
      if times[0] >= a {
        TwoWindows(len, limit, w, times, a, b);
      } else {
        Tail(w.start, times);
        SlidingBoundFrom(len, limit, Hit(len, w, times[0]), times[1..], a, b);
      }
    }
  }

  /** In any half-open interval no longer than the window, at most 2 * limit - 1 hits are admitted. */
  lemma SlidingBound(len: int, limit: nat, times: seq<int>, a: int, b: int)
    requires limit >= 1 && b - a <= len && Nondecreasing(times)
    ensures Admitted(len, limit, Closed, times, a, b) <= 2 * limit - 1
  {
    if times != [] {
      var next := Hit(len, Closed, times[0]);
      assert From(times[0], times);
      Tail(times[0], times);
      if times[0] < a {
        SlidingBoundFrom(len, limit, next, times[1..], a, b);
      } else {
        LastWindow(len, limit, next, times[1..], a, b);
      }
    }
  }

  /** In the interval of one window, counted from the hit that opens it, at most `limit` are admitted. */
  lemma WindowBound(len: int, limit: nat, w: Window, times: seq<int>)
    requires limit >= 1 && times != [] && Nondecreasing(times)
    requires w.Open? ==> times[0] >= w.start + len
    ensures Admitted(len, limit, w, times, times[0], times[0] + len) <= limit
  {
    assert From(times[0], times);
    Tail(times[0], times);
    LastWindow(len, limit, Hit(len, w, times[0]), times[1..], times[0], times[0] + len);
  }

  // --- The bound is reached ------------------------------------------------------

  function Repeat(t: int, n: nat): seq<int> { seq(n, i => t) }

  lemma {:induction false} RepeatAdmitted(len: int, limit: nat, w: Window, t: int, n: nat, rest: seq<int>, a: int,
                                          b: int)
    requires w.Open? && w.start <= t < w.start + len && w.count + n <= limit && a <= t < b
    ensures Admitted(len, limit, w, Repeat(t, n) + rest, a, b)
         == n + Admitted(len, limit, Open(w.start, w.count + n), rest, a, b)
    decreases n
  {
    if n == 0 {
      assert Repeat(t, n) + rest == rest;
    } else {
      assert (Repeat(t, n) + rest)[1..] == Repeat(t, n - 1) + rest;
      RepeatAdmitted(len, limit, Hit(len, w, t), t, n - 1, rest, a, b);
    }
  }

  /** One early hit, the rest of the window just after it, and a whole new window: 2 * limit - 1 in one length. */
  lemma SlidingBoundReached(len: int, limit: nat)
    requires len >= 2 && limit >= 1
    ensures var times := [0] + (Repeat(1, limit - 1) + Repeat(len, limit));
            Nondecreasing(times) && Admitted(len, limit, Closed, times, 1, 1 + len) == 2 * limit - 1
  {
    var last := Repeat(len, limit);
    var times := [0] + (Repeat(1, limit - 1) + last);
    assert times[0] == 0 && times[1..] == Repeat(1, limit - 1) + last;
    RepeatAdmitted(len, limit, Open(0, 1), 1, limit - 1, last, 1, 1 + len);
    SecondWindow(len, limit);
  }

  lemma SecondWindow(len: int, limit: nat)
    requires len >= 2 && limit >= 1
    ensures Admitted(len, limit, Open(0, limit), Repeat(len, limit), 1, 1 + len) == limit
  {
    var last := Repeat(len, limit);
    assert last[0] == len && last[1..] == Repeat(len, limit - 1) + [];
    RepeatAdmitted(len, limit, Open(len, 1), len, limit - 1, [], 1, 1 + len);
    assert Hit(len, Open(0, limit), len) == Open(len, 1);
  }

  // --- No hit is refused without cause ----------------------------------------------

  lemma {:induction false} AdmittedSnoc(len: int, limit: nat, w: Window, times: seq<int>, t: int, a: int, b: int)
    ensures Admitted(len, limit, w, times + [t], a, b)
         == Admitted(len, limit, w, times, a, b)
            + if a <= t < b && Admits(len, limit, After(len, w, times), t) then 1 else 0
    ensures After(len, w, times + [t]) == Hit(len, After(len, w, times), t)
    decreases |times|
  {
    if times == [] {
      assert ([] + [t])[1..] == [];
    } else {
      assert (times + [t])[0] == times[0] && (times + [t])[1..] == times[1..] + [t];
      AdmittedSnoc(len, limit, Hit(len, w, times[0]), times[1..], t, a, b);
    }
  }

  /** The open window has admitted its first `limit` hits, all since it opened. */
  lemma {:induction false} OpenWindowAdmitted(len: int, limit: nat, times: seq<int>, b: int)
    requires Nondecreasing(times) && times != [] && times[|times| - 1] < b && len >= 1
    ensures var w := After(len, Closed, times);
            && w.Open? && w.start <= times[|times| - 1] < w.start + len && w.count >= 1
            && Admitted(len, limit, Closed, times, w.start, b) >= if w.count <= limit then w.count else limit
    decreases |times|
  {
    var init, t := times[..|times| - 1], times[|times| - 1];
    assert times == init + [t];
    var w := After(len, Closed, times);
    AdmittedSnoc(len, limit, Closed, init, t, t, b);
    if init == [] {
    } else {
      OpenWindowAdmitted(len, limit, init, b);
      AdmittedSnoc(len, limit, Closed, init, t, After(len, Closed, init).start, b);
    }
  }

  /** A refused hit at t comes after `limit` admitted ones less than a window earlier. */
  lemma RefusalJustified(len: int, limit: nat, times: seq<int>, t: int)
    requires len >= 1 && limit >= 1 && Nondecreasing(times + [t])
    requires !Admits(len, limit, After(len, Closed, times), t)
    ensures Admitted(len, limit, Closed, times, After(len, Closed, times).start, t + 1) >= limit
    ensures t - len < After(len, Closed, times).start <= t
  {
    assert forall i :: 0 <= i < |times| ==> times[i] == (times + [t])[i] && (times + [t])[|times|] == t;
    assert times != [];
    OpenWindowAdmitted(len, limit, times, t + 1);
  }
}
