/**
 * How long a dedupe lock swallows its payload (src/lib/communicationQueue.ts): until its deadline or
 * until a job of the payload is acknowledged, whichever comes first.
 */
module DedupeLocks {
  import opened Common
  import opened CommunicationQueue
  import opened SingleWorker

  /** The lock taken when job `id` was pushed is still there. */
  predicate Stands(y: System, key: DedupeKey, id: string, until: int) {
    key in y.store.dedupe && y.store.dedupe[key] == Lock(id, until)
  }

  /** The step acknowledges a job of this payload. */
  predicate Frees(y: System, st: Step, key: DedupeKey) {
    st.action.Finish? && st.action.outcome.Delivered? && y.held.Some? && y.held.value.dedupeKey == key
  }

  ghost predicate NeverFreed(y: System, steps: seq<Step>, key: DedupeKey)
    decreases |steps|
  {
    steps == [] || (!Frees(y, steps[0], key) && NeverFreed(Next(y, steps[0]), steps[1..], key))
  }

  lemma StandsStep(y: System, st: Step, key: DedupeKey, id: string, until: int)
    requires Enabled(y, st) && id in y.log.pushed && st.now < until
    ensures id in Next(y, st).log.pushed
    ensures Stands(Next(y, st), key, id, until) <==> Stands(y, key, id, until) && !Frees(y, st, key)
  {
    match st.action
    case Finish(outcome) => HandleDedupe(y.store, y.held.value, outcome, st.now);
    case _ =>
  }

  lemma HandleDedupe(s: Store, job: Job, outcome: Outcome, now: int)
    ensures Handle(s, job, outcome, now).dedupe == if outcome.Delivered? then s.dedupe - {job.dedupeKey} else s.dedupe
  {}

  lemma {:induction false} ClockRuns(y: System, steps: seq<Step>)
    requires Legal(y, steps)
    ensures y.clock <= Run(y, steps).clock
    decreases |steps|
  {
    if steps == [] {
    } else {
      ClockRuns(Next(y, steps[0]), steps[1..]);
    }
  }

  lemma {:induction false} StandsFrom(y: System, steps: seq<Step>, key: DedupeKey, id: string, until: int)
    requires Legal(y, steps) && id in y.log.pushed && Run(y, steps).clock < until
    ensures Stands(Run(y, steps), key, id, until) <==> Stands(y, key, id, until) && NeverFreed(y, steps, key)
    decreases |steps|
  {
    if steps == [] {
    } else {
      ClockRuns(Next(y, steps[0]), steps[1..]);
      assert Next(y, steps[0]).clock == steps[0].now;
      StandsStep(y, steps[0], key, id, until);
      StandsFrom(Next(y, steps[0]), steps[1..], key, id, until);
    }
  }

  function KeyOf(st: Step): DedupeKey
    requires st.action.Push?
  {
    DedupeKey(st.action.req.jobType, st.action.req.digest)
  }

  /** The push is not answered as a duplicate: it brings its job into the queue. */
  predicate Accepted(y: System, st: Step) { st.action.Push? && st.action.id in Next(y, st).log.pushed }

  /** What an accepted push does: one more entry at the left, and a lock of its own for `ttl`. */
  lemma AcceptedTakesLock(y: System, st: Step)
    requires Enabled(y, st) && Accepted(y, st)
    ensures var z := Next(y, st);
            && Stands(z, KeyOf(st), st.action.id, st.now + st.action.ttl) && z.clock == st.now
            && |z.store.queue| == |y.store.queue| + 1 && z.store.queue[1..] == y.store.queue
  {}

  /**
   * From an accepted push on, and before its deadline: the lock stands if and only if no job of the payload has
   * been acknowledged; and while it stands every push of the payload changes nothing.
   */
  lemma SwallowsUntil(before: seq<Step>, push: Step, after: seq<Step>, again: Step)
    requires Legal(START, before + [push] + after + [again]) && push.action.Push? && again.action.Push?
    requires Accepted(Run(START, before), push) && KeyOf(again) == KeyOf(push)
    requires again.now < push.now + push.action.ttl
    ensures var y, z := Run(START, before + [push]), Run(START, before + [push] + after);
            && (Stands(z, KeyOf(push), push.action.id, push.now + push.action.ttl)
                <==> NeverFreed(y, after, KeyOf(push)))
            && (NeverFreed(y, after, KeyOf(push)) ==>
                  Run(START, before + [push] + after + [again]) == z.(clock := again.now))
  {
    var y := Run(START, before + [push]);
    LegalConcat(START, before + [push] + after, [again]);
    LegalConcat(START, before + [push], after);
    LegalConcat(START, before, [push]);
    RunSnoc(START, before, push);
    RunSnoc(START, before + [push] + after, again);
    AcceptedTakesLock(Run(START, before), push);
    StandsFrom(y, after, KeyOf(push), push.action.id, push.now + push.action.ttl);
  }

  /** From its deadline on a lock that still stands swallows nothing. */
  lemma AcceptedAfterwards(y: System, again: Step, id: string, until: int)
    requires Enabled(y, again) && again.action.Push? && Stands(y, KeyOf(again), id, until)
    ensures Accepted(y, again) <==> again.now >= until
  {}

  // --- While its own job is unacknowledged ---------------------------------------------------------

  lemma {:induction false} AckedStays(y: System, steps: seq<Step>, id: string)
    ensures id in y.log.acked ==> id in Run(y, steps).log.acked
    decreases |steps|
  {
    if steps == [] {
    } else {
      AckedStays(Next(y, steps[0]), steps[1..], id);
    }
  }

  lemma {:induction false} FreedByItsOwn(y: System, steps: seq<Step>, key: DedupeKey, id: string)
    requires Inv(y) && OnePerKey(y) && Legal(y, steps) && NoLapse(y, steps)
    requires id in y.log.pushed && y.log.pushed[id].dedupeKey == key && id !in Run(y, steps).log.acked
    ensures NeverFreed(y, steps, key)
    decreases |steps|
  {
    if steps == [] {
    } else {
      var z := Next(y, steps[0]);
      AckedStays(y, steps, id);
      AckedStays(z, steps[1..], id);
      OwnStep(y, steps[0], key, id);
      OnePerKeyStep(y, steps[0]);
      InvNext(y, steps[0]);
      FreedByItsOwn(z, steps[1..], key, id);
    }
  }

  lemma OwnStep(y: System, st: Step, key: DedupeKey, id: string)
    requires Inv(y) && OnePerKey(y) && Enabled(y, st) && Open(y, id) && y.log.pushed[id].dedupeKey == key
    ensures id in Next(y, st).log.pushed && Next(y, st).log.pushed[id] == y.log.pushed[id]
    ensures Frees(y, st, key) ==> id in Next(y, st).log.acked
  {
    if Frees(y, st, key) {
      HeldIsOpen(y);
    }
  }

  lemma {:induction false} NoLapseConcat(y: System, a: seq<Step>, b: seq<Step>)
    requires NoLapse(y, a + b)
    ensures NoLapse(y, a) && NoLapse(Run(y, a), b)
    decreases |a|
  {
    if a == [] {
      assert a + b == b;
    } else {
      assert (a + b)[0] == a[0] && (a + b)[1..] == a[1..] + b;
      NoLapseConcat(Next(y, a[0]), a[1..], b);
    }
  }

  lemma {:induction false} OnePerKeyRun(y: System, steps: seq<Step>)
    requires Inv(y) && OnePerKey(y) && Legal(y, steps) && NoLapse(y, steps)
    ensures OnePerKey(Run(y, steps))
    decreases |steps|
  {
    if steps == [] {
    } else {
      OnePerKeyStep(y, steps[0]);
      InvNext(y, steps[0]);
      OnePerKeyRun(Next(y, steps[0]), steps[1..]);
    }
  }

  /**
   * In a run without a lapse every push of the payload before the deadline is swallowed until the job itself is
   * acknowledged.
   */
  lemma SwallowsItsJob(before: seq<Step>, push: Step, after: seq<Step>, again: Step)
    requires Legal(START, before + [push] + after + [again]) && push.action.Push? && again.action.Push?
    requires Accepted(Run(START, before), push) && KeyOf(again) == KeyOf(push)
    requires again.now < push.now + push.action.ttl && NoLapse(START, before + [push] + after)
    requires push.action.id !in Run(START, before + [push] + after).log.acked
    ensures Run(START, before + [push] + after + [again]) == Run(START, before + [push] + after).(clock := again.now)
  {
    var y := Run(START, before + [push]);
    LegalConcat(START, before + [push] + after, [again]);
    LegalConcat(START, before + [push], after);
    LegalConcat(START, before, [push]);
    RunSnoc(START, before, push);
    NoLapseConcat(START, before + [push], after);
    StartInv();
    InvRun(START, before + [push]);
    OnePerKeyRun(START, before + [push]);
    FreedByItsOwn(y, after, KeyOf(push), push.action.id);
    SwallowsUntil(before, push, after, again);
  }

  /**
   * After a lapse it is not so: the older job of the payload is acknowledged and takes the lock of the newer one with
   * it, so a third push is accepted long before the deadline, the second job being still open.
   */
  lemma FreedByAnother(req: Request)
    ensures var steps := [Step(0, Push(req, "a", 1)), Step(0, ReserveNext), Step(1, Push(req, "b", 1000)),
                          Step(2, Finish(Delivered))];
            && Legal(START, steps) && Open(Run(START, steps), "b")
            && Accepted(Run(START, steps), Step(3, Push(req, "c", 1000)))
  {
    var a, b := Step(0, Push(req, "a", 1)), Step(0, ReserveNext);
    var c, d := Step(1, Push(req, "b", 1000)), Step(2, Finish(Delivered));
    var y1 := Next(START, a);
    assert y1.store.queue == [NewJob(req, "a", 0)];
    var y2 := Next(y1, b);
    assert y2.held == Some(NewJob(req, "a", 0));
    var y3 := Next(y2, c);
    var y4 := Next(y3, d);
    Unfold(y3, d, []);
    Unfold(y2, c, [d]);
    Unfold(y1, b, [c, d]);
    Unfold(START, a, [b, c, d]);
    assert [a] + [b, c, d] == [a, b, c, d] && [b] + [c, d] == [b, c, d] && [c] + [d] == [c, d] && [d] + [] == [d];
    assert Open(y4, "b") && y4.store.dedupe == map[];
  }
}
