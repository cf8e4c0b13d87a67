/**
 * The worker process (src/workers/communication.worker.ts): `handleJob` and the
 * order of calls in `loop`.  One `Tick` is one pass of the loop: the clock read by
 * each call and, should a job be reserved, what delivering it does.  The pass is
 * proved to be a piece of a single-worker run, so everything said about those runs
 * holds of the loop.
 */
module CommunicationWorker {
  import opened Common
  import opened CommunicationQueue
  import opened SingleWorker

  datatype Tick = Tick(promoteAt: int, recoverAt: int, reserveAt: int, finishAt: int, outcome: Outcome)

  predicate InOrder(clock: int, t: Tick) {
    clock <= t.promoteAt <= t.recoverAt <= t.reserveAt <= t.finishAt
  }

  /** Each pass starts after the clock and after the passes before it. */
  ghost predicate AllInOrder(clock: int, ticks: seq<Tick>) {
    && (forall i :: 0 <= i < |ticks| ==> InOrder(clock, ticks[i]))
    && (forall i, k :: 0 <= i < k < |ticks| ==> ticks[i].finishAt <= ticks[k].promoteAt)
  }

  /** The steps of one pass, given what promotion found due and whether a job was waiting. */
  function PassSteps(t: Tick, batch: seq<Job>, reserved: bool): seq<Step> {
    [Step(t.promoteAt, PromoteDue(batch)), Step(t.recoverAt, RecoverStalled(DEFAULT_STALE_AFTER_MS)),
     Step(t.reserveAt, ReserveNext)]
    + if reserved then [Step(t.finishAt, Finish(t.outcome))] else []
  }

  /** The state after the three calls every pass makes. */
  function Polled(y: System, t: Tick, batch: seq<Job>): System {
    Next(Next(Next(y, Step(t.promoteAt, PromoteDue(batch))), Step(t.recoverAt, RecoverStalled(DEFAULT_STALE_AFTER_MS))),
         Step(t.reserveAt, ReserveNext))
  }

  /** The state after a pass. */
  function Passed(y: System, t: Tick, batch: seq<Job>): System {
    var z := Polled(y, t, batch);
    if z.held.Some? then Next(z, Step(t.finishAt, Finish(t.outcome))) else z
  }

  /** A pass is a legal run that ends idle. */
  lemma PassIsRun(y: System, t: Tick, batch: seq<Job>)
    requires y.held == None && InOrder(y.clock, t) && IsDueBatch(y.store.delayed, t.promoteAt, batch)
    ensures var steps := PassSteps(t, batch, Polled(y, t, batch).held.Some?);
            Legal(y, steps) && Run(y, steps) == Passed(y, t, batch)
    ensures Passed(y, t, batch).held == None && Passed(y, t, batch).clock <= t.finishAt
  {
    var a, b, c, d := Step(t.promoteAt, PromoteDue(batch)), Step(t.recoverAt, RecoverStalled(DEFAULT_STALE_AFTER_MS)),
                      Step(t.reserveAt, ReserveNext), Step(t.finishAt, Finish(t.outcome));
    var y1 := Next(y, a);
    var y2 := Next(y1, b);
    var y3 := Next(y2, c);
    var last := if y3.held.Some? then [d] else [];
    if y3.held.Some? {
      Unfold(y3, d, []);
      assert [d] + [] == [d];
    }
    Unfold(y2, c, last);
    Unfold(y1, b, [c] + last);
    Unfold(y, a, [b] + ([c] + last));
    PassStepsAre(t, batch, y3.held.Some?, last);
  }

  lemma PassStepsAre(t: Tick, batch: seq<Job>, busy: bool, last: seq<Step>)
    requires last == if busy then [Step(t.finishAt, Finish(t.outcome))] else []
    ensures PassSteps(t, batch, busy)
         == [Step(t.promoteAt, PromoteDue(batch))] + ([Step(t.recoverAt, RecoverStalled(DEFAULT_STALE_AFTER_MS))]
            + ([Step(t.reserveAt, ReserveNext)] + last))
  {}

  /** The store after the three calls, and the job they hand over. */
  lemma PolledStore(y: System, t: Tick, batch: seq<Job>)
    requires y.held == None
    ensures var s := Recover(Promote(y.store, batch), t.recoverAt, DEFAULT_STALE_AFTER_MS);
            && Polled(y, t, batch).store == Reserve(s, t.reserveAt)
            && Polled(y, t, batch).held == if s.queue == [] then None else Some(s.queue[|s.queue| - 1])
  {}

  lemma PassedStore(y: System, t: Tick, batch: seq<Job>)
    ensures var z := Polled(y, t, batch);
            Passed(y, t, batch).store
            == if z.held.Some? then Handle(z.store, z.held.value, t.outcome, t.finishAt) else z.store
  {}

  /** A pass puts a crashed job back on the queue, or hands it out at once, exactly from five minutes to a day after. */
  lemma PassBringsBack(y: System, t: Tick, batch: seq<Job>, j: Job)
    requires Reachable(y) && y.held == None && InOrder(y.clock, t)
    requires IsDueBatch(y.store.delayed, t.promoteAt, batch) && j in y.store.processing && j.id in y.store.records
    ensures var z, r := Polled(y, t, batch), y.store.records[j.id];
            In(z, j, Waiting) || z.held == Some(j)
            <==> t.recoverAt - r.updatedAt >= 300_000 && t.recoverAt < r.expiresAt
  {
    ReachableInv(y);
    var a, b, c := Step(t.promoteAt, PromoteDue(batch)), Step(t.recoverAt, RecoverStalled(DEFAULT_STALE_AFTER_MS)),
                   Step(t.reserveAt, ReserveNext);
    var y1 := Next(y, a);
    ReachableNext(y, a);
    RecoveryExact(y1, b, j);
    InvNext(y, a);
    InvNext(y1, b);
    HandedOrWaiting(Next(y1, b), c, j);
  }

  lemma ReachableNext(y: System, st: Step)
    requires Reachable(y) && Enabled(y, st)
    ensures Reachable(Next(y, st))
  {
    var before :| Legal(START, before) && Run(START, before) == y;
    Unfold(y, st, []);
    assert [st] + [] == [st];
    RunConcat(START, before, [st]);
  }

  lemma HandedOrWaiting(y: System, st: Step, j: Job)
    requires Inv(y) && y.held == None && st.action.ReserveNext?
    ensures var z := Next(y, st); In(z, j, Waiting) || z.held == Some(j) <==> In(y, j, Waiting)
  {
    var queue := y.store.queue;
    if queue != [] {
      assert queue == queue[..|queue| - 1] + [queue[|queue| - 1]];
    }
  }

  class Worker {
    const redis: RedisQueue

    constructor (redis: RedisQueue)
      ensures this.redis == redis
    {
      this.redis := redis;
    }

    method HandleJob(job: Job, outcome: Outcome, now: int)
      modifies redis
      ensures redis.View() == Handle(old(redis.View()), job, outcome, now)
    {
      match outcome {
        case Delivered =>
          redis.AcknowledgeCommunicationJob(job, now);
        case Failed(message) =>
          if job.attempts + 1 < job.maxAttempts {
            redis.ScheduleCommunicationRetry(job, Backoff(job.attempts), Some(message), now);
          } else {
            redis.MoveCommunicationJobToDlq(job, message, now);
          }
      }
    }

    /** One pass of the loop. */
    method Pass(t: Tick, ghost y: System) returns (ghost batch: seq<Job>)
      requires y.store == redis.View() && y.held == None && InOrder(y.clock, t)
      modifies redis
      ensures IsDueBatch(y.store.delayed, t.promoteAt, batch)
      ensures redis.View() == Passed(y, t, batch).store
    {
      var promoted;
      promoted, batch := redis.PromoteDueCommunicationJobs(t.promoteAt);
      var recovered := redis.RecoverStalledCommunicationJobs(t.recoverAt, DEFAULT_STALE_AFTER_MS);
      var job := redis.ReserveNextCommunicationJob(t.reserveAt);
      PolledStore(y, t, batch);
      PassedStore(y, t, batch);
      if job.Some? {
        HandleJob(job.value, t.outcome, t.finishAt);
      }
    }

    /**
     * The loop until shutdown: `ticks` are the passes it makes while `running` holds, each of them once and in
     * order.
     */
    method Loop(ticks: seq<Tick>, ghost y: System) returns (ghost batches: seq<seq<Job>>)
      requires y.store == redis.View() && y.held == None && AllInOrder(y.clock, ticks)
      modifies redis
      ensures |batches| == |ticks| && AllDue(y, ticks, batches)
      ensures redis.View() == Looped(y, ticks, batches).store
    {
      batches := [];
      ghost var z := y;
      var i := 0;
      while i < |ticks|
        invariant 0 <= i <= |ticks| && |batches| == i
        invariant LoopedTo(y, ticks, i, batches, z) && redis.View() == z.store
      {
        Idle(y, ticks, i, batches, z);
        ghost var batch := Pass(ticks[i], z);
        LoopTurn(y, ticks, i, batches, z, batch);
        z := Passed(z, ticks[i], batch);
        batches := batches + [batch];
        i := i + 1;
      }
      assert ticks[..i] == ticks;
    }
  }

  /** The state after a number of passes. */
  ghost function Looped(y: System, ticks: seq<Tick>, batches: seq<seq<Job>>): System
    requires |batches| == |ticks|
  {
    if ticks == [] then y
    else
      var n := |ticks| - 1;
      Passed(Looped(y, ticks[..n], batches[..n]), ticks[n], batches[n])
  }

  /** Every pass promoted what was due at its time. */
  ghost predicate AllDue(y: System, ticks: seq<Tick>, batches: seq<seq<Job>>)
    requires |batches| == |ticks|
  {
    ticks == []
    || var n := |ticks| - 1;
       && AllDue(y, ticks[..n], batches[..n])
       && IsDueBatch(Looped(y, ticks[..n], batches[..n]).store.delayed, ticks[n].promoteAt, batches[n])
  }

  /** The loop has made its first i passes and stands at z. */
  ghost predicate LoopedTo(y: System, ticks: seq<Tick>, i: nat, batches: seq<seq<Job>>, z: System) {
    i == |batches| <= |ticks| && AllDue(y, ticks[..i], batches) && z == Looped(y, ticks[..i], batches)
  }

  lemma LoopTurn(y: System, ticks: seq<Tick>, i: nat, batches: seq<seq<Job>>, z: System, batch: seq<Job>)
    requires LoopedTo(y, ticks, i, batches, z) && i < |ticks| && IsDueBatch(z.store.delayed, ticks[i].promoteAt, batch)
    ensures LoopedTo(y, ticks, i + 1, batches + [batch], Passed(z, ticks[i], batch))
  {
    assert ticks[..i + 1][..i] == ticks[..i] && (batches + [batch])[..i] == batches;
  }

  /** Between two passes no job is in hand, and the clock has not passed the next one's start. */
  lemma Idle(y: System, ticks: seq<Tick>, i: nat, batches: seq<seq<Job>>, z: System)
    requires y.held == None && AllInOrder(y.clock, ticks) && LoopedTo(y, ticks, i, batches, z) && i < |ticks|
    ensures z.held == None && InOrder(z.clock, ticks[i])
  {
    var steps := LoopIsRun(y, ticks[..i], batches);
    assert InOrder(y.clock, ticks[i]);
    if i > 0 {
      assert ticks[..i][i - 1] == ticks[i - 1] && ticks[i - 1].finishAt <= ticks[i].promoteAt;
    }
  }

  /** The whole loop is a legal run of the single-worker system that ends idle. */
  lemma {:induction false} LoopIsRun(y: System, ticks: seq<Tick>, batches: seq<seq<Job>>) returns (steps: seq<Step>)
    requires y.held == None && AllInOrder(y.clock, ticks) && |batches| == |ticks| && AllDue(y, ticks, batches)
    ensures Legal(y, steps) && Run(y, steps) == Looped(y, ticks, batches)
    ensures Looped(y, ticks, batches).held == None
    ensures Looped(y, ticks, batches).clock <= if ticks == [] then y.clock else ticks[|ticks| - 1].finishAt
  {
    steps := [];
    if ticks == [] {
    } else {
      var n := |ticks| - 1;
      var before := LoopIsRun(y, ticks[..n], batches[..n]);
      var z := Looped(y, ticks[..n], batches[..n]);
      assert n > 0 ==> ticks[..n][n - 1] == ticks[n - 1];
      PassIsRun(z, ticks[n], batches[n]);
      var pass := PassSteps(ticks[n], batches[n], Polled(z, ticks[n], batches[n]).held.Some?);
      RunConcat(y, before, pass);
      steps := before + pass;
    }
  }
}
