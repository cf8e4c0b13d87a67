/**
 * When a failed job comes back and what it then is, what a recovery pass does with each entry, and
 * how much one promotion moves, said without the queue's own vocabulary of delays and fates
 * (src/lib/communicationQueue.ts, src/workers/communication.worker.ts).
 */
module RetrySchedule {
  import opened Common
  import opened CommunicationQueue
  import opened JobCounts
  import opened SingleWorker

  /** The job is parked for `d` more milliseconds, as one more attempt, with the error of the last one. */
  ghost predicate Parks(s: Store, z: Store, job: Job, message: string, now: int, d: int) {
    && z.delayed
       == s.delayed[job.(attempts := job.attempts + 1, scheduledFor := Some(now + d), lastError := Some(message))
                    := now + d]
    && z.processing == LRem(s.processing, job) && z.queue == s.queue && z.dlq == s.dlq && z.dedupe == s.dedupe
  }

  /** A first failure is retried after a minute; one more attempt doubles the delay, up to a day. */
  lemma DelayDoubles(s: Store, job: Job, message: string, now: int) returns (d: int, e: int)
    requires job.attempts + 2 < job.maxAttempts
    ensures Parks(s, Handle(s, job, Failed(message), now), job, message, now, d)
    ensures var next := job.(attempts := job.attempts + 1);
            Parks(s, Handle(s, next, Failed(message), now), next, message, now, e)
    ensures job.attempts == 0 ==> d == 60_000
    ensures e == Min(2 * d, 86_400_000)
  {
    d, e := Backoff(job.attempts), Backoff(job.attempts + 1);
  }

  /** The last attempt that is retried at all is parked like the others; the one after it is buried. */
  lemma RetriedOrBuried(s: Store, job: Job, message: string, now: int)
    ensures var z := Handle(s, job, Failed(message), now);
            && (job.attempts + 1 < job.maxAttempts ==> exists d :: Parks(s, z, job, message, now, d))
            && (job.attempts + 1 >= job.maxAttempts ==>
                  && z.dlq == [DeadJob(job, now, message)] + s.dlq && z.processing == LRem(s.processing, job)
                  && z.delayed == s.delayed && z.queue == s.queue && z.dedupe == s.dedupe)
  {
    if job.attempts + 1 < job.maxAttempts {
      assert Parks(s, Handle(s, job, Failed(message), now), job, message, now, Backoff(job.attempts));
    }
  }

  // --- A parked job becomes due --------------------------------------------------------------

  ghost predicate FailuresDated(y: System) {
    y.clock >= 0 && forall id :: id in y.log.failedAt ==> 0 <= y.log.failedAt[id] <= y.clock
  }

  lemma {:induction false} FailuresDatedRun(y: System, steps: seq<Step>)
    requires FailuresDated(y) && Legal(y, steps)
    ensures FailuresDated(Run(y, steps))
    decreases |steps|
  {
    if steps == [] {
    } else {
      FailuresDatedRun(Next(y, steps[0]), steps[1..]);
    }
  }

  /** A parked job is due exactly from the end of its backoff on, and says so itself. */
  lemma DueOnceOver(steps: seq<Step>, j: Job, now: int)
    requires Legal(START, steps) && In(Run(START, steps), j, Parked)
    ensures var y := Run(START, steps);
            && j.id in y.log.failedAt && j.attempts > 0
            && (Due(y.store.delayed, j, now)
                <==> now >= y.log.failedAt[j.id] + Min(60_000 * Pow2(j.attempts - 1), 86_400_000))
  {
    StartInv();
    InvRun(START, steps);
    FailuresDatedRun(START, steps);
    ParkedFailed(START, steps, j);
    assert Good(Run(START, steps), j, Parked);
  }

  /** Only a failure parks a job, and it counts as an attempt. */
  lemma {:induction false} ParkedFailed(y: System, steps: seq<Step>, j: Job)
    requires Inv(y) && Legal(y, steps) && In(Run(y, steps), j, Parked)
    requires forall k :: In(y, k, Parked) ==> k.id in y.log.pushed && k.attempts > y.log.pushed[k.id].attempts
    ensures var log := Run(y, steps).log; j.id in log.pushed && j.attempts > log.pushed[j.id].attempts
    decreases |steps|
  {
    if steps == [] {
    } else {
      var z := Next(y, steps[0]);
      InvNext(y, steps[0]);
      if steps[0].action.Finish? {
        assert In(y, y.held.value, Working) && Good(y, y.held.value, Working);
      }
      forall k | In(z, k, Parked)
        ensures k.id in z.log.pushed && k.attempts > z.log.pushed[k.id].attempts
      {
        StillParked(y, steps[0], k);
      }
      ParkedFailed(z, steps[1..], j);
    }
  }

  lemma StillParked(y: System, st: Step, k: Job)
    requires Inv(y) && Enabled(y, st) && In(Next(y, st), k, Parked)
    requires In(y, k, Parked) ==> k.id in y.log.pushed && k.attempts > y.log.pushed[k.id].attempts
    requires st.action.Finish? ==> Good(y, y.held.value, Working)
    ensures var log := Next(y, st).log; k.id in log.pushed && k.attempts > log.pushed[k.id].attempts
  {}

  // --- One promotion and one recovery ----------------------------------------------------------

  function MembersDue(delayed: map<Job, int>, now: int): set<Job> { set j | j in delayed && 0 <= delayed[j] <= now }

  lemma {:induction false} DistinctSize(batch: seq<Job>)
    requires Distinct(batch)
    ensures |Members(batch)| == |batch|
  {
    if batch == [] {
    } else {
      var init, last := batch[..|batch| - 1], batch[|batch| - 1];
      assert batch == init + [last];
      DistinctSize(init);
      assert Members(batch) == Members(init) + {last};
    }
  }

  /** A promotion moves all due jobs, or fifty of them; the ones left over are not due before any that went. */
  lemma FiftyAtATime(s: Store, now: int, batch: seq<Job>)
    requires IsDueBatch(s.delayed, now, batch)
    ensures Members(batch) <= MembersDue(s.delayed, now)
    ensures |batch| == Min(50, |MembersDue(s.delayed, now)|)
    ensures forall j, k :: j in MembersDue(s.delayed, now) && j !in batch && k in batch ==> s.delayed[k] <= s.delayed[j]
  {
    DistinctSize(batch);
    assert Members(batch) <= MembersDue(s.delayed, now) by {
      assert forall j :: j in batch ==> Due(s.delayed, j, now);
    }
    LeftOver(s.delayed, now, batch);
    PartSize(Members(batch), MembersDue(s.delayed, now));
  }

  lemma LeftOver(delayed: map<Job, int>, now: int, batch: seq<Job>)
    requires IsDueBatch(delayed, now, batch)
    ensures forall j :: j in MembersDue(delayed, now) && j !in batch ==>
              |batch| == 50 && forall k :: k in batch ==> delayed[k] <= delayed[j]
  {
    forall j | j in MembersDue(delayed, now) && j !in batch
      ensures |batch| == 50 && forall k :: k in batch ==> delayed[k] <= delayed[j]
    {
      assert Due(delayed, j, now);
    }
  }

  lemma PartSize(part: set<Job>, whole: set<Job>)
    requires part <= whole && (part == whole || |part| == 50) && |part| <= 50
    ensures |part| == Min(50, |whole|)
  {
    assert whole == part + (whole - part);
  }

  /**
   * One pass over any store: an entry whose record is gone or expired stays; one that was sent or buried is dropped;
   * any other goes back to the queue from `staleAfter` on and stays before.
   */
  lemma RecoveryFates(s: Store, now: int, staleAfter: int, j: Job)
    requires j in s.processing
    ensures var z := Recover(s, now, staleAfter);
            var alive := j.id in s.records && now < s.records[j.id].expiresAt;
            var over := alive && s.records[j.id].phase in {Sent, Dead};
            var stale := alive && now - s.records[j.id].updatedAt >= staleAfter;
            && (j in z.processing <==> !over && !stale)
            && (j in z.queue <==> j in s.queue || (!over && stale))
            && z.(processing := s.processing, queue := s.queue) == s
  {
    SelectFate(s.processing, s.records, now, staleAfter, Keep);
    SelectFate(s.processing, s.records, now, staleAfter, Requeue);
    ReverseMembers(Select(s.processing, s.records, now, staleAfter, Requeue));
  }

  /** A job whose worker dies is put back exactly by a pass between `staleAfter` and a day after it was reserved. */
  lemma RecoveryWindow(y: System, at: int, crash: int, now: int, staleAfter: int)
    requires Reachable(y) && y.held == None && y.clock <= at <= crash <= now && y.store.queue != []
    ensures var job := y.store.queue[|y.store.queue| - 1];
            var steps := [Step(at, ReserveNext), Step(crash, Crash), Step(now, RecoverStalled(staleAfter))];
            && Legal(y, steps)
            && (In(Run(y, steps), job, Waiting) <==> staleAfter <= now - at < 86_400_000)
            && (In(Run(y, steps), job, Working) <==> !In(Run(y, steps), job, Waiting))
  {
    var a, b, c := Step(at, ReserveNext), Step(crash, Crash), Step(now, RecoverStalled(staleAfter));
    var job := y.store.queue[|y.store.queue| - 1];
    var y2 := Next(Next(y, a), b);
    ReserveRecords(y.store, at);
    ThreeSteps(y, a, b, c);
    RecoveryExact(y2, c, job);
  }

  lemma ThreeSteps(y: System, a: Step, b: Step, c: Step)
    requires Reachable(y) && Enabled(y, a) && Enabled(Next(y, a), b) && Enabled(Next(Next(y, a), b), c)
    ensures Reachable(Next(Next(y, a), b))
    ensures Legal(y, [a, b, c]) && Run(y, [a, b, c]) == Next(Next(Next(y, a), b), c)
  {
    var before :| Legal(START, before) && Run(START, before) == y;
    var y1 := Next(y, a);
    Unfold(y1, b, []);
    Unfold(y, a, [b]);
    RunConcat(START, before, [a, b]);
    Unfold(Next(y1, b), c, []);
    Unfold(y1, b, [c]);
    Unfold(y, a, [b, c]);
    assert [a] + [b] == [a, b] && [b] + [] == [b] && [c] + [] == [c];
    assert [b] + [c] == [b, c] && [a] + [b, c] == [a, b, c];
  }

  lemma ReserveRecords(s: Store, now: int)
    requires s.queue != []
    ensures var z, job := Reserve(s, now), s.queue[|s.queue| - 1];
            && z.processing == [job] + s.processing && job.id in z.records
            && z.records[job.id] == Record(InProcess, now, job.attempts, now + 86_400_000)
  {}
}
