/**
 * What a worker is handed is what was pushed: the work of every entry, its attempts and the defaults
 * of the request behind it, and what a dead letter keeps (src/lib/communicationQueue.ts).
 */
module JobContents {
  import opened Common
  import opened CommunicationQueue
  import opened JobCounts
  import opened SingleWorker

  /** The step is the push behind this job, as it was on its first attempt. */
  predicate Pushes(st: Step, job: Job) {
    && st.action.Push? && st.action.id == job.id && st.now == job.createdAt
    && var req := st.action.req;
    && req.jobType == job.jobType && req.payload == job.payload
    && job.dedupeKey.jobType == req.jobType && job.dedupeKey.digest == req.digest
    && (req.attempts.Some? ==> job.attempts == req.attempts.value)
    && (req.attempts.None? ==> job.attempts == 0)
    && (req.maxAttempts.Some? ==> job.maxAttempts == req.maxAttempts.value)
    && (req.maxAttempts.None? ==>
          job.maxAttempts == if req.jobType.SendEmail? || req.jobType.SendSms? then 5 else 3)
    && job.scheduledFor == None && job.lastError == None
  }

  ghost predicate PushedBy(steps: seq<Step>, job: Job) {
    exists i :: 0 <= i < |steps| && Pushes(steps[i], job)
  }

  lemma PushedStep(y: System, st: Step, id: string)
    requires Enabled(y, st) && id in Next(y, st).log.pushed
    ensures (id in y.log.pushed && Next(y, st).log.pushed[id] == y.log.pushed[id])
            || Pushes(st, Next(y, st).log.pushed[id])
  {
    if st.action.Push? {
      NewJobIsPushed(st);
    } else {
      OthersPushNothing(y, st);
    }
  }

  lemma NewJobIsPushed(st: Step)
    requires st.action.Push?
    ensures Pushes(st, NewJob(st.action.req, st.action.id, st.now))
  {}

  lemma OthersPushNothing(y: System, st: Step)
    requires !st.action.Push?
    ensures Next(y, st).log.pushed == y.log.pushed
  {}

  lemma {:induction false} PushedFrom(y: System, steps: seq<Step>, id: string)
    requires Legal(y, steps) && id in Run(y, steps).log.pushed
    ensures PushedBy(steps, Run(y, steps).log.pushed[id])
            || (id in y.log.pushed && y.log.pushed[id] == Run(y, steps).log.pushed[id])
    decreases |steps|
  {
    if steps == [] {
    } else {
      var z, job := Next(y, steps[0]), Run(y, steps).log.pushed[id];
      PushedFrom(z, steps[1..], id);
      if i :| 0 <= i < |steps[1..]| && Pushes(steps[1..][i], job) {
        assert Pushes(steps[i + 1], job);
      } else {
        PushedStep(y, steps[0], id);
      }
    }
  }

  /**
   * Every job anywhere in the system is one that was pushed, with its type, payload and limits, on the attempt that
   * the failures so far make it.
   */
  lemma AsPushed(steps: seq<Step>, j: Job, p: Place)
    requires Legal(START, steps) && In(Run(START, steps), j, p)
    ensures var log := Run(START, steps).log;
            && j.id in log.pushed && PushedBy(steps, log.pushed[j.id])
            && var origin := log.pushed[j.id];
            && j.id == origin.id && j.jobType == origin.jobType && j.payload == origin.payload
            && j.dedupeKey == origin.dedupeKey
            && j.maxAttempts == origin.maxAttempts && j.createdAt == origin.createdAt
            && j.attempts == origin.attempts + Tally(log.reserved, j.id) - Tally(log.recovered, j.id)
                             - One(p in {Working, Buried, Done})
  {
    AttemptLedger(steps, j, p);
    PushedFrom(START, steps, j.id);
  }

  /** A mail or text message pushed without settings dies after exactly five runs, anything else after three. */
  lemma {:induction false} DefaultRuns(steps: seq<Step>, j: Job)
    requires Legal(START, steps) && In(Run(START, steps), j, Buried)
    requires forall i :: 0 <= i < |steps| && steps[i].action.Push? && steps[i].action.id == j.id ==>
               steps[i].action.req.attempts == None && steps[i].action.req.maxAttempts == None
    ensures var log := Run(START, steps).log;
            Tally(log.reserved, j.id) - Tally(log.recovered, j.id)
            == if j.jobType.SendEmail? || j.jobType.SendSms? then 5 else 3
  {
    AsPushed(steps, j, Buried);
    var i :| 0 <= i < |steps| && Pushes(steps[i], Run(START, steps).log.pushed[j.id]);
    RunsOfDeadJob(steps, j);
  }

  // --- Dead letters -----------------------------------------------------------------------------

  /** A dead letter is never taken out or changed, whatever comes after. */
  lemma {:induction false} DeadLettersStay(y: System, steps: seq<Step>) returns (more: seq<DeadJob>)
    requires Legal(y, steps)
    ensures Run(y, steps).store.dlq == more + y.store.dlq
    decreases |steps|
  {
    more := [];
    if steps == [] {
    } else {
      var buried := DeadLetterStep(y, steps[0]);
      var later := DeadLettersStay(Next(y, steps[0]), steps[1..]);
      more := later + buried;
    }
  }

  lemma DeadLetterStep(y: System, st: Step) returns (buried: seq<DeadJob>)
    requires Enabled(y, st)
    ensures Next(y, st).store.dlq == buried + y.store.dlq
  {
    var z := Next(y, st);
    buried := z.store.dlq[..|z.store.dlq| - |y.store.dlq|];
  }
}
