/**
 * Every run of the queue with one worker process, crashes included.
 *
 * The worker loop promotes, recovers and reserves only while it holds no job;
 * producers push at any time; a crash may come between any two queue calls and
 * forgets the held job.  `Log` is history kept for the statements alone.
 */
module SingleWorker {
  import opened Common
  import opened CommunicationQueue
  import opened JobCounts

  datatype Log = Log(pushed: map<string, Job>, acked: map<string, Job>, reserved: map<string, nat>,
                     recovered: map<string, nat>, failedAt: map<string, int>)

  datatype System = System(store: Store, held: Option<Job>, clock: int, log: Log)

  const START: System := System(EMPTY, None, 0, Log(map[], map[], map[], map[], map[]))

  datatype Action =
    | Push(req: Request, id: string, ttl: int)
    | PromoteDue(batch: seq<Job>)
    | RecoverStalled(staleAfter: int)
    | ReserveNext
    | Finish(outcome: Outcome)
    | Crash

  datatype Step = Step(now: int, action: Action)

  /** Job ids are never reused, and the clock does not run backwards. */
  ghost predicate Enabled(y: System, st: Step) {
    && y.clock <= st.now
    && match st.action
       case Push(_, id, _) => id !in y.log.pushed
       case PromoteDue(batch) => y.held.None? && IsDueBatch(y.store.delayed, st.now, batch)
       case RecoverStalled(_) => y.held.None?
       case ReserveNext => y.held.None?
       case Finish(_) => y.held.Some?
       case Crash => true
  }

  function Tally(m: map<string, nat>, id: string): nat { if id in m then m[id] else 0 }

  function Next(y: System, st: Step): System {
    var s, log, now := y.store, y.log, st.now;
    match st.action
    case Push(req, id, ttl) =>
      var job := NewJob(req, id, now);
      System(Enqueue(s, req, id, now, ttl), y.held, now,
             if Locked(s, job.dedupeKey, now) then log else log.(pushed := log.pushed[id := job]))
    case PromoteDue(batch) =>
      System(Promote(s, batch), y.held, now, log)
    case RecoverStalled(staleAfter) =>
      var moved := Select(s.processing, s.records, now, staleAfter, Requeue);
      System(Recover(s, now, staleAfter), y.held, now,
             log.(recovered := map id | id in log.pushed :: Tally(log.recovered, id) + Count(moved, id)))
    case ReserveNext =>
      if s.queue == [] then y.(clock := now)
      else
        var job := s.queue[|s.queue| - 1];
        System(Reserve(s, now), Some(job), now,
               log.(reserved := log.reserved[job.id := Tally(log.reserved, job.id) + 1]))
    case Finish(outcome) =>
      if y.held.None? then y
      else
        var job := y.held.value;
        System(Handle(s, job, outcome, now), None, now,
               if outcome.Delivered? then log.(acked := log.acked[job.id := job])
               else log.(failedAt := log.failedAt[job.id := now]))
    case Crash =>
      y.(held := None, clock := now)
  }

  ghost predicate Legal(y: System, steps: seq<Step>)
    decreases |steps|
  {
    steps == [] || (Enabled(y, steps[0]) && Legal(Next(y, steps[0]), steps[1..]))
  }

  function Run(y: System, steps: seq<Step>): System
    decreases |steps|
  {
    if steps == [] then y else Run(Next(y, steps[0]), steps[1..])
  }

  lemma Unfold(y: System, st: Step, rest: seq<Step>)
    requires Enabled(y, st) && Legal(Next(y, st), rest)
    ensures Legal(y, [st] + rest) && Run(y, [st] + rest) == Run(Next(y, st), rest)
  {
    assert ([st] + rest)[1..] == rest;
  }

  // --- Where a job is ---------------------------------------------------------

  datatype Place = Waiting | Working | Parked | Buried | Done

  predicate In(y: System, j: Job, p: Place) {
    match p
    case Waiting => j in y.store.queue
    case Working => j in y.store.processing
    case Parked => j in y.store.delayed
    case Buried => j in DeadJobs(y.store.dlq)
    case Done => j.id in y.log.acked && y.log.acked[j.id] == j
  }

  function Copies(y: System, id: string): nat {
    Entries(y.store, id) + One(id in y.log.acked)
  }

  function Pushed(y: System, id: string): nat { One(id in y.log.pushed) }

  ghost predicate Placed(y: System) {
    && (forall id :: Copies(y, id) == Pushed(y, id))
    && (forall id :: id in y.log.acked ==> y.log.acked[id].id == id)
  }

  /** With multiplicity one, an id has one place and one entry there. */
  lemma Unique(y: System, j: Job, p: Place, k: Job, q: Place)
    requires Copies(y, j.id) <= 1
    requires In(y, j, p) && In(y, k, q) && j.id == k.id
    ensures j == k && p == q
  {
    var id, s := j.id, y.store;
    CountPositive(s.queue, id);
    CountPositive(s.processing, id);
    CountPositive(DeadJobs(s.dlq), id);
    if p == Parked || q == Parked {
      var x := if p == Parked then j else k;
      assert x in DelayedOf(s.delayed, id);
    }
    if p == q && j != k {
      match p {
        case Waiting => CountTwo(s.queue, j, k);
        case Working => CountTwo(s.processing, j, k);
        case Parked =>
          assert {j, k} <= DelayedOf(s.delayed, id);
          Larger({j, k}, DelayedOf(s.delayed, id));
        case Buried => CountTwo(DeadJobs(s.dlq), j, k);
        case Done =>
      }
    }
  }

  lemma Larger<T>(a: set<T>, b: set<T>)
    requires a <= b
    ensures |a| <= |b|
  {
    assert b == a + (b - a);
  }

  // --- What is known of a job, by place ----------------------------------------

  /** The attempt number on which a job gives up: it is always run at least once. */
  function LastAttempt(origin: Job): nat { Max(origin.attempts, origin.maxAttempts - 1) }

  /** The state record of a job that is not waiting. */
  predicate RecordSays(s: Store, j: Job, p: Place) {
    && j.id in s.records && s.records[j.id].attempts == j.attempts
    && (p == Working ==> s.records[j.id].phase == InProcess)
    && (p == Parked ==> s.records[j.id].phase == Retrying)
    && (p == Buried ==> s.records[j.id].phase == Dead)
    && (p == Done ==> s.records[j.id].phase == Sent)
  }

  ghost predicate Good(y: System, j: Job, p: Place)
  {
    var log := y.log;
    && j.id in log.pushed
    && var origin := log.pushed[j.id];
    && SameWork(j, origin)
    && origin.attempts <= j.attempts <= LastAttempt(origin)
    && Tally(log.reserved, j.id) ==
         j.attempts - origin.attempts + Tally(log.recovered, j.id) + (if p in {Working, Buried, Done} then 1 else 0)
    && (p == Buried ==> j.attempts == LastAttempt(origin))
    && (p != Waiting ==> RecordSays(y.store, j, p))
    && (j.attempts > origin.attempts ==>
          && j.id in log.failedAt
          && (p in {Waiting, Working} ==> log.failedAt[j.id] + Backoff(j.attempts - 1) <= y.clock)
          && (p == Parked ==>
                j in y.store.delayed && y.store.delayed[j] == log.failedAt[j.id] + Backoff(j.attempts - 1)))
  }

  ghost predicate Inv(y: System) {
    && Placed(y)
    && (y.held.Some? ==> y.held.value in y.store.processing)
    && (forall id :: id in y.log.reserved || id in y.log.recovered ==> id in y.log.pushed)
    && (forall j, p :: In(y, j, p) ==> Good(y, j, p))
  }

  lemma StartInv()
    ensures Inv(START)
  {
    forall id
      ensures Copies(START, id) == 0
    {
      assert DelayedOf(START.store.delayed, id) == {};
    }
  }

  // --- Conservation, step by step ----------------------------------------------

  lemma DeadCons(d: DeadJob, dlq: seq<DeadJob>)
    ensures DeadJobs([d] + dlq) == [d.job] + DeadJobs(dlq)
  {}

  /** With one worker a processing entry is always `InProcess`, so recovery discards nothing. */
  lemma NothingDiscarded(y: System, now: int, staleAfter: int, id: string)
    requires Inv(y)
    ensures Count(Select(y.store.processing, y.store.records, now, staleAfter, Discard), id) == 0
  {
    var s := y.store;
    SelectFate(s.processing, s.records, now, staleAfter, Discard);
    CountPositive(Select(s.processing, s.records, now, staleAfter, Discard), id);
    forall j | j in s.processing
      ensures FateOf(s.records, j, now, staleAfter) != Discard
    {
      assert In(y, j, Working);
    }
  }

  lemma FinishCopies(y: System, st: Step, id: string)
    requires Inv(y) && Enabled(y, st) && st.action.Finish?
    ensures Copies(Next(y, st), id) == Pushed(Next(y, st), id)
  {
    var s, job, now := y.store, y.held.value, st.now;
    assert In(y, job, Working) && Copies(y, job.id) == Pushed(y, job.id) && Copies(y, id) == Pushed(y, id);
    match st.action.outcome
    case Delivered =>
      AcknowledgeEntries(s, job, now, id);
      if job.id in y.log.acked {
        Unique(y, job, Working, y.log.acked[job.id], Done);
      }
    case Failed(message) =>
      if job.attempts + 1 < job.maxAttempts {
        var parked := Delayed(job, Backoff(job.attempts), Some(message), now);
        if parked in s.delayed {
          Unique(y, job, Working, parked, Parked);
        }
        ScheduleRetryEntries(s, job, Backoff(job.attempts), Some(message), now, id);
      } else {
        MoveToDlqEntries(s, job, message, now, id);
      }
  }

  lemma PlacedNext(y: System, st: Step)
    requires Inv(y) && Enabled(y, st)
    ensures Placed(Next(y, st))
  {
    forall id
      ensures Copies(Next(y, st), id) == Pushed(Next(y, st), id)
    {
      assert Copies(y, id) == Pushed(y, id);
      match st.action
      case Push(req, job, ttl) => EnqueueEntries(y.store, req, job, st.now, ttl, id);
      case PromoteDue(batch) => PromoteEntries(y.store, st.now, batch, id);
      case RecoverStalled(staleAfter) =>
        NothingDiscarded(y, st.now, staleAfter, id);
        RecoverEntries(y.store, st.now, staleAfter, id);
      case ReserveNext => ReserveEntries(y.store, st.now, id);
      case Finish(_) => FinishCopies(y, st, id);
      case Crash =>
    }
  }

  // --- The ledger, step by step --------------------------------------------------

  /** An entry whose place and history a step did not touch. */
  lemma GoodStays(y: System, z: System, j: Job, p: Place)
    requires Good(y, j, p) && y.clock <= z.clock
    requires j.id in z.log.pushed && z.log.pushed[j.id] == y.log.pushed[j.id]
    requires Tally(z.log.reserved, j.id) == Tally(y.log.reserved, j.id)
    requires Tally(z.log.recovered, j.id) == Tally(y.log.recovered, j.id)
    requires j.id in y.log.failedAt ==> j.id in z.log.failedAt && z.log.failedAt[j.id] == y.log.failedAt[j.id]
    requires p == Parked && j in y.store.delayed ==> j in z.store.delayed && z.store.delayed[j] == y.store.delayed[j]
    requires p != Waiting && j.id in y.store.records ==>
               j.id in z.store.records && z.store.records[j.id] == y.store.records[j.id]
    requires p == Parked ==> In(y, j, p)
    ensures Good(z, j, p)
  {}

  lemma PushGood(y: System, st: Step, j: Job, p: Place)
    requires Inv(y) && Enabled(y, st) && st.action.Push? && In(Next(y, st), j, p)
    ensures Good(Next(y, st), j, p)
  {
    var z := Next(y, st);
    var job := NewJob(st.action.req, st.action.id, st.now);
    if In(y, j, p) {
      assert Good(y, j, p);
      GoodStays(y, z, j, p);
    } else {
      assert j == job && p == Waiting;
    }
  }

  lemma PromoteGood(y: System, st: Step, j: Job, p: Place)
    requires Inv(y) && Enabled(y, st) && st.action.PromoteDue? && In(Next(y, st), j, p)
    ensures Good(Next(y, st), j, p)
  {
    var z, batch := Next(y, st), st.action.batch;
    ReverseMembers(batch);
    if In(y, j, p) {
      assert Good(y, j, p);
      GoodStays(y, z, j, p);
    } else {
      assert p == Waiting && j in batch;
      assert Due(y.store.delayed, j, st.now);
      assert In(y, j, Parked) && Good(y, j, Parked);
    }
  }

  /** A requeued entry was recovered once more, and now waits. */
  lemma RecoverMoves(y: System, st: Step, k: Job)
    requires Inv(y) && Enabled(y, st) && st.action.RecoverStalled?
    requires k in Select(y.store.processing, y.store.records, st.now, st.action.staleAfter, Requeue)
    ensures In(Next(y, st), k, Waiting) && Good(Next(y, st), k, Waiting)
  {
    var s, stale := y.store, st.action.staleAfter;
    var moved := Select(s.processing, s.records, st.now, stale, Requeue);
    SelectFate(s.processing, s.records, st.now, stale, Requeue);
    ReverseMembers(moved);
    assert In(y, k, Working) && Good(y, k, Working);
    CountPositive(moved, k.id);
    CountSelect(s.processing, s.records, st.now, stale, k.id);
    assert Copies(y, k.id) == Pushed(y, k.id);
  }

  lemma RecoverOthers(y: System, st: Step, j: Job, p: Place)
    requires Inv(y) && Enabled(y, st) && st.action.RecoverStalled? && In(Next(y, st), j, p)
    requires Count(Select(y.store.processing, y.store.records, st.now, st.action.staleAfter, Requeue), j.id) == 0
    ensures In(y, j, p)
  {
    var s, stale := y.store, st.action.staleAfter;
    var moved := Select(s.processing, s.records, st.now, stale, Requeue);
    SelectFate(s.processing, s.records, st.now, stale, Keep);
    ReverseMembers(moved);
    CountPositive(moved, j.id);
  }

  lemma RecoverGood(y: System, st: Step, j: Job, p: Place)
    requires Inv(y) && Enabled(y, st) && st.action.RecoverStalled? && In(Next(y, st), j, p)
    requires Placed(Next(y, st))
    ensures Good(Next(y, st), j, p)
  {
    var z := Next(y, st);
    var moved := Select(y.store.processing, y.store.records, st.now, st.action.staleAfter, Requeue);
    if Count(moved, j.id) > 0 {
      CountPositive(moved, j.id);
      var k :| k in moved && k.id == j.id;
      RecoverMoves(y, st, k);
      assert Copies(z, j.id) == Pushed(z, j.id);
      Unique(z, j, p, k, Waiting);
    } else {
      RecoverOthers(y, st, j, p);
      assert Good(y, j, p);
      GoodStays(y, z, j, p);
    }
  }

  lemma ReserveGood(y: System, st: Step, j: Job, p: Place)
    requires Inv(y) && Enabled(y, st) && st.action.ReserveNext? && In(Next(y, st), j, p)
    requires Placed(Next(y, st))
    ensures Good(Next(y, st), j, p)
  {
    var queue, z := y.store.queue, Next(y, st);
    if queue != [] && j.id == queue[|queue| - 1].id {
      var job := queue[|queue| - 1];
      assert In(z, job, Working);
      assert Copies(z, j.id) == Pushed(z, j.id);
      Unique(z, j, p, job, Working);
      assert In(y, job, Waiting) && Good(y, job, Waiting);
    } else {
      assert In(y, j, p) && Good(y, j, p);
      GoodStays(y, z, j, p);
    }
  }

  /** The entry a finished job leaves behind, and where. */
  function Left(job: Job, outcome: Outcome, now: int): (Job, Place) {
    match outcome
    case Delivered => (job, Done)
    case Failed(message) =>
      if job.attempts + 1 < job.maxAttempts
      then (Delayed(job, Backoff(job.attempts), Some(message), now), Parked)
      else (job, Buried)
  }

  lemma FinishLeaves(y: System, st: Step)
    requires Inv(y) && Enabled(y, st) && st.action.Finish?
    ensures var (k, q) := Left(y.held.value, st.action.outcome, st.now);
            In(Next(y, st), k, q) && k.id == y.held.value.id && Good(Next(y, st), k, q)
  {
    var job := y.held.value;
    assert In(y, job, Working) && Good(y, job, Working);
    if st.action.outcome.Failed? {
      DeadCons(DeadJob(job, st.now, st.action.outcome.message), y.store.dlq);
    }
  }

  lemma FinishOthers(y: System, st: Step, j: Job, p: Place)
    requires Inv(y) && Enabled(y, st) && st.action.Finish? && In(Next(y, st), j, p)
    requires j.id != y.held.value.id
    ensures In(y, j, p)
  {
    var job := y.held.value;
    LRemMembers(y.store.processing, job);
    if st.action.outcome.Failed? {
      DeadCons(DeadJob(job, st.now, st.action.outcome.message), y.store.dlq);
    }
  }

  lemma FinishStays(y: System, st: Step, j: Job, p: Place)
    requires Inv(y) && Enabled(y, st) && st.action.Finish? && In(y, j, p) && j.id != y.held.value.id
    ensures Good(Next(y, st), j, p)
  {
    assert Good(y, j, p);
    GoodStays(y, Next(y, st), j, p);
  }

  lemma FinishGood(y: System, st: Step, j: Job, p: Place)
    requires Inv(y) && Enabled(y, st) && st.action.Finish? && In(Next(y, st), j, p)
    requires Placed(Next(y, st))
    ensures Good(Next(y, st), j, p)
  {
    var z := Next(y, st);
    var (k, q) := Left(y.held.value, st.action.outcome, st.now);
    FinishLeaves(y, st);
    if j.id == k.id {
      assert Copies(z, j.id) == Pushed(z, j.id);
      Unique(z, j, p, k, q);
    } else {
      FinishOthers(y, st, j, p);
      FinishStays(y, st, j, p);
    }
  }

  lemma InvNext(y: System, st: Step)
    requires Inv(y) && Enabled(y, st)
    ensures Inv(Next(y, st))
  {
    var z := Next(y, st);
    PlacedNext(y, st);
    forall j, p | In(z, j, p)
      ensures Good(z, j, p)
    {
      match st.action
      case Push(_, _, _) => PushGood(y, st, j, p);
      case PromoteDue(_) => PromoteGood(y, st, j, p);
      case RecoverStalled(_) => RecoverGood(y, st, j, p);
      case ReserveNext => ReserveGood(y, st, j, p);
      case Finish(_) => FinishGood(y, st, j, p);
      case Crash =>
        assert In(y, j, p) && Good(y, j, p);
        GoodStays(y, z, j, p);
    }
    if st.action.ReserveNext? && y.store.queue != [] {
      assert In(y, y.store.queue[|y.store.queue| - 1], Waiting);
    }
  }

  lemma {:induction false} InvRun(y: System, steps: seq<Step>)
    requires Inv(y) && Legal(y, steps)
    ensures Inv(Run(y, steps))
    decreases |steps|
  {
    if steps == [] {
    } else {
      InvNext(y, steps[0]);
      InvRun(Next(y, steps[0]), steps[1..]);
    }
  }

  lemma {:induction false} LegalConcat(y: System, a: seq<Step>, b: seq<Step>)
    requires Legal(y, a + b)
    ensures Legal(y, a) && Legal(Run(y, a), b) && Run(y, a + b) == Run(Run(y, a), b)
    decreases |a|
  {
    if a == [] {
      assert a + b == b;
    } else {
      assert (a + b)[0] == a[0] && (a + b)[1..] == a[1..] + b;
      LegalConcat(Next(y, a[0]), a[1..], b);
    }
  }

  lemma {:induction false} RunConcat(y: System, a: seq<Step>, b: seq<Step>)
    requires Legal(y, a) && Legal(Run(y, a), b)
    ensures Legal(y, a + b) && Run(y, a + b) == Run(Run(y, a), b)
    decreases |a|
  {
    if a == [] {
      assert a + b == b;
    } else {
      assert (a + b)[0] == a[0] && (a + b)[1..] == a[1..] + b;
      RunConcat(Next(y, a[0]), a[1..], b);
    }
  }

  // --- Main results ---------------------------------------------------------------

  /** The states of all runs. */
  ghost predicate Reachable(y: System) {
    exists steps :: Legal(START, steps) && Run(START, steps) == y
  }

  lemma ReachableInv(y: System)
    requires Reachable(y)
    ensures Inv(y)
  {
    var steps :| Legal(START, steps) && Run(START, steps) == y;
    StartInv();
    InvRun(START, steps);
  }

  /** Conservation: a pushed id is in exactly one of the five places, once; no other id is anywhere. */
  lemma ExactlyOnePlace(steps: seq<Step>, id: string)
    requires Legal(START, steps)
    ensures var y := Run(START, steps);
            Entries(y.store, id) + One(id in y.log.acked) == One(id in y.log.pushed)
  {
    StartInv();
    InvRun(START, steps);
    var y := Run(START, steps);
    assert Copies(y, id) == Pushed(y, id);
  }

  /** The ledger of attempts, and the bound on handler runs it gives. */
  lemma AttemptLedger(steps: seq<Step>, j: Job, p: Place)
    requires Legal(START, steps) && In(Run(START, steps), j, p)
    ensures var log := Run(START, steps).log;
            && j.id in log.pushed
            && var origin := log.pushed[j.id];
            && SameWork(j, origin)
            && origin.attempts <= j.attempts <= LastAttempt(origin)
            && (p == Buried ==> j.attempts == LastAttempt(origin))
            && Tally(log.reserved, j.id) ==
                 j.attempts - origin.attempts + Tally(log.recovered, j.id) + One(p in {Working, Buried, Done})
            && Tally(log.reserved, j.id) <= Max(1, origin.maxAttempts - origin.attempts) + Tally(log.recovered, j.id)
  {
    StartInv();
    InvRun(START, steps);
    assert Good(Run(START, steps), j, p);
  }

  /** Wherever a job is, its state record tells the place and the attempt; only for a waiting job it is behind. */
  lemma RecordTellsPlace(steps: seq<Step>, j: Job, p: Place)
    requires Legal(START, steps) && In(Run(START, steps), j, p) && p != Waiting
    ensures var records := Run(START, steps).store.records;
            && j.id in records && records[j.id].attempts == j.attempts
            && (records[j.id].phase == InProcess <==> p == Working)
            && (records[j.id].phase == Retrying <==> p == Parked)
            && (records[j.id].phase == Dead <==> p == Buried)
            && (records[j.id].phase == Sent <==> p == Done)
  {
    StartInv();
    InvRun(START, steps);
    assert Good(Run(START, steps), j, p);
  }

  // --- Recoveries are paid for by crashes -----------------------------------------------

  /** The step is a crash of the worker while it has the job in hand. */
  predicate Strikes(y: System, st: Step, id: string) {
    st.action.Crash? && y.held.Some? && y.held.value.id == id
  }

  function StrikeCount(y: System, steps: seq<Step>, id: string): nat
    decreases |steps|
  {
    if steps == [] then 0 else One(Strikes(y, steps[0], id)) + StrikeCount(Next(y, steps[0]), steps[1..], id)
  }

  predicate InHand(y: System, id: string) { y.held.Some? && y.held.value.id == id }

  /** Recoveries so far, and the entries being processed that nobody has in hand. */
  function Debt(y: System, id: string): int {
    Tally(y.log.recovered, id) + Count(y.store.processing, id) - One(InHand(y, id))
  }

  lemma DebtRecover(y: System, st: Step, id: string)
    requires Inv(y) && Enabled(y, st) && st.action.RecoverStalled?
    ensures Debt(Next(y, st), id) <= Debt(y, id)
  {
    var s, stale := y.store, st.action.staleAfter;
    NothingDiscarded(y, st.now, stale, id);
    CountSelect(s.processing, s.records, st.now, stale, id);
  }

  lemma DebtReserve(y: System, st: Step, id: string)
    requires Enabled(y, st) && st.action.ReserveNext?
    ensures Debt(Next(y, st), id) == Debt(y, id)
  {
    if y.store.queue != [] {
      var job := y.store.queue[|y.store.queue| - 1];
      CountConcat([job], y.store.processing, id);
      CountOne(job, id);
    }
  }

  lemma DebtFinish(y: System, st: Step, id: string)
    requires Enabled(y, st) && st.action.Finish? && y.held.value in y.store.processing
    ensures Debt(Next(y, st), id) == Debt(y, id)
  {
    CountLRem(y.store.processing, y.held.value, id);
    assert Next(y, st).store.processing == LRem(y.store.processing, y.held.value);
  }

  lemma DebtStep(y: System, st: Step, id: string)
    requires Inv(y) && Enabled(y, st)
    ensures Debt(Next(y, st), id) <= Debt(y, id) + One(Strikes(y, st, id))
  {
    match st.action
    case RecoverStalled(_) => DebtRecover(y, st, id);
    case ReserveNext => DebtReserve(y, st, id);
    case Finish(_) => DebtFinish(y, st, id);
    case _ =>
  }

  lemma {:induction false} DebtRun(y: System, steps: seq<Step>, id: string)
    requires Inv(y) && Legal(y, steps)
    ensures Debt(Run(y, steps), id) <= Debt(y, id) + StrikeCount(y, steps, id)
    decreases |steps|
  {
    if steps == [] {
    } else {
      DebtStep(y, steps[0], id);
      InvNext(y, steps[0]);
      DebtRun(Next(y, steps[0]), steps[1..], id);
    }
  }

  /** A job is recovered at most as often as the worker crashed with it in hand. */
  lemma RecoveriesArePaid(steps: seq<Step>, id: string)
    requires Legal(START, steps)
    ensures Tally(Run(START, steps).log.recovered, id) <= StrikeCount(START, steps, id)
  {
    StartInv();
    InvRun(START, steps);
    DebtRun(START, steps, id);
    var y := Run(START, steps);
    if InHand(y, id) {
      CountPositive(y.store.processing, id);
    }
  }

  /** So a job is run at most as often as it has attempts, at least once, and once more for each such crash. */
  lemma HandlerRuns(steps: seq<Step>, j: Job, p: Place)
    requires Legal(START, steps) && In(Run(START, steps), j, p)
    ensures var log := Run(START, steps).log;
            && j.id in log.pushed
            && Tally(log.reserved, j.id)
               <= Max(1, log.pushed[j.id].maxAttempts - log.pushed[j.id].attempts) + StrikeCount(START, steps, j.id)
  {
    AttemptLedger(steps, j, p);
    RecoveriesArePaid(steps, j.id);
  }

  /** A retry is handed out again only after its whole backoff has passed since the failure. */
  lemma NoEarlyRetry(steps: seq<Step>, now: int)
    requires Legal(START, steps + [Step(now, ReserveNext)])
    requires Run(START, steps).store.queue != []
    ensures var y := Run(START, steps);
            var job := y.store.queue[|y.store.queue| - 1];
            && job.id in y.log.pushed
            && (job.attempts > y.log.pushed[job.id].attempts ==>
                  && job.id in y.log.failedAt
                  && now >= y.log.failedAt[job.id] + Min(60_000 * Pow2(job.attempts - 1), 86_400_000))
  {
    LegalConcat(START, steps, [Step(now, ReserveNext)]);
    StartInv();
    InvRun(START, steps);
    var y := Run(START, steps);
    var job := y.store.queue[|y.store.queue| - 1];
    assert In(y, job, Waiting) && Good(y, job, Waiting);
  }

  // --- Which crashed jobs come back -------------------------------------------------

  predicate RecordAlive(s: Store, id: string, now: int) { id in s.records && now < s.records[id].expiresAt }

  /** One recovery pass: an entry goes back to the queue exactly when its record is alive and stale. */
  lemma RecoveryExact(y: System, st: Step, j: Job)
    requires Reachable(y) && Enabled(y, st) && st.action.RecoverStalled? && j in y.store.processing
    ensures In(Next(y, st), j, Waiting)
            <==> RecordAlive(y.store, j.id, st.now) && st.now - y.store.records[j.id].updatedAt >= st.action.staleAfter
    ensures In(Next(y, st), j, Waiting) <==> !In(Next(y, st), j, Working)
  {
    ReachableInv(y);
    var s, z, stale := y.store, Next(y, st), st.action.staleAfter;
    SelectFate(s.processing, s.records, st.now, stale, Keep);
    SelectFate(s.processing, s.records, st.now, stale, Requeue);
    ReverseMembers(Select(s.processing, s.records, st.now, stale, Requeue));
    assert In(y, j, Working) && Good(y, j, Working);
    PlacedNext(y, st);
    assert Copies(z, j.id) == Pushed(z, j.id);
    if In(z, j, Waiting) && In(z, j, Working) {
      Unique(z, j, Waiting, j, Working);
    }
  }

  /** A processing entry nobody holds whose state record has expired. */
  ghost predicate Forgotten(y: System, j: Job) {
    && j in y.store.processing
    && y.held != Some(j)
    && !RecordAlive(y.store, j.id, y.clock)
  }

  lemma ForgottenNext(y: System, st: Step, j: Job)
    requires Inv(y) && Enabled(y, st) && Forgotten(y, j)
    ensures Forgotten(Next(y, st), j)
  {
    var s := y.store;
    assert In(y, j, Working) && Copies(y, j.id) == Pushed(y, j.id);
    match st.action
    case Push(_, _, _) =>
    case PromoteDue(_) =>
    case Crash =>
    case RecoverStalled(staleAfter) =>
      SelectFate(s.processing, s.records, st.now, staleAfter, Keep);
    case ReserveNext =>
      if s.queue != [] {
        var job := s.queue[|s.queue| - 1];
        assert In(y, job, Waiting);
        if job.id == j.id {
          Unique(y, j, Working, job, Waiting);
        }
      }
    case Finish(_) =>
      var job := y.held.value;
      assert In(y, job, Working);
      if job.id == j.id {
        Unique(y, j, Working, job, Working);
      }
      LRemMembers(s.processing, job);
  }

  /** Once its record has expired, a crashed job stays in the processing list through every later step. */
  lemma ForgottenForever(y: System, steps: seq<Step>, j: Job)
    requires Reachable(y) && Legal(y, steps) && Forgotten(y, j)
    ensures Forgotten(Run(y, steps), j)
  {
    ReachableInv(y);
    ForgottenFrom(y, steps, j);
  }

  lemma {:induction false} ForgottenFrom(y: System, steps: seq<Step>, j: Job)
    requires Inv(y) && Legal(y, steps) && Forgotten(y, j)
    ensures Forgotten(Run(y, steps), j)
    decreases |steps|
  {
    if steps == [] {
    } else {
      ForgottenNext(y, steps[0], j);
      InvNext(y, steps[0]);
      ForgottenFrom(Next(y, steps[0]), steps[1..], j);
    }
  }

  /** Such a job exists: crash right after reserving, and no recovery pass for a day. */
  lemma ForgottenReachable(req: Request)
    ensures var steps := [Step(0, Push(req, "a", 1)), Step(0, ReserveNext), Step(0, Crash), Step(RECORD_TTL_MS, Crash)];
            Legal(START, steps) && Forgotten(Run(START, steps), NewJob(req, "a", 0))
  {
    var job := NewJob(req, "a", 0);
    var a, b, c, d := Step(0, Push(req, "a", 1)), Step(0, ReserveNext), Step(0, Crash), Step(RECORD_TTL_MS, Crash);
    var y1 := Next(START, a);
    assert y1.store.queue == [job];
    var y2 := Next(y1, b);
    assert y2.store.processing == [job];
    var y3 := Next(y2, c);
    Unfold(y3, d, []);
    Unfold(y2, c, [d]);
    Unfold(y1, b, [c, d]);
    Unfold(START, a, [b, c, d]);
    assert [a] + [b, c, d] == [a, b, c, d] && [b] + [c, d] == [b, c, d] && [c] + [d] == [c, d] && [d] + [] == [d];
  }

  // --- Deduplication -----------------------------------------------------------------

  /** Pushed and not acknowledged: by conservation, exactly the ids with an entry in some list. */
  predicate Open(y: System, id: string) { id in y.log.pushed && id !in y.log.acked }

  ghost predicate OnePerKey(y: System) {
    forall a, b :: Open(y, a) && Open(y, b) && y.log.pushed[a].dedupeKey == y.log.pushed[b].dedupeKey ==> a == b
  }

  /** Every lock names an open job of its key. */
  ghost predicate LocksBacked(y: System) {
    forall key :: key in y.store.dedupe ==>
      var id := y.store.dedupe[key].id; Open(y, id) && y.log.pushed[id].dedupeKey == key
  }

  /** Every open job holds the lock of its key. */
  ghost predicate LocksHeld(y: System) {
    forall id :: Open(y, id) ==>
      var key := y.log.pushed[id].dedupeKey; key in y.store.dedupe && y.store.dedupe[key].id == id
  }

  ghost predicate Lapses(y: System, st: Step) {
    && st.action.Push?
    && var key := NewJob(st.action.req, st.action.id, st.now).dedupeKey;
    && !Locked(y.store, key, st.now)
    && exists id :: Open(y, id) && y.log.pushed[id].dedupeKey == key
  }

  lemma HeldIsOpen(y: System)
    requires Inv(y) && y.held.Some?
    ensures Open(y, y.held.value.id) && y.log.pushed[y.held.value.id].dedupeKey == y.held.value.dedupeKey
  {
    var job := y.held.value;
    assert In(y, job, Working) && Good(y, job, Working);
    if job.id in y.log.acked {
      assert Copies(y, job.id) == Pushed(y, job.id);
      Unique(y, job, Working, y.log.acked[job.id], Done);
    }
  }

  lemma FreshNotAcked(y: System, id: string)
    requires Inv(y) && id !in y.log.pushed
    ensures id !in y.log.acked
  {
    assert Copies(y, id) == Pushed(y, id);
  }

  /** The one step that breaks "one open job per key": a push after the lock lapsed before its job was done. */
  lemma OnePerKeyStep(y: System, st: Step)
    requires Inv(y) && Enabled(y, st) && OnePerKey(y)
    ensures OnePerKey(Next(y, st)) <==> !Lapses(y, st)
  {
    var z := Next(y, st);
    if st.action.Push? {
      var job := NewJob(st.action.req, st.action.id, st.now);
      FreshNotAcked(y, st.action.id);
      if Lapses(y, st) {
        var id :| Open(y, id) && y.log.pushed[id].dedupeKey == job.dedupeKey;
        assert Open(z, id) && Open(z, job.id);
      }
      forall id | Open(z, id) && id != job.id
        ensures Open(y, id)
      {}
    }
  }

  lemma OnePerKeyExact(y: System, st: Step)
    requires Reachable(y) && Enabled(y, st) && OnePerKey(y)
    ensures OnePerKey(Next(y, st)) <==> !Lapses(y, st)
  {
    ReachableInv(y);
    OnePerKeyStep(y, st);
  }

  ghost predicate NoLapse(y: System, steps: seq<Step>)
    decreases |steps|
  {
    steps == [] || (!Lapses(y, steps[0]) && NoLapse(Next(y, steps[0]), steps[1..]))
  }

  ghost predicate AlwaysOnePerKey(y: System, steps: seq<Step>)
    decreases |steps|
  {
    OnePerKey(y) && (steps == [] || AlwaysOnePerKey(Next(y, steps[0]), steps[1..]))
  }

  lemma {:induction false} OnePerKeyFrom(y: System, steps: seq<Step>)
    requires Inv(y) && OnePerKey(y) && Legal(y, steps)
    ensures AlwaysOnePerKey(y, steps) <==> NoLapse(y, steps)
    decreases |steps|
  {
    if steps == [] {
    } else {
      OnePerKeyStep(y, steps[0]);
      InvNext(y, steps[0]);
      if OnePerKey(Next(y, steps[0])) {
        OnePerKeyFrom(Next(y, steps[0]), steps[1..]);
      }
    }
  }

  /** There is at most one open job per payload in every state of a run if and only if no step of it lapses. */
  lemma OnePerKeyExactly(steps: seq<Step>)
    requires Legal(START, steps)
    ensures AlwaysOnePerKey(START, steps) <==> NoLapse(START, steps)
  {
    StartInv();
    OnePerKeyFrom(START, steps);
  }

  /** A run that lapses: the lock of the first push is over before anybody has taken its job. */
  lemma LapseReachable(req: Request)
    ensures var a, b := Step(0, Push(req, "a", 1)), Step(1, Push(req, "b", 1));
            && Legal(START, [a, b]) && Lapses(Run(START, [a]), b) && !OnePerKey(Run(START, [a, b]))
  {
    var a, b := Step(0, Push(req, "a", 1)), Step(1, Push(req, "b", 1));
    var y1 := Next(START, a);
    var y2 := Next(y1, b);
    Unfold(START, a, []);
    Unfold(y1, b, []);
    Unfold(START, a, [b]);
    assert [a] + [b] == [a, b] && [b] + [] == [b] && [a] + [] == [a];
    assert Open(y1, "a") && Open(y2, "a") && Open(y2, "b");
    assert y2.log.pushed["a"].dedupeKey == y2.log.pushed["b"].dedupeKey;
  }

  lemma PushLocks(y: System, st: Step)
    requires Inv(y) && Enabled(y, st) && LocksBacked(y) && st.action.Push?
    ensures LocksBacked(Next(y, st))
  {
    FreshNotAcked(y, st.action.id);
  }

  lemma FinishLocks(y: System, st: Step)
    requires Enabled(y, st) && LocksBacked(y) && st.action.Finish?
    requires var id := y.held.value.id; id in y.log.pushed && y.log.pushed[id].dedupeKey == y.held.value.dedupeKey
    ensures LocksBacked(Next(y, st))
  {
    var z, job := Next(y, st), y.held.value;
    assert z.log.pushed == y.log.pushed;
    if st.action.outcome.Delivered? {
      assert z.store.dedupe == y.store.dedupe - {job.dedupeKey} && z.log.acked == y.log.acked[job.id := job];
    } else {
      assert z.store.dedupe == y.store.dedupe && z.log.acked == y.log.acked;
    }
  }

  lemma LocksBackedNext(y: System, st: Step)
    requires Inv(y) && Enabled(y, st) && LocksBacked(y)
    ensures LocksBacked(Next(y, st))
  {
    match st.action
    case Push(_, _, _) => PushLocks(y, st);
    case Finish(_) =>
      HeldIsOpen(y);
      FinishLocks(y, st);
    case _ =>
      var z := Next(y, st);
      assert z.store.dedupe == y.store.dedupe && z.log.pushed == y.log.pushed && z.log.acked == y.log.acked;
  }

  lemma {:induction false} LocksBackedRun(y: System, steps: seq<Step>)
    requires Inv(y) && LocksBacked(y) && Legal(y, steps)
    ensures LocksBacked(Run(y, steps))
    decreases |steps|
  {
    if steps == [] {
    } else {
      LocksBackedNext(y, steps[0]);
      InvNext(y, steps[0]);
      LocksBackedRun(Next(y, steps[0]), steps[1..]);
    }
  }

  /** A push answered as a duplicate always has a job of the same payload behind it, somewhere in the lists. */
  lemma DuplicateIsBacked(steps: seq<Step>, req: Request, now: int)
    requires Legal(START, steps)
    requires Locked(Run(START, steps).store, DedupeKey(req.jobType, req.digest), now)
    ensures var y, key := Run(START, steps), DedupeKey(req.jobType, req.digest);
            && var id := y.store.dedupe[key].id;
            && Entries(y.store, id) == 1 && id in y.log.pushed && y.log.pushed[id].dedupeKey == key
  {
    StartInv();
    InvRun(START, steps);
    LocksBackedRun(START, steps);
    var y := Run(START, steps);
    var id := y.store.dedupe[DedupeKey(req.jobType, req.digest)].id;
    assert Open(y, id) && Copies(y, id) == Pushed(y, id);
  }

  lemma LocksHeldNext(y: System, st: Step)
    requires Inv(y) && Enabled(y, st) && LocksHeld(y) && OnePerKey(y) && !Lapses(y, st)
    ensures LocksHeld(Next(y, st))
  {
    if st.action.Finish? {
      HeldIsOpen(y);
    }
    if st.action.Push? {
      FreshNotAcked(y, st.action.id);
    }
  }

  lemma {:induction false} LocksHeldRun(y: System, steps: seq<Step>)
    requires Inv(y) && LocksHeld(y) && OnePerKey(y) && Legal(y, steps) && NoLapse(y, steps)
    ensures LocksHeld(Run(y, steps))
    decreases |steps|
  {
    if steps == [] {
    } else {
      LocksHeldNext(y, steps[0]);
      OnePerKeyStep(y, steps[0]);
      InvNext(y, steps[0]);
      LocksHeldRun(Next(y, steps[0]), steps[1..]);
    }
  }

  /** While no step lapses there is at most one open job per payload, and the key stores its id. */
  lemma OneJobPerPayload(steps: seq<Step>, j: Job, p: Place, k: Job, q: Place)
    requires Legal(START, steps) && NoLapse(START, steps)
    requires In(Run(START, steps), j, p) && p != Done && In(Run(START, steps), k, q) && q != Done
    requires j.dedupeKey == k.dedupeKey
    ensures j == k && p == q
    ensures var dedupe := Run(START, steps).store.dedupe; j.dedupeKey in dedupe && dedupe[j.dedupeKey].id == j.id
  {
    StartInv();
    InvRun(START, steps);
    LocksHeldRun(START, steps);
    var y := Run(START, steps);
    OpenEntry(y, j, p);
    OpenEntry(y, k, q);
    assert Copies(y, j.id) == Pushed(y, j.id);
    Unique(y, j, p, k, q);
  }

  /** An entry in one of the lists belongs to an open job of its payload. */
  lemma OpenEntry(y: System, j: Job, p: Place)
    requires Inv(y) && In(y, j, p) && p != Done
    ensures Open(y, j.id) && y.log.pushed[j.id].dedupeKey == j.dedupeKey
  {
    assert Good(y, j, p) && Copies(y, j.id) == Pushed(y, j.id);
    if j.id in y.log.acked {
      Unique(y, j, p, y.log.acked[j.id], Done);
    }
  }

  ghost predicate NoneExpired(y: System, now: int) {
    forall key :: key in y.store.dedupe ==> now < y.store.dedupe[key].expiresAt
  }

  /** No dedupe key expires during the run. */
  ghost predicate NeverExpires(y: System, steps: seq<Step>)
    decreases |steps|
  {
    steps == [] || (NoneExpired(y, steps[0].now) && NeverExpires(Next(y, steps[0]), steps[1..]))
  }

  /** In particular no step lapses while no key expires. */
  lemma {:induction false} UnexpiredNeverLapses(y: System, steps: seq<Step>)
    requires Inv(y) && LocksHeld(y) && OnePerKey(y) && Legal(y, steps) && NeverExpires(y, steps)
    ensures NoLapse(y, steps)
    decreases |steps|
  {
    if steps == [] {
    } else {
      assert !Lapses(y, steps[0]);
      LocksHeldNext(y, steps[0]);
      OnePerKeyStep(y, steps[0]);
      InvNext(y, steps[0]);
      UnexpiredNeverLapses(Next(y, steps[0]), steps[1..]);
    }
  }

  lemma NeverExpiresNoLapse(steps: seq<Step>)
    requires Legal(START, steps) && NeverExpires(START, steps)
    ensures NoLapse(START, steps)
  {
    StartInv();
    UnexpiredNeverLapses(START, steps);
  }

  // --- Dead letters --------------------------------------------------------------------------

  /** A dead letter keeps its lock: the same payload is swallowed if and only if that lock is still alive. */
  lemma DeadLetterSwallows(steps: seq<Step>, j: Job, st: Step)
    requires Legal(START, steps + [st]) && NoLapse(START, steps) && In(Run(START, steps), j, Buried)
    requires st.action.Push? && DedupeKey(st.action.req.jobType, st.action.req.digest) == j.dedupeKey
    ensures var s := Run(START, steps).store;
            && j.dedupeKey in s.dedupe && s.dedupe[j.dedupeKey].id == j.id
            && (Run(START, steps + [st]).store == s <==> st.now < s.dedupe[j.dedupeKey].expiresAt)
  {
    LegalConcat(START, steps, [st]);
    RunSnoc(START, steps, st);
    OneJobPerPayload(steps, j, Buried, j, Buried);
    var s := Run(START, steps).store;
    assert !Locked(s, j.dedupeKey, st.now) ==> |Next(Run(START, steps), st).store.queue| == |s.queue| + 1;
  }

  lemma {:induction false} RunSnoc(y: System, steps: seq<Step>, st: Step)
    ensures Run(y, steps + [st]) == Next(Run(y, steps), st)
    decreases |steps|
  {
    if steps == [] {
      assert [] + [st] == [st] && [st][1..] == [];
    } else {
      assert (steps + [st])[0] == steps[0] && (steps + [st])[1..] == steps[1..] + [st];
      RunSnoc(Next(y, steps[0]), steps[1..], st);
    }
  }

  /** The job id in the reply to a duplicate names no job: it has no entry anywhere, and the lock names another. */
  lemma DuplicateReplyNamesNoJob(steps: seq<Step>, st: Step)
    requires Legal(START, steps + [st]) && st.action.Push?
    requires Locked(Run(START, steps).store, DedupeKey(st.action.req.jobType, st.action.req.digest), st.now)
    ensures var z, key := Run(START, steps + [st]), DedupeKey(st.action.req.jobType, st.action.req.digest);
            && st.action.id !in z.log.pushed && Entries(z.store, st.action.id) == 0
            && key in z.store.dedupe && z.store.dedupe[key].id != st.action.id
  {
    LegalConcat(START, steps, [st]);
    RunSnoc(START, steps, st);
    DuplicateIsBacked(steps, st.action.req, st.now);
    ExactlyOnePlace(steps + [st], st.action.id);
  }

  /** What a dead job has cost: every attempt from the first, at least one, and one more run per recovery. */
  lemma RunsOfDeadJob(steps: seq<Step>, j: Job)
    requires Legal(START, steps) && In(Run(START, steps), j, Buried)
    ensures j.id in Run(START, steps).log.pushed
    ensures var log := Run(START, steps).log;
            var origin, runs := log.pushed[j.id], Tally(log.reserved, j.id) - Tally(log.recovered, j.id);
            && runs == Max(1, origin.maxAttempts - origin.attempts)
            && (runs <= origin.maxAttempts - origin.attempts <==> origin.attempts < origin.maxAttempts)
  {
    AttemptLedger(steps, j, Buried);
  }

  /** A job that allows no attempt at all is run once, then buried, and from then on swallows its payload. */
  lemma NoAttemptsStillRuns(req: Request, message: string)
    requires req.maxAttempts == Some(0) && req.attempts == None
    ensures var steps := [Step(0, Push(req, "a", 9)), Step(0, ReserveNext), Step(1, Finish(Failed(message)))];
            var y := Run(START, steps);
            && Legal(START, steps) && In(y, NewJob(req, "a", 0), Buried) && Tally(y.log.reserved, "a") == 1
            && Next(y, Step(2, Push(req, "b", 9))).store == y.store
  {
    var job := NewJob(req, "a", 0);
    var a, b, c := Step(0, Push(req, "a", 9)), Step(0, ReserveNext), Step(1, Finish(Failed(message)));
    var y1 := Next(START, a);
    assert y1.store.queue == [job];
    var y2 := Next(y1, b);
    assert y2.store.processing == [job] && y2.held == Some(job);
    var y3 := Next(y2, c);
    DeadCons(DeadJob(job, 1, message), []);
    assert y3.store.dlq == [DeadJob(job, 1, message)] + [];
    assert DeadJobs(y3.store.dlq)[0] == job;
    Unfold(y2, c, []);
    Unfold(y1, b, [c]);
    Unfold(START, a, [b, c]);
    assert [a] + [b, c] == [a, b, c] && [b] + [c] == [b, c] && [c] + [] == [c];
  }
}
