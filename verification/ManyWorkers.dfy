/**
 * Every run of the queue with any number of workers, slow ones included, each queue call being one
 * step and crashes striking between them (`InterleavedCommands` takes the calls apart).
 *
 * Nothing orders the workers: a recovery pass may requeue a job whose worker is merely
 * slow, and then two workers hold copies of it (module `Overtaking` says exactly when).
 * What holds in every run is that no pushed job disappears before it was acknowledged.
 */
module ManyWorkers {
  import opened Common
  import opened CommunicationQueue
  import opened JobCounts

  datatype System = System(store: Store, held: map<nat, Job>, clock: int, pushed: map<string, Job>, acked: set<string>)

  const START: System := System(EMPTY, map[], 0, map[], {})

  datatype Action =
    | Push(req: Request, id: string, ttl: int)
    | PromoteDue(batch: seq<Job>)
    | RecoverStalled(staleAfter: int)
    | ReserveNext(worker: nat)
    | Finish(worker: nat, outcome: Outcome)
    | Crash(worker: nat)

  datatype Step = Step(now: int, action: Action)

  ghost predicate Enabled(y: System, st: Step) {
    && y.clock <= st.now
    && match st.action
       case Push(_, id, _) => id !in y.pushed
       case PromoteDue(batch) => IsDueBatch(y.store.delayed, st.now, batch)
       case RecoverStalled(_) => true
       case ReserveNext(w) => w !in y.held
       case Finish(w, _) => w in y.held
       case Crash(_) => true
  }

  function Next(y: System, st: Step): System {
    var s, now := y.store, st.now;
    match st.action
    case Push(req, id, ttl) =>
      var job := NewJob(req, id, now);
      y.(store := Enqueue(s, req, id, now, ttl), clock := now,
         pushed := if Locked(s, job.dedupeKey, now) then y.pushed else y.pushed[id := job])
    case PromoteDue(batch) => y.(store := Promote(s, batch), clock := now)
    case RecoverStalled(staleAfter) => y.(store := Recover(s, now, staleAfter), clock := now)
    case ReserveNext(w) =>
      y.(store := Reserve(s, now), clock := now,
         held := if s.queue == [] then y.held else y.held[w := s.queue[|s.queue| - 1]])
    case Finish(w, outcome) =>
      if w !in y.held then y
      else
        y.(store := Handle(s, y.held[w], outcome, now), clock := now, held := y.held - {w},
           acked := if outcome.Delivered? then y.acked + {y.held[w].id} else y.acked)
    case Crash(w) => y.(held := y.held - {w}, clock := now)
  }

  ghost predicate Legal(y: System, steps: seq<Step>)
    decreases |steps|
  {
    steps == [] || (Enabled(y, steps[0]) && Legal(Next(y, steps[0]), steps[1..]))
  }

  function Run(y: System, steps: seq<Step>): System
    decreases |steps|
  {
    if steps == [] then y else Run(Next(y, steps[0]), steps[1..])
  }

  lemma Unfold(y: System, st: Step, rest: seq<Step>)
    requires Enabled(y, st) && Legal(Next(y, st), rest)
    ensures Legal(y, [st] + rest) && Run(y, [st] + rest) == Run(Next(y, st), rest)
  {
    assert ([st] + rest)[1..] == rest;
  }

  // --- No loss -------------------------------------------------------------------

  ghost predicate Kept(y: System, id: string) {
    id in y.acked || Entries(y.store, id) > 0
  }

  /**
   * The side condition recovery relies on: it discards an entry on the word of
   * its state record, so the record must be right.
   */
  ghost predicate Truthful(y: System, id: string) {
    id in y.store.records ==>
      && (y.store.records[id].phase == Sent ==> id in y.acked)
      && (y.store.records[id].phase == Dead ==> Count(DeadJobs(y.store.dlq), id) > 0)
  }

  lemma TruthfulNext(y: System, st: Step, id: string)
    requires Truthful(y, id) && Enabled(y, st)
    ensures Truthful(Next(y, st), id)
  {
    if st.action.Finish? {
      var job := y.held[st.action.worker];
      match st.action.outcome
      case Delivered =>
      case Failed(message) =>
        var dead := DeadJob(job, st.now, message);
        assert DeadJobs([dead] + y.store.dlq) == [job] + DeadJobs(y.store.dlq);
        CountConcat([job], DeadJobs(y.store.dlq), id);
        CountOne(job, id);
    }
  }

  lemma RecoverKeeps(y: System, st: Step, id: string)
    requires Enabled(y, st) && st.action.RecoverStalled? && Kept(y, id) && Truthful(y, id)
    ensures Kept(Next(y, st), id)
  {
    var s, stale := y.store, st.action.staleAfter;
    var dropped := Select(s.processing, s.records, st.now, stale, Discard);
    RecoverEntries(s, st.now, stale, id);
    SelectFate(s.processing, s.records, st.now, stale, Discard);
    CountPositive(dropped, id);
    if Count(dropped, id) > 0 {
      var j :| j in dropped && j.id == id;
      assert s.records[id].phase in {Sent, Dead};
      assert Next(y, st).store.dlq == s.dlq;
    }
  }

  lemma FinishKeeps(y: System, st: Step, id: string)
    requires Enabled(y, st) && st.action.Finish? && Kept(y, id)
    ensures Kept(Next(y, st), id)
  {
    var s, job, now := y.store, y.held[st.action.worker], st.now;
    match st.action.outcome
    case Delivered => AcknowledgeEntries(s, job, now, id);
    case Failed(message) =>
      if job.attempts + 1 < job.maxAttempts {
        var parked := Delayed(job, Backoff(job.attempts), Some(message), now);
        ScheduleRetryEntries(s, job, Backoff(job.attempts), Some(message), now, id);
        if parked in s.delayed && parked.id == id {
          assert parked in DelayedOf(Next(y, st).store.delayed, id);
        }
      } else {
        MoveToDlqEntries(s, job, message, now, id);
      }
  }

  lemma KeptNext(y: System, st: Step, id: string)
    requires Enabled(y, st) && Truthful(y, id) && (id in y.pushed ==> Kept(y, id))
    ensures id in Next(y, st).pushed ==> Kept(Next(y, st), id)
  {
    match st.action
    case Push(req, job, ttl) => EnqueueEntries(y.store, req, job, st.now, ttl, id);
    case PromoteDue(batch) => PromoteEntries(y.store, st.now, batch, id);
    case RecoverStalled(_) => if id in y.pushed { RecoverKeeps(y, st, id); }
    case ReserveNext(_) => ReserveEntries(y.store, st.now, id);
    case Finish(_, _) => if id in y.pushed { FinishKeeps(y, st, id); }
    case Crash(_) =>
  }

  lemma {:induction false} KeptRun(y: System, steps: seq<Step>, id: string)
    requires Legal(y, steps) && Truthful(y, id) && (id in y.pushed ==> Kept(y, id))
    ensures Truthful(Run(y, steps), id) && (id in Run(y, steps).pushed ==> Kept(Run(y, steps), id))
    decreases |steps|
  {
    if steps == [] {
    } else {
      TruthfulNext(y, steps[0], id);
      KeptNext(y, steps[0], id);
      KeptRun(Next(y, steps[0]), steps[1..], id);
    }
  }

  /** No run loses a job: every pushed id is in some list or was acknowledged. */
  lemma NoJobIsLost(steps: seq<Step>, id: string)
    requires Legal(START, steps) && id in Run(START, steps).pushed
    ensures var y := Run(START, steps); id in y.acked || Entries(y.store, id) > 0
  {
    KeptRun(START, steps, id);
  }

  // --- Nothing is invented ----------------------------------------------------------

  predicate Anywhere(y: System, j: Job) {
    || j in y.store.queue || j in y.store.processing || j in y.store.delayed
    || j in DeadJobs(y.store.dlq) || j in y.held.Values
  }

  predicate Traced(y: System, j: Job) {
    && j.id in y.pushed
    && var origin := y.pushed[j.id];
    && SameWork(j, origin) && origin.attempts <= j.attempts <= Max(origin.attempts, origin.maxAttempts - 1)
  }

  ghost predicate AllTraced(y: System) {
    && (forall j :: Anywhere(y, j) ==> Traced(y, j))
    && (forall id :: id in y.acked ==> id in y.pushed)
  }

  /** Where an entry of the next state comes from. */
  lemma Source(y: System, st: Step, j: Job)
    requires Enabled(y, st) && Anywhere(Next(y, st), j)
    ensures || Anywhere(y, j)
            || (st.action.Push? && j == NewJob(st.action.req, st.action.id, st.now))
            || (st.action.Finish? && st.action.outcome.Failed? && st.action.worker in y.held
                && var job := y.held[st.action.worker];
                   job.attempts + 1 < job.maxAttempts
                   && j == Delayed(job, Backoff(job.attempts), Some(st.action.outcome.message), st.now))
  {
    var s, z := y.store, Next(y, st);
    match st.action
    case Push(_, _, _) =>
    case Crash(_) =>
    case PromoteDue(batch) =>
      ReverseMembers(batch);
      assert forall i :: 0 <= i < |batch| ==> Due(s.delayed, batch[i], st.now);
    case RecoverStalled(stale) =>
      SelectFate(s.processing, s.records, st.now, stale, Keep);
      SelectFate(s.processing, s.records, st.now, stale, Requeue);
      ReverseMembers(Select(s.processing, s.records, st.now, stale, Requeue));
    case ReserveNext(w) =>
    case Finish(w, outcome) =>
      LRemMembers(s.processing, y.held[w]);
      if outcome.Failed? {
        var dead := DeadJob(y.held[w], st.now, outcome.message);
        assert DeadJobs([dead] + s.dlq) == [y.held[w]] + DeadJobs(s.dlq);
      }
  }

  lemma AllTracedNext(y: System, st: Step)
    requires AllTraced(y) && Enabled(y, st)
    ensures AllTraced(Next(y, st))
  {
    forall j | Anywhere(Next(y, st), j)
      ensures Traced(Next(y, st), j)
    {
      Source(y, st, j);
      if st.action.Finish? {
        assert Anywhere(y, y.held[st.action.worker]);
      }
      if st.action.Push? && !Anywhere(y, j) {
        assert j in Next(y, st).store.queue;
      }
    }
    if st.action.Finish? {
      assert Anywhere(y, y.held[st.action.worker]);
    }
  }

  lemma {:induction false} AllTracedRun(y: System, steps: seq<Step>)
    requires AllTraced(y) && Legal(y, steps)
    ensures AllTraced(Run(y, steps))
    decreases |steps|
  {
    if steps == [] {
    } else {
      AllTracedNext(y, steps[0]);
      AllTracedRun(Next(y, steps[0]), steps[1..]);
    }
  }

  /** Every entry, duplicate or not, is a pushed job with its work unchanged and its attempts within bounds. */
  lemma NothingInvented(steps: seq<Step>, j: Job)
    requires Legal(START, steps) && Anywhere(Run(START, steps), j)
    ensures Traced(Run(START, steps), j)
    ensures Run(START, steps).acked <= Run(START, steps).pushed.Keys
  {
    AllTracedRun(START, steps);
  }

  // --- Order ----------------------------------------------------------------------------

  /** The job a step hands to a worker. */
  function Handed(y: System, st: Step): seq<Job> {
    if st.action.ReserveNext? && y.store.queue != [] then [y.store.queue[|y.store.queue| - 1]] else []
  }

  /** The jobs a step puts on the queue, the one to be handed out first coming first. */
  function Arriving(y: System, st: Step): seq<Job> {
    match st.action
    case Push(req, id, _) =>
      if Locked(y.store, NewJob(req, id, st.now).dedupeKey, st.now) then [] else [NewJob(req, id, st.now)]
    case PromoteDue(batch) => batch
    case RecoverStalled(staleAfter) => Select(y.store.processing, y.store.records, st.now, staleAfter, Requeue)
    case _ => []
  }

  function AllHanded(y: System, steps: seq<Step>): seq<Job>
    decreases |steps|
  {
    if steps == [] then [] else Handed(y, steps[0]) + AllHanded(Next(y, steps[0]), steps[1..])
  }

  function AllArriving(y: System, steps: seq<Step>): seq<Job>
    decreases |steps|
  {
    if steps == [] then [] else Arriving(y, steps[0]) + AllArriving(Next(y, steps[0]), steps[1..])
  }

  lemma {:induction false} ReverseConcat(a: seq<Job>, b: seq<Job>)
    ensures Reverse(a + b) == Reverse(b) + Reverse(a)
    decreases |b|
  {
    if b == [] {
      assert a + b == a;
    } else {
      assert (a + b)[..|a + b| - 1] == a + b[..|b| - 1];
      ReverseConcat(a, b[..|b| - 1]);
    }
  }

  lemma {:induction false} ReverseTwice(a: seq<Job>)
    ensures Reverse(Reverse(a)) == a
    decreases |a|
  {
    if a == [] {
    } else {
      var init, last := a[..|a| - 1], a[|a| - 1];
      ReverseConcat([last], Reverse(init));
      ReverseOne(last);
      ReverseTwice(init);
      assert a == init + [last];
    }
  }

  lemma ReverseOne(j: Job)
    ensures Reverse([j]) == [j]
  {
    assert [j][..0] == [];
  }

  lemma Joins(arriving: seq<Job>, q: seq<Job>)
    ensures Reverse(Reverse(arriving) + q) == Reverse(q) + arriving
  {
    ReverseConcat(Reverse(arriving), q);
    ReverseTwice(arriving);
  }

  lemma PushLine(s: Store, req: Request, id: string, now: int, ttl: int)
    ensures Reverse(Enqueue(s, req, id, now, ttl).queue)
         == Reverse(s.queue) + if Locked(s, NewJob(req, id, now).dedupeKey, now) then [] else [NewJob(req, id, now)]
  {
    ReverseConcat([NewJob(req, id, now)], s.queue);
    ReverseOne(NewJob(req, id, now));
  }

  lemma ReserveLine(s: Store, now: int)
    requires s.queue != []
    ensures [s.queue[|s.queue| - 1]] + Reverse(Reserve(s, now).queue) == Reverse(s.queue)
  {}

  lemma HandleLeavesQueue(s: Store, job: Job, outcome: Outcome, now: int)
    ensures Handle(s, job, outcome, now).queue == s.queue
  {}

  /** What a step does to the queue. */
  lemma ArrivalStep(y: System, st: Step)
    requires st.action.Push? || st.action.PromoteDue? || st.action.RecoverStalled?
    ensures Reverse(Next(y, st).store.queue) == Reverse(y.store.queue) + Arriving(y, st)
  {
    var s := y.store;
    match st.action
    case Push(req, id, ttl) => PushLine(s, req, id, st.now, ttl);
    case PromoteDue(batch) => Joins(batch, s.queue);
    case RecoverStalled(staleAfter) => Joins(Select(s.processing, s.records, st.now, staleAfter, Requeue), s.queue);
  }

  lemma ReserveStep(y: System, st: Step)
    requires st.action.ReserveNext?
    ensures Handed(y, st) + Reverse(Next(y, st).store.queue) == Reverse(y.store.queue)
  {
    if y.store.queue == [] {
      assert [] + Reverse(y.store.queue) == Reverse(y.store.queue);
    } else {
      ReserveLine(y.store, st.now);
    }
  }

  lemma OtherStep(y: System, st: Step)
    requires st.action.Finish? || st.action.Crash?
    ensures Next(y, st).store.queue == y.store.queue
  {
    if st.action.Finish? && st.action.worker in y.held {
      HandleLeavesQueue(y.store, y.held[st.action.worker], st.action.outcome, st.now);
    }
  }

  /** A step hands out the front of the line and lets arrivals join at its end. */
  lemma LineStep(y: System, st: Step)
    ensures Handed(y, st) + Reverse(Next(y, st).store.queue) == Reverse(y.store.queue) + Arriving(y, st)
  {
    if st.action.Push? || st.action.PromoteDue? || st.action.RecoverStalled? {
      ArrivalStep(y, st);
    } else if st.action.ReserveNext? {
      ReserveStep(y, st);
    } else {
      OtherStep(y, st);
    }
  }

  /**
   * First come, first served, over any run: the jobs handed out and then those still waiting are
   * the jobs that waited at the start and then those that came, in the very same order.
   */
  lemma {:induction false} FirstComeFirstServed(y: System, steps: seq<Step>)
    ensures AllHanded(y, steps) + Reverse(Run(y, steps).store.queue) == Reverse(y.store.queue) + AllArriving(y, steps)
    decreases |steps|
  {
    if steps == [] {
    } else {
      var next := Next(y, steps[0]);
      LineStep(y, steps[0]);
      FirstComeFirstServed(next, steps[1..]);
      Chained(Handed(y, steps[0]), AllHanded(next, steps[1..]), Reverse(Run(next, steps[1..]).store.queue),
              Reverse(y.store.queue), Arriving(y, steps[0]), AllArriving(next, steps[1..]), Reverse(next.store.queue));
    }
  }

  lemma Chained(out: seq<Job>, outs: seq<Job>, end: seq<Job>, start: seq<Job>,
                arriving: seq<Job>, arrivals: seq<Job>, mid: seq<Job>)
    requires out + mid == start + arriving && outs + end == mid + arrivals
    ensures (out + outs) + end == start + (arriving + arrivals)
  {
    assert (out + outs) + end == out + (outs + end);
    assert out + (mid + arrivals) == (out + mid) + arrivals;
    assert (start + arriving) + arrivals == start + (arriving + arrivals);
  }
}
