/**
 * When several workers deliver each job once.  Recovery cannot tell a slow worker from a dead
 * one: it requeues every stale entry, also one that a worker still has in hand.  With each queue
 * call as one indivisible step, any number of workers conserve jobs exactly as long as no recovery
 * pass does that.  Calls that overlap can copy a job as well: `InterleavedCommands` has those.
 */
module Overtaking {
  import opened Common
  import opened CommunicationQueue
  import opened JobCounts
  import opened ManyWorkers

  function Copies(y: System, id: string): nat { Entries(y.store, id) + One(id in y.acked) }

  /** Each pushed id is in exactly one of queue, processing, delayed, dead letters or acknowledged, once. */
  ghost predicate Conserved(y: System) {
    forall id :: Copies(y, id) == One(id in y.pushed)
  }

  /** Every job in hand is being processed, and nobody else has it in hand. */
  ghost predicate HeldAlone(y: System) {
    && (forall w :: w in y.held ==> y.held[w] in y.store.processing)
    && (forall w, x :: w in y.held && x in y.held && y.held[w].id == y.held[x].id ==> w == x)
  }

  ghost predicate RecordsAgree(s: Store) {
    forall j :: j in s.processing && j.id in s.records ==> s.records[j.id].phase == InProcess
  }

  ghost predicate Exclusive(y: System) { Conserved(y) && HeldAlone(y) && RecordsAgree(y.store) }

  /** The step is a recovery pass that finds a job in some worker's hand stale. */
  ghost predicate Overtakes(y: System, st: Step) {
    st.action.RecoverStalled?
    && exists w :: w in y.held && FateOf(y.store.records, y.held[w], st.now, st.action.staleAfter) == Requeue
  }

  // --- Steps that do not overtake ---------------------------------------------------------

  /** Two entries with one id would be two copies. */
  lemma OnlyCopy(y: System, j: Job)
    requires Conserved(y) && j in y.store.processing
    ensures j.id in y.pushed && j.id !in y.acked
    ensures Count(y.store.processing, j.id) == 1 && Count(y.store.queue, j.id) == 0
    ensures DelayedOf(y.store.delayed, j.id) == {}
    ensures forall k :: k in y.store.processing && k.id == j.id ==> k == j
  {
    assert Copies(y, j.id) == One(j.id in y.pushed);
    CountPositive(y.store.processing, j.id);
    forall k | k in y.store.processing && k.id == j.id ensures k == j {
      if k != j {
        CountTwo(y.store.processing, j, k);
      }
    }
  }

  lemma RecoveryConserves(y: System, st: Step)
    requires Exclusive(y) && Enabled(y, st) && st.action.RecoverStalled?
    ensures Conserved(Next(y, st)) && RecordsAgree(Next(y, st).store)
  {
    var s, stale := y.store, st.action.staleAfter;
    SelectFate(s.processing, s.records, st.now, stale, Keep);
    SelectFate(s.processing, s.records, st.now, stale, Discard);
    forall id ensures Copies(Next(y, st), id) == One(id in Next(y, st).pushed) {
      assert Copies(y, id) == One(id in y.pushed);
      RecoverEntries(s, st.now, stale, id);
      CountPositive(Select(s.processing, s.records, st.now, stale, Discard), id);
    }
  }

  lemma ReserveExclusive(y: System, st: Step)
    requires Exclusive(y) && Enabled(y, st) && st.action.ReserveNext?
    ensures Exclusive(Next(y, st))
  {
    var z := Next(y, st);
    forall id ensures Copies(z, id) == One(id in z.pushed) {
      assert Copies(y, id) == One(id in y.pushed);
      ReserveEntries(y.store, st.now, id);
    }
    if y.store.queue != [] {
      var job := y.store.queue[|y.store.queue| - 1];
      CountPositive(y.store.queue, job.id);
      forall j | j in y.store.processing ensures j.id != job.id {
        OnlyCopy(y, j);
      }
    }
  }

  lemma FinishConserves(y: System, st: Step)
    requires Exclusive(y) && Enabled(y, st) && st.action.Finish?
    ensures Conserved(Next(y, st))
  {
    var s, job, now := y.store, y.held[st.action.worker], st.now;
    OnlyCopy(y, job);
    forall id ensures Copies(Next(y, st), id) == One(id in Next(y, st).pushed) {
      assert Copies(y, id) == One(id in y.pushed);
      match st.action.outcome
      case Delivered => AcknowledgeEntries(s, job, now, id);
      case Failed(message) =>
        if job.attempts + 1 < job.maxAttempts {
          var parked := Delayed(job, Backoff(job.attempts), Some(message), now);
          assert parked !in DelayedOf(s.delayed, job.id);
          ScheduleRetryEntries(s, job, Backoff(job.attempts), Some(message), now, id);
        } else {
          MoveToDlqEntries(s, job, message, now, id);
        }
    }
  }

  /** Taking out the only entry with an id leaves exactly the entries with other ids. */
  lemma LRemOnly(list: seq<Job>, job: Job)
    requires job in list && Count(list, job.id) == 1
    ensures forall j :: j in LRem(list, job) <==> j in list && j.id != job.id
  {
    LRemMembers(list, job);
    CountLRem(list, job, job.id);
    CountPositive(LRem(list, job), job.id);
  }

  /** What finishing leaves: the hand empty, the entries with other ids, and their records as they were. */
  ghost predicate Finished(y: System, z: System, w: nat)
    requires w in y.held
  {
    var id := y.held[w].id;
    && z.held == y.held - {w}
    && (forall j :: j in z.store.processing <==> j in y.store.processing && j.id != id)
    && (forall other :: other != id && other in z.store.records ==>
          other in y.store.records && z.store.records[other] == y.store.records[other])
  }

  lemma FinishLeaves(y: System, st: Step)
    requires st.action.Finish? && st.action.worker in y.held
    requires var job := y.held[st.action.worker];
             job in y.store.processing && Count(y.store.processing, job.id) == 1
    ensures Finished(y, Next(y, st), st.action.worker)
  {
    LRemOnly(y.store.processing, y.held[st.action.worker]);
  }

  lemma FinishedAlone(y: System, z: System, w: nat)
    requires HeldAlone(y) && RecordsAgree(y.store) && w in y.held && Finished(y, z, w)
    ensures HeldAlone(z) && RecordsAgree(z.store)
  {}

  lemma FinishHeldAlone(y: System, st: Step)
    requires Exclusive(y) && Enabled(y, st) && st.action.Finish?
    ensures HeldAlone(Next(y, st)) && RecordsAgree(Next(y, st).store)
  {
    OnlyCopy(y, y.held[st.action.worker]);
    FinishLeaves(y, st);
    FinishedAlone(y, Next(y, st), st.action.worker);
  }

  lemma PushExclusive(y: System, st: Step)
    requires Exclusive(y) && Enabled(y, st) && st.action.Push?
    ensures Exclusive(Next(y, st))
  {
    forall id ensures Copies(Next(y, st), id) == One(id in Next(y, st).pushed) {
      assert Copies(y, id) == One(id in y.pushed);
      EnqueueEntries(y.store, st.action.req, st.action.id, st.now, st.action.ttl, id);
    }
  }

  lemma PromoteExclusive(y: System, st: Step)
    requires Exclusive(y) && Enabled(y, st) && st.action.PromoteDue?
    ensures Exclusive(Next(y, st))
  {
    forall id ensures Copies(Next(y, st), id) == One(id in Next(y, st).pushed) {
      assert Copies(y, id) == One(id in y.pushed);
      PromoteEntries(y.store, st.now, st.action.batch, id);
    }
  }

  // --- Exactly the overtaking steps break it ----------------------------------------------------

  /** Recovery puts a job in hand back on the queue, its worker still having it, if and only if it finds it stale. */
  lemma OvertakenWaits(y: System, st: Step, w: nat)
    requires Exclusive(y) && Enabled(y, st) && st.action.RecoverStalled? && w in y.held
    ensures var z, job := Next(y, st), y.held[w];
            && z.held == y.held
            && (job in z.store.queue <==> FateOf(y.store.records, job, st.now, st.action.staleAfter) == Requeue)
            && (job in z.store.processing <==> job !in z.store.queue)
  {
    var s, stale, job := y.store, st.action.staleAfter, y.held[w];
    OnlyCopy(y, job);
    CountPositive(s.queue, job.id);
    SelectFate(s.processing, s.records, st.now, stale, Keep);
    SelectFate(s.processing, s.records, st.now, stale, Requeue);
    ReverseMembers(Select(s.processing, s.records, st.now, stale, Requeue));
  }

  lemma ExclusiveStep(y: System, st: Step)
    requires Exclusive(y) && Enabled(y, st)
    ensures Exclusive(Next(y, st)) <==> !Overtakes(y, st)
  {
    match st.action
    case Push(_, _, _) => PushExclusive(y, st);
    case PromoteDue(_) => PromoteExclusive(y, st);
    case ReserveNext(_) => ReserveExclusive(y, st);
    case Finish(_, _) =>
      FinishConserves(y, st);
      FinishHeldAlone(y, st);
    case Crash(_) =>
      assert forall id :: Copies(Next(y, st), id) == Copies(y, id);
    case RecoverStalled(_) =>
      RecoveryConserves(y, st);
      forall w | w in y.held
        ensures Next(y, st).held == y.held
        ensures y.held[w] in Next(y, st).store.processing
                <==> FateOf(y.store.records, y.held[w], st.now, st.action.staleAfter) != Requeue
      {
        OvertakenWaits(y, st, w);
      }
  }

  // --- Runs --------------------------------------------------------------------------------------

  ghost predicate NoOvertaking(y: System, steps: seq<Step>)
    decreases |steps|
  {
    steps == [] || (!Overtakes(y, steps[0]) && NoOvertaking(Next(y, steps[0]), steps[1..]))
  }

  ghost predicate AlwaysExclusive(y: System, steps: seq<Step>)
    decreases |steps|
  {
    Exclusive(y) && (steps == [] || AlwaysExclusive(Next(y, steps[0]), steps[1..]))
  }

  lemma {:induction false} ExclusiveFrom(y: System, steps: seq<Step>)
    requires Exclusive(y) && Legal(y, steps)
    ensures AlwaysExclusive(y, steps) <==> NoOvertaking(y, steps)
    ensures NoOvertaking(y, steps) ==> Exclusive(Run(y, steps))
    decreases |steps|
  {
    if steps == [] {
    } else {
      ExclusiveStep(y, steps[0]);
      if Exclusive(Next(y, steps[0])) {
        ExclusiveFrom(Next(y, steps[0]), steps[1..]);
      }
    }
  }

  lemma StartExclusive()
    ensures Exclusive(START)
  {
    forall id ensures Copies(START, id) == 0 {
      assert DelayedOf(START.store.delayed, id) == {};
    }
  }

  /**
   * Any number of workers, their queue calls not overlapping: every state of a run conserves jobs, each in one hand
   * at most, if and only if no step overtakes.
   */
  lemma ExclusiveExactly(steps: seq<Step>)
    requires Legal(START, steps)
    ensures AlwaysExclusive(START, steps) <==> NoOvertaking(START, steps)
  {
    StartExclusive();
    ExclusiveFrom(START, steps);
  }

  /** Without overtaking, or calls that overlap, a pushed id is in exactly one place, once. */
  lemma ExactlyOnePlace(steps: seq<Step>, id: string)
    requires Legal(START, steps) && NoOvertaking(START, steps)
    ensures var y := Run(START, steps); Entries(y.store, id) + One(id in y.acked) == One(id in y.pushed)
  {
    StartExclusive();
    ExclusiveFrom(START, steps);
    assert Copies(Run(START, steps), id) == One(id in Run(START, steps).pushed);
  }

  // --- Deliveries -----------------------------------------------------------------------------------

  predicate Delivers(y: System, st: Step, id: string) {
    st.action.Finish? && st.action.outcome.Delivered? && st.action.worker in y.held && y.held[st.action.worker].id == id
  }

  /** How often the run delivers a job. */
  function Deliveries(y: System, steps: seq<Step>, id: string): nat
    decreases |steps|
  {
    if steps == [] then 0 else One(Delivers(y, steps[0], id)) + Deliveries(Next(y, steps[0]), steps[1..], id)
  }

  lemma DeliveryStep(y: System, st: Step, id: string)
    requires Exclusive(y) && Enabled(y, st)
    ensures One(Delivers(y, st, id)) + One(id in y.acked) == One(id in Next(y, st).acked)
  {
    if Delivers(y, st, id) {
      OnlyCopy(y, y.held[st.action.worker]);
    }
  }

  lemma {:induction false} DeliveriesFrom(y: System, steps: seq<Step>, id: string)
    requires Exclusive(y) && Legal(y, steps) && NoOvertaking(y, steps)
    ensures Deliveries(y, steps, id) + One(id in y.acked) == One(id in Run(y, steps).acked)
    decreases |steps|
  {
    if steps == [] {
    } else {
      DeliveryStep(y, steps[0], id);
      ExclusiveStep(y, steps[0]);
      DeliveriesFrom(Next(y, steps[0]), steps[1..], id);
    }
  }

  /** Without overtaking a job is delivered and acknowledged at most once; here these two are one step. */
  lemma DeliveredOnce(steps: seq<Step>, id: string)
    requires Legal(START, steps) && NoOvertaking(START, steps)
    ensures Deliveries(START, steps, id) == One(id in Run(START, steps).acked)
  {
    StartExclusive();
    DeliveriesFrom(START, steps, id);
  }

  // --- A run that overtakes ---------------------------------------------------------------------------

  lemma SelectOne(job: Job, records: map<string, Record>, now: int, staleAfter: int, fate: Fate)
    ensures Select([job], records, now, staleAfter, fate)
         == if FateOf(records, job, now, staleAfter) == fate then [job] else []
    ensures Reverse([job]) == [job] && Reverse([]) == []
  {
    assert [job][..0] == [];
    assert Select([job][..0], records, now, staleAfter, fate) == [];
  }

  /** Both workers report success. */
  function BothFinish(): seq<Step> {
    [Step(300_001, Finish(1, Delivered))] + ([Step(300_002, Finish(2, Delivered))] + [])
  }

  /** Recovery finds the job stale after its five minutes, and a second worker takes it. */
  function Overtaken(): seq<Step> {
    [Step(300_000, RecoverStalled(300_000))] + ([Step(300_000, ReserveNext(2))] + BothFinish())
  }

  function SlowRun(req: Request): seq<Step> {
    [Step(0, Push(req, "a", 1))] + ([Step(0, ReserveNext(1))] + Overtaken())
  }

  /** A slow worker's job is requeued, reserved by another worker, and delivered by both. */
  lemma SlowWorkerDeliversTwice(req: Request)
    ensures Legal(START, SlowRun(req)) && Deliveries(START, SlowRun(req), "a") == 2
  {
    var a, b := Step(0, Push(req, "a", 1)), Step(0, ReserveNext(1));
    var y1 := Next(START, a);
    var y2 := Next(y1, b);
    SlowStart(req, y1, y2);
    SlowRest(req, y2);
    NotDelivering(y1, b, y2, Overtaken(), "a");
    NotDelivering(START, a, y1, [b] + Overtaken(), "a");
  }

  lemma SlowRest(req: Request, y2: System)
    requires var job := NewJob(req, "a", 0);
             && y2.clock == 0 && y2.held == map[1 := job] && y2.store.processing == [job] && y2.store.queue == []
             && y2.store.records == map["a" := Record(InProcess, 0, job.attempts, RECORD_TTL_MS)]
    ensures Legal(y2, Overtaken()) && Deliveries(y2, Overtaken(), "a") == 2
  {
    var c, d := Step(300_000, RecoverStalled(300_000)), Step(300_000, ReserveNext(2));
    var y3 := Next(y2, c);
    var y4 := Next(y3, d);
    SlowOvertaken(req, y2, y3, y4);
    SlowEnd(req, y4);
    NotDelivering(y3, d, y4, BothFinish(), "a");
    NotDelivering(y2, c, y3, [d] + BothFinish(), "a");
  }

  lemma Delivering(y: System, st: Step, rest: seq<Step>, id: string)
    requires Enabled(y, st) && Legal(Next(y, st), rest)
    ensures Legal(y, [st] + rest)
    ensures Deliveries(y, [st] + rest, id) == One(Delivers(y, st, id)) + Deliveries(Next(y, st), rest, id)
  {
    assert ([st] + rest)[1..] == rest;
  }

  lemma NotDelivering(y: System, st: Step, next: System, rest: seq<Step>, id: string)
    requires Enabled(y, st) && !st.action.Finish? && next == Next(y, st) && Legal(next, rest)
    ensures Legal(y, [st] + rest) && Deliveries(y, [st] + rest, id) == Deliveries(next, rest, id)
  {
    assert ([st] + rest)[1..] == rest;
  }

  lemma SlowStart(req: Request, y1: System, y2: System)
    requires y1 == Next(START, Step(0, Push(req, "a", 1))) && y2 == Next(y1, Step(0, ReserveNext(1)))
    ensures var job := NewJob(req, "a", 0);
            && y1.clock == 0 && y1.held == map[]
            && y2.clock == 0 && y2.held == map[1 := job] && y2.store.processing == [job] && y2.store.queue == []
            && y2.store.records == map["a" := Record(InProcess, 0, job.attempts, RECORD_TTL_MS)]
  {
    assert y1.store.queue == [NewJob(req, "a", 0)];
  }

  lemma SlowOvertaken(req: Request, y2: System, y3: System, y4: System)
    requires var job := NewJob(req, "a", 0);
             && y2.held == map[1 := job] && y2.store.processing == [job] && y2.store.queue == []
             && y2.store.records == map["a" := Record(InProcess, 0, job.attempts, RECORD_TTL_MS)]
    requires y3 == Next(y2, Step(300_000, RecoverStalled(300_000))) && y4 == Next(y3, Step(300_000, ReserveNext(2)))
    ensures y3.clock == 300_000 && y3.held == y2.held
    ensures y4.clock == 300_000 && y4.held == map[1 := NewJob(req, "a", 0), 2 := NewJob(req, "a", 0)]
  {
    var job := NewJob(req, "a", 0);
    SelectOne(job, y2.store.records, 300_000, 300_000, Requeue);
    assert y3.store.queue == [job];
  }

  lemma SlowEnd(req: Request, y4: System)
    requires y4.clock == 300_000 && y4.held == map[1 := NewJob(req, "a", 0), 2 := NewJob(req, "a", 0)]
    ensures Legal(y4, BothFinish()) && Deliveries(y4, BothFinish(), "a") == 2
  {
    var e, f := Step(300_001, Finish(1, Delivered)), Step(300_002, Finish(2, Delivered));
    var y5 := Next(y4, e);
    assert 2 in y5.held && y5.held[2] == y4.held[2];
    Delivering(y5, f, [], "a");
    Delivering(y4, e, [f] + [], "a");
  }
}
