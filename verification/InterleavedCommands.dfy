/**
 * The queue with any number of workers and producers, one Redis command at a time
 * (src/lib/communicationQueue.ts and src/workers/communication.worker.ts).
 *
 * Here a queue call is not one step: between any two of its commands every other process may
 * run, and any process may crash.  Only MULTI/EXEC and BRPOPLPUSH are indivisible.  `Doing`
 * says which command a worker sends next.
 */
module InterleavedCommands {
  import opened Common
  import opened CommunicationQueue
  import opened JobCounts

  datatype Doing =
    | Idle
    | Marking(job: Job)
    | Handling(job: Job)
    | Acking(job: Job)
    | Freeing(job: Job)
    | Rescheduling(job: Job, parked: Job, delay: int)
    | Parking(parked: Job, delay: int)
    | Burying(job: Job, dead: DeadJob)
    | Entombing(dead: DeadJob)
    | Closing(id: string, phase: Phase, attempts: nat)
    | Promoting(batch: seq<Job>)
    | Scanning(rest: seq<Job>)
    | Judged(entry: Job, fate: Fate, rest: seq<Job>)
    | Moving(entry: Job, rest: seq<Job>)

  /** `offered` are jobs whose dedupe key is set and whose LPUSH is still to come. */
  datatype System = System(store: Store, doing: map<nat, Doing>, clock: int, offered: map<string, Job>,
                           pushed: map<string, Job>, acked: set<string>)

  const START := System(EMPTY, map[], 0, map[], map[], {})

  datatype Action =
    | Offer(req: Request, id: string, ttl: int)
    | Deposit(id: string)
    | Withdraw(id: string)
    | ReadDue(worker: nat, batch: seq<Job>)
    | ReadProcessing(worker: nat)
    | Take(worker: nat)
    | Deliver(worker: nat, outcome: Outcome)
    | Go(worker: nat, staleAfter: int)
    | Crash(worker: nat)

  datatype Step = Step(now: int, action: Action)

  function Of(y: System, w: nat): Doing { if w in y.doing then y.doing[w] else Idle }

  ghost predicate Enabled(y: System, st: Step) {
    && y.clock <= st.now
    && match st.action
       case Offer(_, id, _) => id !in y.pushed && id !in y.offered
       case Deposit(id) => id in y.offered
       case Withdraw(_) => true
       case ReadDue(w, batch) => Of(y, w).Idle? && IsDueBatch(y.store.delayed, st.now, batch)
       case ReadProcessing(w) => Of(y, w).Idle?
       case Take(w) => Of(y, w).Idle?
       case Deliver(w, _) => Of(y, w).Handling?
       case Go(w, _) => !Of(y, w).Idle? && !Of(y, w).Handling?
       case Crash(_) => true
  }

  /** What follows when the handler of a job is done: acknowledge, retry or bury. */
  function AfterHandler(job: Job, outcome: Outcome, now: int): Doing {
    match outcome
    case Delivered => Acking(job)
    case Failed(message) =>
      if job.attempts + 1 < job.maxAttempts
      then Rescheduling(job, Delayed(job, Backoff(job.attempts), Some(message), now), Backoff(job.attempts))
      else Burying(job, DeadJob(job, now, message))
  }

  /** The next command of a worker. */
  function Command(s: Store, d: Doing, now: int, staleAfter: int): (Store, Doing) {
    match d
    case Idle => (s, d)
    case Handling(_) => (s, d)
    case Marking(job) => (SetRecord(s, job.id, InProcess, job.attempts, now), Handling(job))
    case Acking(job) => (s.(processing := LRem(s.processing, job)), Freeing(job))
    case Freeing(job) => (s.(dedupe := s.dedupe - {job.dedupeKey}), Closing(job.id, Sent, job.attempts))
    case Rescheduling(job, parked, delay) => (s.(processing := LRem(s.processing, job)), Parking(parked, delay))
    case Parking(parked, delay) =>
      (s.(delayed := s.delayed[parked := now + delay]), Closing(parked.id, Retrying, parked.attempts))
    case Burying(job, dead) => (s.(processing := LRem(s.processing, job)), Entombing(dead))
    case Entombing(dead) => (s.(dlq := [dead] + s.dlq), Closing(dead.job.id, Dead, dead.job.attempts))
    case Closing(id, phase, attempts) => (SetRecord(s, id, phase, attempts, now), Idle)
    case Promoting(batch) => (Promote(s, batch), Idle)
    case Scanning(rest) =>
      if rest == [] then (s, Idle)
      else
        var fate := FateOf(s.records, rest[0], now, staleAfter);
        (s, if fate == Keep then Scanning(rest[1..]) else Judged(rest[0], fate, rest[1..]))
    case Judged(entry, fate, rest) =>
      (s.(processing := LRem(s.processing, entry)), if fate == Requeue then Moving(entry, rest) else Scanning(rest))
    case Moving(entry, rest) => (s.(queue := [entry] + s.queue), Scanning(rest))
  }

  /** Actions by which a worker turns to something else without a write of its own. */
  predicate Turns(a: Action) { a.ReadDue? || a.ReadProcessing? || a.Take? || a.Deliver? || a.Crash? }

  function TurnTo(y: System, st: Step): Doing
    requires Turns(st.action)
  {
    match st.action
    case ReadDue(_, batch) => Promoting(batch)
    case ReadProcessing(_) => Scanning(y.store.processing)
    case Take(_) => if y.store.queue == [] then Idle else Marking(y.store.queue[|y.store.queue| - 1])
    case Deliver(w, outcome) => if Of(y, w).Handling? then AfterHandler(Of(y, w).job, outcome, st.now) else Of(y, w)
    case Crash(_) => Idle
  }

  function Next(y: System, st: Step): System {
    var s, now := y.store, st.now;
    match st.action
    case Offer(req, id, ttl) =>
      var job := NewJob(req, id, now);
      if Locked(s, job.dedupeKey, now) then y.(clock := now)
      else y.(store := s.(dedupe := s.dedupe[job.dedupeKey := Lock(id, now + ttl)]), clock := now,
              offered := y.offered[id := job])
    case Deposit(id) =>
      if id !in y.offered then y
      else y.(store := s.(queue := [y.offered[id]] + s.queue), clock := now,
              offered := y.offered - {id}, pushed := y.pushed[id := y.offered[id]])
    case Withdraw(id) => y.(offered := y.offered - {id}, clock := now)
    case Take(w) =>
      y.(store := if s.queue == [] then s
                  else s.(queue := s.queue[..|s.queue| - 1], processing := [s.queue[|s.queue| - 1]] + s.processing),
         doing := y.doing[w := TurnTo(y, st)], clock := now)
    case Go(w, staleAfter) =>
      var (t, d) := Command(s, Of(y, w), now, staleAfter);
      y.(store := t, doing := y.doing[w := d], clock := now, acked := Acked(y.acked, Of(y, w)))
    case _ => y.(doing := y.doing[st.action.worker := TurnTo(y, st)], clock := now)
  }

  /** A job counts as acknowledged from the LREM that ends it. */
  function Acked(acked: set<string>, d: Doing): set<string> { if d.Acking? then acked + {d.job.id} else acked }

  ghost predicate Legal(y: System, steps: seq<Step>)
    decreases |steps|
  {
    steps == [] || (Enabled(y, steps[0]) && Legal(Next(y, steps[0]), steps[1..]))
  }

  function Run(y: System, steps: seq<Step>): System
    decreases |steps|
  {
    if steps == [] then y else Run(Next(y, steps[0]), steps[1..])
  }

  // --- What a worker knows ------------------------------------------------------------------

  /** The job a worker took out of one place and has not put into the next one. */
  function Carried(d: Doing): Option<Job> {
    match d
    case Parking(parked, _) => Some(parked)
    case Entombing(dead) => Some(dead.job)
    case Moving(entry, _) => Some(entry)
    case _ => None
  }

  predicate Carries(d: Doing, id: string) { Carried(d).Some? && Carried(d).value.id == id }

  /** The job a worker has reserved and whose entry it has not taken out yet. */
  function InHand(d: Doing): Option<Job> {
    if d.Marking? || d.Handling? || d.Acking? || d.Rescheduling? || d.Burying? then Some(d.job) else None
  }

  predicate Settled(s: Store, acked: set<string>, id: string) { id in acked || Count(DeadJobs(s.dlq), id) > 0 }

  /** What a worker has read or is about to write is true. */
  ghost predicate Honest(s: Store, acked: set<string>, d: Doing) {
    && (d.Freeing? ==> d.job.id in acked)
    && (d.Closing? && d.phase == Sent ==> d.id in acked)
    && (d.Closing? && d.phase == Dead ==> Count(DeadJobs(s.dlq), d.id) > 0)
    && (d.Judged? ==> d.fate != Keep && (d.fate == Discard ==> Settled(s, acked, d.entry.id)))
    && (d.Rescheduling? ==> d.parked.id == d.job.id)
    && (d.Burying? ==> d.dead.job == d.job)
  }

  ghost predicate RecordsHonest(s: Store, acked: set<string>) {
    forall id :: id in s.records ==>
      && (s.records[id].phase == Sent ==> id in acked)
      && (s.records[id].phase == Dead ==> Count(DeadJobs(s.dlq), id) > 0)
  }

  ghost predicate AllHonest(s: Store, acked: set<string>, doing: map<nat, Doing>) {
    forall w :: w in doing ==> Honest(s, acked, doing[w])
  }

  ghost predicate OffersNew(y: System) {
    forall id :: id in y.offered ==> y.offered[id].id == id && id !in y.pushed
  }

  ghost predicate Truthful(y: System) {
    RecordsHonest(y.store, y.acked) && AllHonest(y.store, y.acked, y.doing) && OffersNew(y)
  }

  lemma CommandHonest(s: Store, acked: set<string>, d: Doing, now: int, staleAfter: int)
    requires RecordsHonest(s, acked) && Honest(s, acked, d)
    ensures var (t, e) := Command(s, d, now, staleAfter);
            RecordsHonest(t, Acked(acked, d)) && Honest(t, Acked(acked, d), e)
  {
    if d.Entombing? {
      DeadCons(d.dead, s.dlq);
    }
  }

  lemma DeadCons(dead: DeadJob, dlq: seq<DeadJob>)
    ensures forall id :: Count(DeadJobs([dead] + dlq), id) == Count(DeadJobs(dlq), id) + One(dead.job.id == id)
  {
    assert DeadJobs([dead] + dlq) == [dead.job] + DeadJobs(dlq);
    forall id ensures Count(DeadJobs([dead] + dlq), id) == Count(DeadJobs(dlq), id) + One(dead.job.id == id) {
      CountConcat([dead.job], DeadJobs(dlq), id);
      CountOne(dead.job, id);
    }
  }

  /** Nothing leaves the dead letters, and no acknowledgement is taken back. */
  lemma CommandSettles(s: Store, acked: set<string>, d: Doing, now: int, staleAfter: int)
    ensures var t := Command(s, d, now, staleAfter).0;
            && acked <= Acked(acked, d)
            && forall id :: Count(DeadJobs(s.dlq), id) <= Count(DeadJobs(t.dlq), id)
  {
    if d.Entombing? {
      DeadCons(d.dead, s.dlq);
    }
  }

  lemma GoHonest(s: Store, acked: set<string>, doing: map<nat, Doing>, w: nat, now: int, staleAfter: int)
    requires RecordsHonest(s, acked) && AllHonest(s, acked, doing) && w in doing
    ensures var (t, e) := Command(s, doing[w], now, staleAfter);
            RecordsHonest(t, Acked(acked, doing[w])) && AllHonest(t, Acked(acked, doing[w]), doing[w := e])
  {
    CommandHonest(s, acked, doing[w], now, staleAfter);
    CommandSettles(s, acked, doing[w], now, staleAfter);
  }

  lemma TruthfulNext(y: System, st: Step)
    requires Truthful(y) && Enabled(y, st)
    ensures Truthful(Next(y, st))
  {
    OffersNewNext(y, st);
    if st.action.Go? {
      GoHonest(y.store, y.acked, y.doing, st.action.worker, st.now, st.action.staleAfter);
    } else {
      OthersHonest(y, st);
    }
  }

  lemma OffersNewNext(y: System, st: Step)
    requires OffersNew(y) && Enabled(y, st)
    ensures OffersNew(Next(y, st))
  {}

  /** What a worker turns to when it is not in the middle of a call claims nothing. */
  predicate Harmless(d: Doing) {
    || d.Idle? || d.Promoting? || d.Scanning? || d.Marking? || d.Acking?
    || (d.Rescheduling? && d.parked.id == d.job.id) || (d.Burying? && d.dead.job == d.job)
  }

  lemma TurnHarmless(y: System, st: Step)
    requires Enabled(y, st) && Turns(st.action)
    ensures Harmless(TurnTo(y, st))
  {}

  lemma TurnQuiet(y: System, st: Step)
    requires Turns(st.action)
    ensures var z := Next(y, st);
            && z.store.records == y.store.records && z.store.dlq == y.store.dlq && z.acked == y.acked
            && z.doing == y.doing[st.action.worker := TurnTo(y, st)]
  {}

  lemma ProducerQuiet(y: System, st: Step)
    requires !st.action.Go? && !Turns(st.action)
    ensures var z := Next(y, st);
            && z.store.records == y.store.records && z.store.dlq == y.store.dlq && z.acked == y.acked
            && z.doing == y.doing
  {}

  lemma OthersHonest(y: System, st: Step)
    requires RecordsHonest(y.store, y.acked) && AllHonest(y.store, y.acked, y.doing)
    requires Enabled(y, st) && !st.action.Go?
    ensures var z := Next(y, st); RecordsHonest(z.store, z.acked) && AllHonest(z.store, z.acked, z.doing)
  {
    if Turns(st.action) {
      TurnQuiet(y, st);
      TurnHarmless(y, st);
    } else {
      ProducerQuiet(y, st);
    }
    HonestFrame(y.store, y.acked, y.doing, Next(y, st).store, Next(y, st).doing);
  }

  lemma HonestFrame(s: Store, acked: set<string>, doing: map<nat, Doing>, t: Store, after: map<nat, Doing>)
    requires RecordsHonest(s, acked) && AllHonest(s, acked, doing) && t.records == s.records && t.dlq == s.dlq
    requires forall w :: w in after ==> (w in doing && after[w] == doing[w]) || Harmless(after[w])
    ensures RecordsHonest(t, acked) && AllHonest(t, acked, after)
  {}

  // --- No loss -------------------------------------------------------------------------------

  ghost predicate Kept(y: System, id: string) {
    id in y.acked || Entries(y.store, id) > 0 || exists w :: w in y.doing && Carries(y.doing[w], id)
  }

  /** The worker dies between taking the job out of one place and putting it into the next. */
  predicate Drops(y: System, st: Step, id: string) { st.action.Crash? && Carries(Of(y, st.action.worker), id) }

  /** How a command changes the number of entries, promotion aside. */
  function Change(s: Store, d: Doing, id: string): int {
    match d
    case Acking(job) => 0 - One(job in s.processing && job.id == id)
    case Rescheduling(job, _, _) => 0 - One(job in s.processing && job.id == id)
    case Burying(job, _) => 0 - One(job in s.processing && job.id == id)
    case Judged(entry, _, _) => 0 - One(entry in s.processing && entry.id == id)
    case Parking(parked, _) => One(parked.id == id && parked !in s.delayed)
    case Entombing(dead) => One(dead.job.id == id)
    case Moving(entry, _) => One(entry.id == id)
    case _ => 0
  }

  lemma TakeOutEntries(s: Store, job: Job, id: string)
    ensures Entries(s.(processing := LRem(s.processing, job)), id)
         == Entries(s, id) - One(job in s.processing && job.id == id)
  {
    CountLRem(s.processing, job, id);
  }

  lemma ParkEntries(s: Store, parked: Job, score: int, id: string)
    ensures Entries(s.(delayed := s.delayed[parked := score]), id)
         == Entries(s, id) + One(parked.id == id && parked !in s.delayed)
  {
    if parked in s.delayed {
      assert DelayedOf(s.delayed[parked := score], id) == DelayedOf(s.delayed, id);
    } else {
      AddOne(s.delayed, parked, score, id);
    }
  }

  lemma QueueEntries(s: Store, entry: Job, id: string)
    ensures Entries(s.(queue := [entry] + s.queue), id) == Entries(s, id) + One(entry.id == id)
  {
    CountConcat([entry], s.queue, id);
    CountOne(entry, id);
  }

  lemma BuryEntries(s: Store, dead: DeadJob, id: string)
    ensures Entries(s.(dlq := [dead] + s.dlq), id) == Entries(s, id) + One(dead.job.id == id)
  {
    DeadCons(dead, s.dlq);
  }

  lemma CommandEntries(s: Store, d: Doing, now: int, staleAfter: int, id: string)
    requires !d.Promoting?
    ensures Entries(Command(s, d, now, staleAfter).0, id) == Entries(s, id) + Change(s, d, id)
  {
    match d
    case Acking(job) => TakeOutEntries(s, job, id);
    case Rescheduling(job, _, _) => TakeOutEntries(s, job, id);
    case Burying(job, _) => TakeOutEntries(s, job, id);
    case Judged(entry, _, _) => TakeOutEntries(s, entry, id);
    case Parking(parked, delay) => ParkEntries(s, parked, now + delay, id);
    case Entombing(dead) => BuryEntries(s, dead, id);
    case Moving(entry, _) => QueueEntries(s, entry, id);
    case _ =>
  }

  /** Promoting any batch, due or not any more, loses nothing, and it copies a job that was no longer delayed. */
  lemma {:induction false} PromoteAny(delayed: map<Job, int>, batch: seq<Job>, id: string)
    ensures Count(batch, id) + |DelayedOf(delayed - Members(batch), id)| >= |DelayedOf(delayed, id)|
    ensures (exists j :: j in batch && j !in delayed && j.id == id) ==>
              Count(batch, id) + |DelayedOf(delayed - Members(batch), id)| > |DelayedOf(delayed, id)|
  {
    if batch == [] {
      assert delayed - Members(batch) == delayed;
    } else {
      var init, last := batch[..|batch| - 1], batch[|batch| - 1];
      assert batch == init + [last];
      assert Members(batch) == Members(init) + {last};
      PromoteAny(delayed, init, id);
      var left := delayed - Members(init);
      assert delayed - Members(batch) == left - {last};
      if last in left {
        RemoveOne(left, last, id);
      } else {
        assert left - {last} == left;
      }
    }
  }

  lemma PromoteEntriesAny(s: Store, batch: seq<Job>, id: string)
    ensures Entries(Promote(s, batch), id)
         == Entries(s, id) + Count(batch, id) + |DelayedOf(s.delayed - Members(batch), id)| - |DelayedOf(s.delayed, id)|
  {
    CountConcat(Reverse(batch), s.queue, id);
    CountReverse(batch, id);
  }

  lemma CommandKeeps(s: Store, acked: set<string>, d: Doing, now: int, staleAfter: int, id: string)
    requires Honest(s, acked, d) && (id in acked || Entries(s, id) > 0 || Carries(d, id))
    ensures var (t, e) := Command(s, d, now, staleAfter);
            id in Acked(acked, d) || Entries(t, id) > 0 || Carries(e, id)
  {
    if d.Promoting? {
      PromoteAny(s.delayed, d.batch, id);
      PromoteEntriesAny(s, d.batch, id);
    } else {
      CommandEntries(s, d, now, staleAfter, id);
      if d.Parking? && d.parked.id == id && d.parked in s.delayed {
        assert d.parked in DelayedOf(s.delayed, id);
      }
      if d.Judged? && d.fate == Discard {
        assert Command(s, d, now, staleAfter).0.dlq == s.dlq;
      }
    }
  }

  lemma GoKeeps(y: System, st: Step, id: string)
    requires Truthful(y) && Enabled(y, st) && st.action.Go? && Kept(y, id)
    ensures Kept(Next(y, st), id)
  {
    var w, z := st.action.worker, Next(y, st);
    var d := y.doing[w];
    if x :| x in y.doing && x != w && Carries(y.doing[x], id) {
      assert x in z.doing && Carries(z.doing[x], id);
    } else {
      CommandKeeps(y.store, y.acked, d, st.now, st.action.staleAfter, id);
      if Carries(z.doing[w], id) {
        assert w in z.doing;
      }
    }
  }

  lemma TakeEntries(y: System, st: Step, id: string)
    requires st.action.Take?
    ensures Entries(Next(y, st).store, id) == Entries(y.store, id)
  {
    var s := y.store;
    if s.queue != [] {
      var job := s.queue[|s.queue| - 1];
      CountConcat([job], s.processing, id);
      CountOne(job, id);
    }
  }

  lemma DepositEntries(y: System, st: Step, id: string)
    requires st.action.Deposit? && st.action.id in y.offered
    ensures Entries(Next(y, st).store, id) == Entries(y.store, id) + One(y.offered[st.action.id].id == id)
  {
    CountConcat([y.offered[st.action.id]], y.store.queue, id);
    CountOne(y.offered[st.action.id], id);
  }

  lemma NothingDropped(y: System, st: Step, id: string)
    requires Truthful(y) && Enabled(y, st) && Kept(y, id) && !Drops(y, st, id)
    ensures Kept(Next(y, st), id)
  {
    if st.action.Go? {
      GoKeeps(y, st, id);
    } else if id in y.acked || Entries(y.store, id) > 0 {
      EntriesStay(y, st, id);
    } else {
      var x :| x in y.doing && Carries(y.doing[x], id);
      CarrierStays(y, st, id, x);
    }
  }

  lemma EntriesStay(y: System, st: Step, id: string)
    requires Enabled(y, st) && !st.action.Go?
    ensures Entries(Next(y, st).store, id) >= Entries(y.store, id) && Next(y, st).acked == y.acked
  {
    match st.action
    case Take(_) => TakeEntries(y, st, id);
    case Deposit(_) => DepositEntries(y, st, id);
    case _ =>
  }

  lemma CarrierStays(y: System, st: Step, id: string, x: nat)
    requires Enabled(y, st) && !st.action.Go? && !Drops(y, st, id) && x in y.doing && Carries(y.doing[x], id)
    ensures x in Next(y, st).doing && Carries(Next(y, st).doing[x], id)
  {}

  /** A job is still there after a step, unless that step is a crash that drops the last of it. */
  lemma KeptStep(y: System, st: Step, id: string)
    requires Truthful(y) && Enabled(y, st) && Kept(y, id)
    ensures Kept(Next(y, st), id) <==> !DropsLast(y, st, id)
  {
    if !Drops(y, st, id) {
      NothingDropped(y, st, id);
    } else if x :| x in y.doing && x != st.action.worker && Carries(y.doing[x], id) {
      assert x in Next(y, st).doing && Carries(Next(y, st).doing[x], id);
    }
  }

  ghost predicate DropsLast(y: System, st: Step, id: string) {
    && Drops(y, st, id) && id !in y.acked && Entries(y.store, id) == 0
    && forall x :: x in y.doing && Carries(y.doing[x], id) ==> x == st.action.worker
  }

  ghost predicate NoneDropped(y: System, steps: seq<Step>, id: string)
    decreases |steps|
  {
    steps == [] || (!DropsLast(y, steps[0], id) && NoneDropped(Next(y, steps[0]), steps[1..], id))
  }

  /** A step brings a job into the system only by depositing it. */
  lemma PushedKept(y: System, st: Step, id: string)
    requires Truthful(y) && Enabled(y, st) && (id in y.pushed ==> Kept(y, id)) && !DropsLast(y, st, id)
    ensures id in Next(y, st).pushed ==> Kept(Next(y, st), id)
  {
    if id in y.pushed {
      KeptStep(y, st, id);
    } else if st.action.Deposit? && st.action.id == id {
      DepositEntries(y, st, id);
    }
  }

  lemma {:induction false} KeptRun(y: System, steps: seq<Step>, id: string)
    requires Truthful(y) && Legal(y, steps) && (id in y.pushed ==> Kept(y, id)) && NoneDropped(y, steps, id)
    ensures Truthful(Run(y, steps)) && (id in Run(y, steps).pushed ==> Kept(Run(y, steps), id))
    decreases |steps|
  {
    if steps == [] {
    } else {
      TruthfulNext(y, steps[0]);
      PushedKept(y, steps[0], id);
      KeptRun(Next(y, steps[0]), steps[1..], id);
    }
  }

  /**
   * However the commands interleave, a deposited job is acknowledged, in some list, or on its way
   * between two of them, as long as no worker crashes with the last of it on the way.
   */
  lemma NoJobIsLost(steps: seq<Step>, id: string)
    requires Legal(START, steps) && NoneDropped(START, steps, id) && id in Run(START, steps).pushed
    ensures Kept(Run(START, steps), id)
  {
    KeptRun(START, steps, id);
  }

  // --- Exact conservation ---------------------------------------------------------------------

  ghost function CarriersOf(doing: map<nat, Doing>, id: string): set<nat> {
    set w | w in doing && Carries(doing[w], id)
  }

  /** Entries in the lists, copies on their way, and the acknowledgement. */
  ghost function Copies(y: System, id: string): nat {
    Entries(y.store, id) + |CarriersOf(y.doing, id)| + One(id in y.acked)
  }

  lemma CarriersUpdate(doing: map<nat, Doing>, w: nat, d: Doing, id: string)
    ensures |CarriersOf(doing[w := d], id)|
         == |CarriersOf(doing, id)| - One(w in doing && Carries(doing[w], id)) + One(Carries(d, id))
  {
    var without := CarriersOf(doing, id) - {w};
    WithOrWithout(doing, w, id);
    WithOrWithout(doing[w := d], w, id);
    assert CarriersOf(doing[w := d], id) - {w} == without;
  }

  lemma WithOrWithout(doing: map<nat, Doing>, w: nat, id: string)
    ensures |CarriersOf(doing, id)| == |CarriersOf(doing, id) - {w}| + One(w in doing && Carries(doing[w], id))
  {
    if w in CarriersOf(doing, id) {
      assert CarriersOf(doing, id) == (CarriersOf(doing, id) - {w}) + {w};
    } else {
      assert CarriersOf(doing, id) - {w} == CarriersOf(doing, id);
    }
  }

  ghost predicate Conserved(y: System) {
    forall id :: Copies(y, id) == One(id in y.pushed)
  }

  predicate SameHand(d: Doing, e: Doing) {
    InHand(d).Some? && InHand(e).Some? && InHand(d).value.id == InHand(e).value.id
  }

  /** Every job in hand is being processed, and nobody else has it in hand. */
  ghost predicate HeldAlone(s: Store, doing: map<nat, Doing>) {
    && (forall w :: w in doing && InHand(doing[w]).Some? ==> InHand(doing[w]).value in s.processing)
    && (forall w, x :: w in doing && x in doing && SameHand(doing[w], doing[x]) ==> w == x)
  }

  /** The jobs a worker has read about. */
  function ReadAbout(d: Doing): seq<Job> {
    match d
    case Promoting(batch) => batch
    case Scanning(rest) => rest
    case Judged(entry, _, rest) => [entry] + rest
    case Moving(_, rest) => rest
    case _ => []
  }

  ghost predicate Known(pushed: map<string, Job>, d: Doing) {
    && (forall j :: j in ReadAbout(d) ==> j.id in pushed)
    && (d.Promoting? ==> Distinct(d.batch))
  }

  ghost predicate AllKnown(y: System) { forall w :: w in y.doing ==> Known(y.pushed, y.doing[w]) }

  ghost predicate Exclusive(y: System) {
    Truthful(y) && Conserved(y) && HeldAlone(y.store, y.doing) && AllKnown(y)
  }

  /** The worker promotes a job that another one has promoted since it read the batch. */
  ghost predicate PromotesAgain(s: Store, d: Doing) {
    d.Promoting? && exists j :: j in d.batch && j !in s.delayed
  }

  /** The worker requeues an entry that is gone since it was read, or that some worker has in hand. */
  ghost predicate Overtakes(s: Store, doing: map<nat, Doing>, d: Doing) {
    && d.Judged? && d.fate == Requeue
    && (d.entry !in s.processing || exists x :: x in doing && InHand(doing[x]) == Some(d.entry))
  }

  /** The steps that break conservation: acting on a stale read, or crashing with a job on its way. */
  ghost predicate Breaks(y: System, st: Step) {
    match st.action
    case Go(w, _) => PromotesAgain(y.store, Of(y, w)) || Overtakes(y.store, y.doing, Of(y, w))
    case Crash(w) => Carried(Of(y, w)).Some?
    case _ => false
  }

  /** What conservation says of one entry being processed. */
  lemma OnlyCopy(y: System, j: Job)
    requires Conserved(y) && j in y.store.processing
    ensures j.id in y.pushed && j.id !in y.acked && CarriersOf(y.doing, j.id) == {}
    ensures Count(y.store.processing, j.id) == 1 && Count(y.store.queue, j.id) == 0
    ensures DelayedOf(y.store.delayed, j.id) == {} && Count(DeadJobs(y.store.dlq), j.id) == 0
    ensures forall k :: k in y.store.processing && k.id == j.id ==> k == j
  {
    assert Copies(y, j.id) == One(j.id in y.pushed);
    CountPositive(y.store.processing, j.id);
    forall k | k in y.store.processing && k.id == j.id ensures k == j {
      if k != j {
        CountTwo(y.store.processing, j, k);
      }
    }
  }

  lemma OnlyCarrier(y: System, w: nat)
    requires Conserved(y) && w in y.doing && Carried(y.doing[w]).Some?
    ensures var id := Carried(y.doing[w]).value.id;
            && id in y.pushed && id !in y.acked && Entries(y.store, id) == 0 && CarriersOf(y.doing, id) == {w}
  {
    var id := Carried(y.doing[w]).value.id;
    assert Copies(y, id) == One(id in y.pushed);
    assert w in CarriersOf(y.doing, id);
    if |CarriersOf(y.doing, id)| == 1 {
      var rest := CarriersOf(y.doing, id) - {w};
      assert |rest| == 0;
    }
  }

  // --- The commands that keep it -----------------------------------------------------------------

  /** The balance of a command: entries, the job on its way, and the acknowledgement. */
  ghost predicate Balanced(s: Store, acked: set<string>, d: Doing, now: int, staleAfter: int, id: string) {
    var (t, e) := Command(s, d, now, staleAfter);
    Entries(t, id) + One(Carries(e, id)) + One(id in Acked(acked, d))
    == Entries(s, id) + One(Carries(d, id)) + One(id in acked)
  }

  /** When a command finds what its worker believes. */
  ghost predicate Fitting(s: Store, acked: set<string>, d: Doing) {
    && (InHand(d).Some? && !d.Marking? && !d.Handling? ==> d.job in s.processing && d.job.id !in acked)
    && (d.Parking? ==> d.parked !in s.delayed)
    && (d.Promoting? ==> Distinct(d.batch) && Members(d.batch) <= s.delayed.Keys)
    && (d.Judged? ==> (d.entry in s.processing <==> d.fate == Requeue))
  }

  lemma CommandBalanced(s: Store, acked: set<string>, d: Doing, now: int, staleAfter: int, id: string)
    requires Honest(s, acked, d) && Fitting(s, acked, d)
    ensures Balanced(s, acked, d, now, staleAfter, id)
  {
    if d.Promoting? {
      CountBatch(s.delayed, d.batch, id);
      PromoteEntriesAny(s, d.batch, id);
      assert Command(s, d, now, staleAfter) == (Promote(s, d.batch), Idle);
    } else {
      CommandEntries(s, d, now, staleAfter, id);
      ChangeBalanced(s, acked, d, now, staleAfter, id);
    }
  }

  lemma ChangeBalanced(s: Store, acked: set<string>, d: Doing, now: int, staleAfter: int, id: string)
    requires Honest(s, acked, d) && Fitting(s, acked, d) && !d.Promoting?
    ensures Change(s, d, id) + One(Carries(Command(s, d, now, staleAfter).1, id)) + One(id in Acked(acked, d))
         == One(Carries(d, id)) + One(id in acked)
  {}

  lemma FittingUnlessBreaks(y: System, st: Step)
    requires Exclusive(y) && Enabled(y, st) && st.action.Go? && !Breaks(y, st)
    ensures Fitting(y.store, y.acked, y.doing[st.action.worker])
  {
    var d := y.doing[st.action.worker];
    assert Honest(y.store, y.acked, d) && Known(y.pushed, d);
    if InHand(d).Some? {
      OnlyCopy(y, d.job);
    } else if d.Parking? {
      OnlyCarrier(y, st.action.worker);
      assert d.parked !in DelayedOf(y.store.delayed, d.parked.id);
    } else if d.Judged? && d.entry in y.store.processing {
      OnlyCopy(y, d.entry);
    }
  }

  lemma GoConserves(y: System, st: Step)
    requires Exclusive(y) && Enabled(y, st) && st.action.Go? && !Breaks(y, st)
    ensures Conserved(Next(y, st))
  {
    var w, stale, z := st.action.worker, st.action.staleAfter, Next(y, st);
    var d := y.doing[w];
    FittingUnlessBreaks(y, st);
    forall id ensures Copies(z, id) == One(id in z.pushed) {
      assert Copies(y, id) == One(id in y.pushed);
      CommandBalanced(y.store, y.acked, d, st.now, stale, id);
      CarriersUpdate(y.doing, w, z.doing[w], id);
    }
  }

  /** Taking out a job that nobody else has in hand leaves the others' jobs in place. */
  lemma LRemAlone(s: Store, doing: map<nat, Doing>, w: nat, job: Job, d: Doing)
    requires HeldAlone(s, doing) && w in doing && InHand(d).None?
    requires forall x :: x in doing && x != w && InHand(doing[x]).Some? ==> InHand(doing[x]).value != job
    ensures HeldAlone(s.(processing := LRem(s.processing, job)), doing[w := d])
  {
    LRemMembers(s.processing, job);
    HeldFrame(s, doing, w, d, s.(processing := LRem(s.processing, job)));
  }

  /** The others keep what they have in hand, and the worker keeps it or lets go. */
  lemma HeldFrame(s: Store, doing: map<nat, Doing>, w: nat, d: Doing, t: Store)
    requires HeldAlone(s, doing)
    requires InHand(d).Some? ==> w in doing && InHand(d) == InHand(doing[w]) && InHand(d).value in t.processing
    requires forall x :: x in doing && x != w && InHand(doing[x]).Some? ==> InHand(doing[x]).value in t.processing
    ensures HeldAlone(t, doing[w := d])
  {
    var after := doing[w := d];
    forall v, x | v in after && x in after && SameHand(after[v], after[x]) ensures v == x {
      assert SameHand(doing[v], doing[x]);
    }
  }

  lemma GoHeldAlone(y: System, st: Step)
    requires Exclusive(y) && Enabled(y, st) && st.action.Go? && !Breaks(y, st)
    ensures HeldAlone(Next(y, st).store, Next(y, st).doing)
  {
    var w := st.action.worker;
    if y.doing[w].Judged? {
      JudgedFree(y, w);
    }
    CommandHeldAlone(y.store, y.doing, w, st.now, st.action.staleAfter);
  }

  /** The entry that a worker takes out after judging it is in nobody's hand. */
  lemma JudgedFree(y: System, w: nat)
    requires Exclusive(y) && w in y.doing && y.doing[w].Judged? && !Overtakes(y.store, y.doing, y.doing[w])
    ensures forall x :: x in y.doing ==> InHand(y.doing[x]) != Some(y.doing[w].entry)
  {
    var d := y.doing[w];
    assert Honest(y.store, y.acked, d);
    if d.fate == Discard && d.entry in y.store.processing {
      OnlyCopy(y, d.entry);
    }
  }

  lemma CommandHeldAlone(s: Store, doing: map<nat, Doing>, w: nat, now: int, staleAfter: int)
    requires HeldAlone(s, doing) && w in doing
    requires doing[w].Judged? ==> forall x :: x in doing ==> InHand(doing[x]) != Some(doing[w].entry)
    ensures var (t, e) := Command(s, doing[w], now, staleAfter); HeldAlone(t, doing[w := e])
  {
    var d := doing[w];
    var (t, e) := Command(s, d, now, staleAfter);
    if d.Acking? || d.Rescheduling? || d.Burying? {
      assert t == s.(processing := LRem(s.processing, d.job)) && InHand(e).None?;
      forall x | x in doing && x != w && InHand(doing[x]).Some? ensures InHand(doing[x]).value != d.job {
        assert SameHand(doing[x], d) ==> x == w;
      }
      LRemAlone(s, doing, w, d.job, e);
    } else if d.Judged? {
      assert t == s.(processing := LRem(s.processing, d.entry)) && InHand(e).None?;
      LRemAlone(s, doing, w, d.entry, e);
    } else {
      assert t.processing == s.processing && (InHand(e).Some? ==> InHand(e) == InHand(d));
      HeldFrame(s, doing, w, e, t);
    }
  }

  lemma GoKnown(y: System, st: Step)
    requires AllKnown(y) && Enabled(y, st) && st.action.Go?
    ensures AllKnown(Next(y, st))
  {
    var w, z := st.action.worker, Next(y, st);
    var d := y.doing[w];
    assert Known(y.pushed, d);
    forall j | j in ReadAbout(z.doing[w]) ensures j.id in z.pushed {
      assert j in ReadAbout(d);
    }
  }

  // --- The other steps that keep it --------------------------------------------------------------------

  /** A step that moves no job: entries, carriers, acknowledgements and pushed jobs are as before. */
  lemma Unmoved(y: System, z: System)
    requires Conserved(y) && z.acked == y.acked && z.pushed == y.pushed
    requires forall id :: Entries(z.store, id) == Entries(y.store, id)
    requires forall id :: CarriersOf(z.doing, id) == CarriersOf(y.doing, id)
    ensures Conserved(z)
  {
    forall id ensures Copies(z, id) == One(id in z.pushed) {
      assert Copies(y, id) == One(id in y.pushed);
    }
  }

  lemma TurnConserves(y: System, w: nat, d: Doing, z: System)
    requires Conserved(y) && z.acked == y.acked && z.pushed == y.pushed && z.doing == y.doing[w := d]
    requires Carried(Of(y, w)).None? && Carried(d).None?
    requires forall id :: Entries(z.store, id) == Entries(y.store, id)
    ensures Conserved(z)
  {
    assert forall id :: CarriersOf(z.doing, id) == CarriersOf(y.doing, id);
    Unmoved(y, z);
  }

  lemma OfferExclusive(y: System, st: Step)
    requires Exclusive(y) && Enabled(y, st) && (st.action.Offer? || st.action.Withdraw?)
    ensures Exclusive(Next(y, st))
  {
    var z := Next(y, st);
    TruthfulNext(y, st);
    OfferMovesNothing(y, st);
    Unmoved(y, z);
    assert forall w :: w in y.doing ==> Known(y.pushed, y.doing[w]);
  }

  lemma OfferMovesNothing(y: System, st: Step)
    requires st.action.Offer? || st.action.Withdraw?
    ensures var z := Next(y, st);
            && z.store.(dedupe := y.store.dedupe) == y.store && z.doing == y.doing
            && z.acked == y.acked && z.pushed == y.pushed
  {}

  lemma DepositExclusive(y: System, st: Step)
    requires Exclusive(y) && Enabled(y, st) && st.action.Deposit?
    ensures Exclusive(Next(y, st))
  {
    var z := Next(y, st);
    TruthfulNext(y, st);
    forall id ensures Copies(z, id) == One(id in z.pushed) {
      assert Copies(y, id) == One(id in y.pushed);
      DepositEntries(y, st, id);
    }
    assert forall w :: w in y.doing ==> Known(y.pushed, y.doing[w]);
  }

  /** A worker that reads, takes a job, is done with its handler, or crashes. */
  lemma TurnExclusive(y: System, st: Step)
    requires Exclusive(y) && Enabled(y, st) && !Breaks(y, st) && Turns(st.action)
    ensures Exclusive(Next(y, st))
  {
    TruthfulNext(y, st);
    TurnMoves(y, st);
    TurnConserves(y, st.action.worker, TurnTo(y, st), Next(y, st));
    if st.action.Take? && y.store.queue != [] {
      TakeHeldAlone(y, st);
    } else {
      HeldFrame(y.store, y.doing, st.action.worker, TurnTo(y, st), Next(y, st).store);
    }
    TurnKnown(y, st);
  }

  lemma TurnMoves(y: System, st: Step)
    requires Enabled(y, st) && !Breaks(y, st) && Turns(st.action)
    ensures var z, w := Next(y, st), st.action.worker;
            && z.doing == y.doing[w := TurnTo(y, st)] && z.acked == y.acked && z.pushed == y.pushed
            && Carried(Of(y, w)).None? && Carried(TurnTo(y, st)).None?
            && (forall id :: Entries(z.store, id) == Entries(y.store, id))
            && (!st.action.Take? ==> z.store == y.store)
            && (st.action.Take? && y.store.queue == [] ==> z.store == y.store)
            && ((st.action.Take? && y.store.queue != []) || InHand(TurnTo(y, st)).None?
                || (w in y.doing && InHand(TurnTo(y, st)) == InHand(y.doing[w])))
  {
    if st.action.Take? {
      forall id ensures Entries(Next(y, st).store, id) == Entries(y.store, id) {
        TakeEntries(y, st, id);
      }
    }
  }

  lemma TurnKnown(y: System, st: Step)
    requires Conserved(y) && AllKnown(y) && Enabled(y, st) && Turns(st.action)
    ensures AllKnown(Next(y, st))
  {
    var d, z := TurnTo(y, st), Next(y, st);
    forall j | j in ReadAbout(d) ensures j.id in y.pushed {
      ReadIsPushed(y, st, j);
    }
    assert z.doing == y.doing[st.action.worker := d] && z.pushed == y.pushed;
  }

  lemma ReadIsPushed(y: System, st: Step, j: Job)
    requires Conserved(y) && Enabled(y, st) && Turns(st.action) && j in ReadAbout(TurnTo(y, st))
    ensures j.id in y.pushed
  {
    assert Copies(y, j.id) == One(j.id in y.pushed);
    if st.action.ReadDue? {
      assert Due(y.store.delayed, j, st.now);
      assert j in DelayedOf(y.store.delayed, j.id);
    } else if st.action.ReadProcessing? {
      CountPositive(y.store.processing, j.id);
    }
  }

  lemma TakeHeldAlone(y: System, st: Step)
    requires Exclusive(y) && Enabled(y, st) && st.action.Take? && y.store.queue != []
    ensures HeldAlone(Next(y, st).store, Next(y, st).doing)
  {
    var w, job := st.action.worker, y.store.queue[|y.store.queue| - 1];
    CountPositive(y.store.queue, job.id);
    forall x | x in y.doing && InHand(y.doing[x]).Some? ensures InHand(y.doing[x]).value.id != job.id {
      OnlyCopy(y, InHand(y.doing[x]).value);
    }
    HeldOneMore(y.store, y.doing, w, job, Next(y, st).store);
  }

  lemma HeldOneMore(s: Store, doing: map<nat, Doing>, w: nat, job: Job, t: Store)
    requires HeldAlone(s, doing) && t.processing == [job] + s.processing
    requires forall x :: x in doing && InHand(doing[x]).Some? ==> InHand(doing[x]).value.id != job.id
    ensures HeldAlone(t, doing[w := Marking(job)])
  {
    var after := doing[w := Marking(job)];
    forall v, x | v in after && x in after && SameHand(after[v], after[x]) ensures v == x {
      if v != w && x != w {
        assert SameHand(doing[v], doing[x]);
      }
    }
  }

  // --- And those that break it ---------------------------------------------------------------------------

  lemma PromotesAgainBreaks(y: System, st: Step)
    requires Exclusive(y) && Enabled(y, st) && st.action.Go? && PromotesAgain(y.store, y.doing[st.action.worker])
    ensures !Conserved(Next(y, st))
  {
    var w, z := st.action.worker, Next(y, st);
    var d := y.doing[w];
    var j :| j in d.batch && j !in y.store.delayed;
    assert Known(y.pushed, d) && j in ReadAbout(d);
    assert Copies(y, j.id) == 1;
    PromoteAny(y.store.delayed, d.batch, j.id);
    PromoteEntriesAny(y.store, d.batch, j.id);
    CarriersUpdate(y.doing, w, Idle, j.id);
    assert z.store == Promote(y.store, d.batch) && z.doing == y.doing[w := Idle] && z.acked == y.acked;
    assert Copies(z, j.id) > 1;
  }

  lemma JudgedStep(y: System, st: Step)
    requires Enabled(y, st) && st.action.Go? && y.doing[st.action.worker].Judged?
    requires y.doing[st.action.worker].fate == Requeue
    ensures var z, d := Next(y, st), y.doing[st.action.worker];
            && z.store == y.store.(processing := LRem(y.store.processing, d.entry)) && z.acked == y.acked
            && z.pushed == y.pushed && z.doing == y.doing[st.action.worker := Moving(d.entry, d.rest)]
  {}

  /** Requeueing an entry that is gone makes a copy. */
  lemma GoneCopies(y: System, z: System, w: nat)
    requires w in y.doing && y.doing[w].Judged? && y.doing[w].entry !in y.store.processing
    requires var d := y.doing[w];
             && z.store == y.store.(processing := LRem(y.store.processing, d.entry))
             && z.acked == y.acked && z.doing == y.doing[w := Moving(d.entry, d.rest)]
    ensures var id := y.doing[w].entry.id; Copies(z, id) == Copies(y, id) + 1
  {
    var d := y.doing[w];
    CountLRem(y.store.processing, d.entry, d.entry.id);
    CarriersUpdate(y.doing, w, Moving(d.entry, d.rest), d.entry.id);
  }

  lemma GoneBreaks(y: System, st: Step)
    requires Conserved(y) && AllKnown(y) && Enabled(y, st) && st.action.Go? && y.doing[st.action.worker].Judged?
    requires var d := y.doing[st.action.worker]; d.fate == Requeue && d.entry !in y.store.processing
    ensures !Conserved(Next(y, st))
  {
    var w, z := st.action.worker, Next(y, st);
    var d := y.doing[w];
    assert Known(y.pushed, d) && d.entry in ReadAbout(d);
    assert Copies(y, d.entry.id) == 1;
    JudgedStep(y, st);
    GoneCopies(y, z, w);
    assert Copies(z, d.entry.id) == 2;
  }

  /** A requeued entry that somebody has in hand is missed there. */
  lemma TakenBreaks(y: System, st: Step, x: nat)
    requires Exclusive(y) && Enabled(y, st) && st.action.Go? && y.doing[st.action.worker].Judged?
    requires var d := y.doing[st.action.worker]; d.fate == Requeue && d.entry in y.store.processing
    requires x in y.doing && InHand(y.doing[x]) == Some(y.doing[st.action.worker].entry)
    ensures !HeldAlone(Next(y, st).store, Next(y, st).doing)
  {
    var entry, z := y.doing[st.action.worker].entry, Next(y, st);
    OnlyCopy(y, entry);
    JudgedStep(y, st);
    CountLRem(y.store.processing, entry, entry.id);
    CountPositive(z.store.processing, entry.id);
    assert x in z.doing && z.doing[x] == y.doing[x];
  }

  lemma OvertakesBreaks(y: System, st: Step)
    requires Exclusive(y) && Enabled(y, st) && st.action.Go? && Overtakes(y.store, y.doing, y.doing[st.action.worker])
    ensures !Conserved(Next(y, st)) || !HeldAlone(Next(y, st).store, Next(y, st).doing)
  {
    var d := y.doing[st.action.worker];
    if d.entry !in y.store.processing {
      GoneBreaks(y, st);
    } else {
      var x :| x in y.doing && InHand(y.doing[x]) == Some(d.entry);
      TakenBreaks(y, st, x);
    }
  }

  lemma CrashBreaks(y: System, st: Step)
    requires Exclusive(y) && Enabled(y, st) && st.action.Crash? && Carried(Of(y, st.action.worker)).Some?
    ensures !Conserved(Next(y, st))
  {
    var w, z := st.action.worker, Next(y, st);
    var id := Carried(y.doing[w]).value.id;
    OnlyCarrier(y, w);
    CarriersUpdate(y.doing, w, Idle, id);
    assert z.store == y.store && z.doing == y.doing[w := Idle] && z.acked == y.acked;
    assert Copies(z, id) == 0;
  }

  lemma BreaksBreak(y: System, st: Step)
    requires Exclusive(y) && Enabled(y, st) && Breaks(y, st)
    ensures !Exclusive(Next(y, st))
  {
    if st.action.Crash? {
      CrashBreaks(y, st);
    } else if PromotesAgain(y.store, y.doing[st.action.worker]) {
      PromotesAgainBreaks(y, st);
    } else {
      OvertakesBreaks(y, st);
    }
  }

  lemma KeepsKeep(y: System, st: Step)
    requires Exclusive(y) && Enabled(y, st) && !Breaks(y, st)
    ensures Exclusive(Next(y, st))
  {
    match st.action
    case Go(_, _) =>
      TruthfulNext(y, st);
      GoConserves(y, st);
      GoHeldAlone(y, st);
      GoKnown(y, st);
    case Offer(_, _, _) => OfferExclusive(y, st);
    case Withdraw(_) => OfferExclusive(y, st);
    case Deposit(_) => DepositExclusive(y, st);
    case _ => TurnExclusive(y, st);
  }

  /** One command keeps exact conservation if and only if it does not act on a stale read or drop a job. */
  lemma ExclusiveStep(y: System, st: Step)
    requires Exclusive(y) && Enabled(y, st)
    ensures Exclusive(Next(y, st)) <==> !Breaks(y, st)
  {
    if Breaks(y, st) {
      BreaksBreak(y, st);
    } else {
      KeepsKeep(y, st);
    }
  }

  // --- Runs ------------------------------------------------------------------------------------------------

  ghost predicate NothingBreaks(y: System, steps: seq<Step>)
    decreases |steps|
  {
    steps == [] || (!Breaks(y, steps[0]) && NothingBreaks(Next(y, steps[0]), steps[1..]))
  }

  ghost predicate AlwaysExclusive(y: System, steps: seq<Step>)
    decreases |steps|
  {
    Exclusive(y) && (steps == [] || AlwaysExclusive(Next(y, steps[0]), steps[1..]))
  }

  lemma StartExclusive()
    ensures Exclusive(START)
  {
    forall id ensures Copies(START, id) == 0 {
      assert DelayedOf(START.store.delayed, id) == {};
      assert CarriersOf(START.doing, id) == {};
    }
  }

  lemma {:induction false} ExclusiveFrom(y: System, steps: seq<Step>)
    requires Exclusive(y) && Legal(y, steps)
    ensures AlwaysExclusive(y, steps) <==> NothingBreaks(y, steps)
    ensures NothingBreaks(y, steps) ==> Exclusive(Run(y, steps))
    decreases |steps|
  {
    if steps == [] {
    } else {
      ExclusiveStep(y, steps[0]);
      if Exclusive(Next(y, steps[0])) {
        ExclusiveFrom(Next(y, steps[0]), steps[1..]);
      }
    }
  }

  /** Whatever interleaves, every state of a run conserves jobs exactly if and only if no command of it breaks it. */
  lemma ExclusiveExactly(steps: seq<Step>)
    requires Legal(START, steps)
    ensures AlwaysExclusive(START, steps) <==> NothingBreaks(START, steps)
  {
    StartExclusive();
    ExclusiveFrom(START, steps);
  }

  /** In such a run a deposited job is in exactly one list, on its way between two, or acknowledged, once. */
  lemma ExactlyOnePlace(steps: seq<Step>, id: string)
    requires Legal(START, steps) && NothingBreaks(START, steps)
    ensures var y := Run(START, steps);
            Entries(y.store, id) + |CarriersOf(y.doing, id)| + One(id in y.acked) == One(id in y.pushed)
  {
    StartExclusive();
    ExclusiveFrom(START, steps);
    assert Copies(Run(START, steps), id) == One(id in Run(START, steps).pushed);
  }

  // --- Deliveries --------------------------------------------------------------------------------------------

  predicate Delivers(y: System, st: Step, id: string) {
    && st.action.Deliver? && st.action.outcome.Delivered?
    && Of(y, st.action.worker).Handling? && Of(y, st.action.worker).job.id == id
  }

  /** A worker has delivered the job and has not taken its entry out yet. */
  ghost predicate Unacknowledged(doing: map<nat, Doing>, id: string) {
    exists w :: w in doing && doing[w].Acking? && doing[w].job.id == id
  }

  /** The worker dies right there: the job was delivered, and nobody will know. */
  predicate Forgets(y: System, st: Step, id: string) {
    && st.action.Crash? && Of(y, st.action.worker).Acking? && Of(y, st.action.worker).job.id == id
  }

  function Deliveries(y: System, steps: seq<Step>, id: string): nat
    decreases |steps|
  {
    if steps == [] then 0 else One(Delivers(y, steps[0], id)) + Deliveries(Next(y, steps[0]), steps[1..], id)
  }

  ghost predicate NeverForgets(y: System, steps: seq<Step>, id: string)
    decreases |steps|
  {
    steps == [] || (!Forgets(y, steps[0], id) && NeverForgets(Next(y, steps[0]), steps[1..], id))
  }

  /** A delivery turns a worker to acknowledging, and that turns into the acknowledgement. */
  lemma DeliveryStep(y: System, st: Step, id: string)
    requires Exclusive(y) && Enabled(y, st) && !Forgets(y, st, id)
    ensures var z := Next(y, st);
            One(Delivers(y, st, id)) + One(Unacknowledged(y.doing, id)) + One(id in y.acked)
            == One(Unacknowledged(z.doing, id)) + One(id in z.acked)
  {
    if Delivers(y, st, id) {
      DeliverTurns(y, st, id);
    } else if st.action.Go? && y.doing[st.action.worker].Acking? && y.doing[st.action.worker].job.id == id {
      AckTurns(y, st, id);
    } else {
      OtherTurns(y, st, id);
    }
  }

  lemma DeliverTurns(y: System, st: Step, id: string)
    requires Exclusive(y) && Enabled(y, st) && Delivers(y, st, id)
    ensures !Unacknowledged(y.doing, id) && id !in y.acked
    ensures Unacknowledged(Next(y, st).doing, id) && Next(y, st).acked == y.acked
  {
    var w, z := st.action.worker, Next(y, st);
    OnlyCopy(y, y.doing[w].job);
    if x :| x in y.doing && y.doing[x].Acking? && y.doing[x].job.id == id {
      assert SameHand(y.doing[x], y.doing[w]);
    }
    assert w in z.doing && z.doing[w].Acking? && z.doing[w].job.id == id;
  }

  lemma AckTurns(y: System, st: Step, id: string)
    requires Exclusive(y) && Enabled(y, st)
    requires st.action.Go? && y.doing[st.action.worker].Acking? && y.doing[st.action.worker].job.id == id
    ensures Unacknowledged(y.doing, id) && id !in y.acked
    ensures !Unacknowledged(Next(y, st).doing, id) && id in Next(y, st).acked
  {
    var w, z := st.action.worker, Next(y, st);
    OnlyCopy(y, y.doing[w].job);
    if x :| x in z.doing && z.doing[x].Acking? && z.doing[x].job.id == id {
      assert x != w && SameHand(y.doing[x], y.doing[w]);
    }
  }

  /** Only the worker that acts can come to or from acknowledging. */
  lemma OtherTurns(y: System, st: Step, id: string)
    requires Enabled(y, st) && !Forgets(y, st, id) && !Delivers(y, st, id)
    requires st.action.Go? ==> !(y.doing[st.action.worker].Acking? && y.doing[st.action.worker].job.id == id)
    ensures Unacknowledged(Next(y, st).doing, id) <==> Unacknowledged(y.doing, id)
    ensures id in Next(y, st).acked <==> id in y.acked
  {
    var z := Next(y, st);
    if st.action.Go? {
      var e := Command(y.store, y.doing[st.action.worker], st.now, st.action.staleAfter).1;
      CommandNotAcking(y.store, y.doing[st.action.worker], st.now, st.action.staleAfter);
      assert z.doing == y.doing[st.action.worker := e];
      SameUnacknowledged(y.doing, st.action.worker, e, id);
    } else if Turns(st.action) {
      TurnQuiet(y, st);
      SameUnacknowledged(y.doing, st.action.worker, TurnTo(y, st), id);
    } else {
      ProducerQuiet(y, st);
    }
  }

  lemma CommandNotAcking(s: Store, d: Doing, now: int, staleAfter: int)
    requires !d.Idle? && !d.Handling?
    ensures !Command(s, d, now, staleAfter).1.Acking?
  {}

  lemma SameUnacknowledged(doing: map<nat, Doing>, w: nat, d: Doing, id: string)
    requires !(d.Acking? && d.job.id == id) && (w in doing ==> !(doing[w].Acking? && doing[w].job.id == id))
    ensures Unacknowledged(doing[w := d], id) <==> Unacknowledged(doing, id)
  {
    if x :| x in doing && doing[x].Acking? && doing[x].job.id == id {
      assert x in doing[w := d] && doing[w := d][x] == doing[x];
    }
  }

  lemma {:induction false} DeliveriesFrom(y: System, steps: seq<Step>, id: string)
    requires Exclusive(y) && Legal(y, steps) && NothingBreaks(y, steps) && NeverForgets(y, steps, id)
    ensures Deliveries(y, steps, id) + One(Unacknowledged(y.doing, id)) + One(id in y.acked)
         == One(Unacknowledged(Run(y, steps).doing, id)) + One(id in Run(y, steps).acked)
    ensures Exclusive(Run(y, steps))
    decreases |steps|
  {
    if steps == [] {
    } else {
      DeliveryStep(y, steps[0], id);
      ExclusiveStep(y, steps[0]);
      DeliveriesFrom(Next(y, steps[0]), steps[1..], id);
    }
  }

  /** In such a run, if no worker dies between delivering a job and acknowledging it, it is delivered at most once. */
  lemma DeliveredOnce(steps: seq<Step>, id: string)
    requires Legal(START, steps) && NothingBreaks(START, steps) && NeverForgets(START, steps, id)
    ensures Deliveries(START, steps, id) <= 1
    ensures Deliveries(START, steps, id) == 1
            <==> id in Run(START, steps).acked || Unacknowledged(Run(START, steps).doing, id)
  {
    StartExclusive();
    DeliveriesFrom(START, steps, id);
    var y := Run(START, steps);
    if w :| w in y.doing && y.doing[w].Acking? && y.doing[w].job.id == id {
      OnlyCopy(y, y.doing[w].job);
    }
  }

  // --- Runs that show the conditions are needed ----------------------------------------------------------------

  lemma Unfold(y: System, st: Step, next: System, rest: seq<Step>, id: string)
    requires Enabled(y, st) && next == Next(y, st) && Legal(next, rest)
    ensures Legal(y, [st] + rest) && Run(y, [st] + rest) == Run(next, rest)
    ensures NothingBreaks(y, [st] + rest) <==> !Breaks(y, st) && NothingBreaks(next, rest)
    ensures Deliveries(y, [st] + rest, id) == One(Delivers(y, st, id)) + Deliveries(next, rest, id)
  {
    assert ([st] + rest)[1..] == rest;
  }

  /** One job, pushed, reserved by worker 1 and marked, all at time 0. */
  ghost predicate Started(y: System, job: Job) {
    && y.clock == 0 && y.doing == map[1 := Handling(job)] && y.offered == map[] && y.acked == {}
    && y.store.queue == [] && y.store.processing == [job] && y.store.delayed == map[] && y.store.dlq == []
    && y.store.records == map[job.id := Record(InProcess, 0, job.attempts, RECORD_TTL_MS)]
  }

  function Start(req: Request, rest: seq<Step>): seq<Step> {
    [Step(0, Offer(req, "a", 1))] + ([Step(0, Deposit("a"))] + ([Step(0, Take(1))] + ([Step(0, Go(1, 0))] + rest)))
  }

  lemma StartRuns(req: Request, y4: System, rest: seq<Step>)
    requires var job := NewJob(req, "a", 0);
             y4 == Next(Next(Next(Next(START, Step(0, Offer(req, "a", 1))), Step(0, Deposit("a"))), Step(0, Take(1))),
                        Step(0, Go(1, 0)))
    requires Legal(y4, rest)
    ensures Legal(START, Start(req, rest)) && Run(START, Start(req, rest)) == Run(y4, rest)
    ensures NothingBreaks(START, Start(req, rest)) <==> NothingBreaks(y4, rest)
    ensures Deliveries(START, Start(req, rest), "a") == Deliveries(y4, rest, "a")
  {
    var a, b, c, d := Step(0, Offer(req, "a", 1)), Step(0, Deposit("a")), Step(0, Take(1)), Step(0, Go(1, 0));
    var y1 := Next(START, a);
    var y2 := Next(y1, b);
    var y3 := Next(y2, c);
    StartIs(req, y1, y2, y3, y4);
    Unfold(y3, d, y4, rest, "a");
    Unfold(y2, c, y3, [d] + rest, "a");
    Unfold(y1, b, y2, [c] + ([d] + rest), "a");
    Unfold(START, a, y1, [b] + ([c] + ([d] + rest)), "a");
  }

  lemma StartIs(req: Request, y1: System, y2: System, y3: System, y4: System)
    requires y1 == Next(START, Step(0, Offer(req, "a", 1))) && y2 == Next(y1, Step(0, Deposit("a")))
    requires y3 == Next(y2, Step(0, Take(1))) && y4 == Next(y3, Step(0, Go(1, 0)))
    ensures var job := NewJob(req, "a", 0);
            && y1.clock == 0 && "a" in y1.offered
            && y2.clock == 0 && y2.doing == map[]
            && y3.clock == 0 && y3.doing == map[1 := Marking(job)]
            && Started(y4, job)
  {
    assert y2.store.queue == [NewJob(req, "a", 0)];
    assert y3.store.processing == [NewJob(req, "a", 0)];
  }

  /** The job fails, is parked for a minute, and two workers read it as due and promote it. */
  function PromoteTwice(parked: Job, message: string): seq<Step> {
    [Step(0, Deliver(1, Failed(message)))]
    + ([Step(0, Go(1, 0))] + ([Step(0, Go(1, 0))] + ([Step(0, Go(1, 0))] + Promotions(parked))))
  }

  function Promotions(parked: Job): seq<Step> {
    [Step(60_000, ReadDue(1, [parked]))] + ([Step(60_000, ReadDue(2, [parked]))]
    + ([Step(60_000, Go(1, 0))] + ([Step(60_000, Go(2, 0))] + [])))
  }

  /** Two promotions that overlap put one job on the queue twice, with no recovery at all. */
  lemma PromotedTwice(req: Request, message: string)
    requires req.attempts == None && NewJob(req, "a", 0).maxAttempts > 1
    ensures var parked := Delayed(NewJob(req, "a", 0), 60_000, Some(message), 0);
            var steps := Start(req, PromoteTwice(parked, message));
            && Legal(START, steps) && Run(START, steps).store.queue == [parked, parked]
  {
    var job := NewJob(req, "a", 0);
    var parked := Delayed(job, 60_000, Some(message), 0);
    var y1 := Next(START, Step(0, Offer(req, "a", 1)));
    var y2 := Next(y1, Step(0, Deposit("a")));
    var y3 := Next(y2, Step(0, Take(1)));
    var y4 := Next(y3, Step(0, Go(1, 0)));
    StartIs(req, y1, y2, y3, y4);
    assert Pow2(0) == 1 && Backoff(0) == 60_000;
    RetryRuns(y4, job, parked, message);
    StartRuns(req, y4, PromoteTwice(parked, message));
  }

  lemma RetryRuns(y: System, job: Job, parked: Job, message: string)
    requires Started(y, job) && job.attempts == 0 && job.maxAttempts > 1 && Backoff(0) == 60_000
    requires parked == Delayed(job, 60_000, Some(message), 0)
    ensures Legal(y, PromoteTwice(parked, message))
    ensures Run(y, PromoteTwice(parked, message)).store.queue == [parked, parked]
  {
    var a, g := Step(0, Deliver(1, Failed(message))), Step(0, Go(1, 0));
    var y1 := Next(y, a);
    var y2 := Next(y1, g);
    var y3 := Next(y2, g);
    var y4 := Next(y3, g);
    assert y1.doing == map[1 := Rescheduling(job, parked, 60_000)];
    assert y2.doing == map[1 := Parking(parked, 60_000)];
    assert y3.doing == map[1 := Closing(parked.id, Retrying, parked.attempts)];
    assert y4.doing == map[1 := Idle] && y4.store.delayed == map[parked := 60_000] && y4.store.queue == [];
    PromotionsRun(y4, parked);
    Unfold(y3, g, y4, Promotions(parked), "a");
    Unfold(y2, g, y3, [g] + Promotions(parked), "a");
    Unfold(y1, g, y2, [g] + ([g] + Promotions(parked)), "a");
    Unfold(y, a, y1, [g] + ([g] + ([g] + Promotions(parked))), "a");
  }

  lemma PromotionsRun(y: System, parked: Job)
    requires y.clock == 0 && y.doing == map[1 := Idle]
    requires y.store.delayed == map[parked := 60_000] && y.store.queue == []
    ensures Legal(y, Promotions(parked)) && Run(y, Promotions(parked)).store.queue == [parked, parked]
  {
    var a, b := Step(60_000, ReadDue(1, [parked])), Step(60_000, ReadDue(2, [parked]));
    var c, d := Step(60_000, Go(1, 0)), Step(60_000, Go(2, 0));
    var y1 := Next(y, a);
    var y2 := Next(y1, b);
    var y3 := Next(y2, c);
    var y4 := Next(y3, d);
    BothRead(y, parked, y1, y2);
    BothPush(y2, parked, y3, y4);
    Unfold(y3, d, y4, [], "a");
    Unfold(y2, c, y3, [d] + [], "a");
    Unfold(y1, b, y2, [c] + ([d] + []), "a");
    Unfold(y, a, y1, [b] + ([c] + ([d] + [])), "a");
  }

  ghost predicate BothPromote(y: System, parked: Job) {
    && y.clock == 60_000 && y.doing == map[1 := Promoting([parked]), 2 := Promoting([parked])]
    && y.store.queue == []
  }

  lemma BothRead(y: System, parked: Job, y1: System, y2: System)
    requires y.clock == 0 && y.doing == map[1 := Idle]
    requires y.store.delayed == map[parked := 60_000] && y.store.queue == []
    requires y1 == Next(y, Step(60_000, ReadDue(1, [parked]))) && y2 == Next(y1, Step(60_000, ReadDue(2, [parked])))
    ensures Enabled(y, Step(60_000, ReadDue(1, [parked]))) && Enabled(y1, Step(60_000, ReadDue(2, [parked])))
    ensures BothPromote(y2, parked)
  {
    assert IsDueBatch(y.store.delayed, 60_000, [parked]);
    assert y1.store == y.store && y1.doing == map[1 := Promoting([parked])];
  }

  lemma BothPush(y: System, parked: Job, y1: System, y2: System)
    requires BothPromote(y, parked)
    requires y1 == Next(y, Step(60_000, Go(1, 0))) && y2 == Next(y1, Step(60_000, Go(2, 0)))
    ensures Enabled(y, Step(60_000, Go(1, 0))) && Enabled(y1, Step(60_000, Go(2, 0)))
    ensures y2.store.queue == [parked, parked]
  {
    PushOne(y.store, parked);
    PushOne(y1.store, parked);
    assert y1.store == Promote(y.store, [parked]) && y1.doing[2] == Promoting([parked]) && y1.clock == 60_000;
  }

  lemma PushOne(s: Store, parked: Job)
    ensures Promote(s, [parked]).queue == [parked] + s.queue
  {
    assert [parked][..0] == [] && Reverse([parked]) == [parked];
  }

  /** A job whose handler failed is taken out, and its worker dies before putting it back. */
  function TakeOutAndDie(message: string): seq<Step> {
    [Step(0, Deliver(1, Failed(message)))] + ([Step(0, Go(1, 0))] + ([Step(0, Crash(1))] + []))
  }

  /** A crash between the two commands of a retry, or of a burial, loses the job: it is nowhere and not acknowledged. */
  lemma CrashLosesJob(req: Request, message: string)
    ensures var steps := Start(req, TakeOutAndDie(message));
            Legal(START, steps) && "a" in Run(START, steps).pushed && !Kept(Run(START, steps), "a")
  {
    var y1 := Next(START, Step(0, Offer(req, "a", 1)));
    var y2 := Next(y1, Step(0, Deposit("a")));
    var y3 := Next(y2, Step(0, Take(1)));
    var y4 := Next(y3, Step(0, Go(1, 0)));
    StartIs(req, y1, y2, y3, y4);
    LosingRuns(y4, NewJob(req, "a", 0), message);
    StartRuns(req, y4, TakeOutAndDie(message));
  }

  lemma LosingRuns(y: System, job: Job, message: string)
    requires Started(y, job)
    ensures Legal(y, TakeOutAndDie(message))
    ensures Run(y, TakeOutAndDie(message)).pushed == y.pushed && !Kept(Run(y, TakeOutAndDie(message)), job.id)
  {
    var a, b, c := Step(0, Deliver(1, Failed(message))), Step(0, Go(1, 0)), Step(0, Crash(1));
    var y1 := Next(y, a);
    var y2 := Next(y1, b);
    var y3 := Next(y2, c);
    Lost(y, job, message, y1, y2, y3);
    Unfold(y2, c, y3, [], "a");
    Unfold(y1, b, y2, [c] + [], "a");
    Unfold(y, a, y1, [b] + ([c] + []), "a");
  }

  lemma Lost(y: System, job: Job, message: string, y1: System, y2: System, y3: System)
    requires Started(y, job) && y1 == Next(y, Step(0, Deliver(1, Failed(message))))
    requires y2 == Next(y1, Step(0, Go(1, 0))) && y3 == Next(y2, Step(0, Crash(1)))
    ensures Enabled(y1, Step(0, Go(1, 0))) && Enabled(y2, Step(0, Crash(1)))
    ensures y3.pushed == y.pushed && !Kept(y3, job.id)
  {
    assert y1.doing == map[1 := AfterHandler(job, Failed(message), 0)];
    assert LRem([job], job) == [];
    assert y3.doing == map[1 := Idle] && y3.store == y.store.(processing := []);
    assert DelayedOf(y3.store.delayed, job.id) == {};
  }

  /** The worker dies between delivering the job and acknowledging it, and another recovers, takes and delivers it. */
  function Forgotten(): seq<Step> {
    [Step(0, Deliver(1, Delivered))] + ([Step(0, Crash(1))] + ([Step(300_000, ReadProcessing(2))] + Recovering(4)))
  }

  function Recovering(commands: nat): seq<Step> {
    if commands == 0 then Again() else [Step(300_000, Go(2, 300_000))] + Recovering(commands - 1)
  }

  function Again(): seq<Step> {
    [Step(300_000, Take(2))] + ([Step(300_000, Go(2, 0))] + ([Step(300_000, Deliver(2, Delivered))] + []))
  }

  ghost predicate Works(y: System, steps: seq<Step>, deliveries: nat) {
    Legal(y, steps) && NothingBreaks(y, steps) && Deliveries(y, steps, "a") == deliveries
  }

  lemma Prepend(y: System, st: Step, next: System, rest: seq<Step>, deliveries: nat)
    requires Enabled(y, st) && !Breaks(y, st) && next == Next(y, st) && Works(next, rest, deliveries)
    ensures Works(y, [st] + rest, One(Delivers(y, st, "a")) + deliveries)
  {
    Unfold(y, st, next, rest, "a");
  }

  /** A worker that dies before acknowledging is enough for a second delivery: conservation holds all the way. */
  lemma ForgottenDelivery(req: Request)
    ensures var steps := Start(req, Forgotten());
            Legal(START, steps) && NothingBreaks(START, steps) && Deliveries(START, steps, "a") == 2
  {
    var y1 := Next(START, Step(0, Offer(req, "a", 1)));
    var y2 := Next(y1, Step(0, Deposit("a")));
    var y3 := Next(y2, Step(0, Take(1)));
    var y4 := Next(y3, Step(0, Go(1, 0)));
    StartIs(req, y1, y2, y3, y4);
    ForgottenRuns(y4, NewJob(req, "a", 0));
    StartRuns(req, y4, Forgotten());
  }

  lemma ForgottenRuns(y: System, job: Job)
    requires Started(y, job) && job.id == "a"
    ensures Works(y, Forgotten(), 2)
  {
    var a, b, c := Step(0, Deliver(1, Delivered)), Step(0, Crash(1)), Step(300_000, ReadProcessing(2));
    var y1 := Next(y, a);
    var y2 := Next(y1, b);
    Dies(y, job, y1, y2);
    ReadRuns(y2, job);
    Prepend(y1, b, y2, [c] + Recovering(4), 1);
    Prepend(y, a, y1, [b] + ([c] + Recovering(4)), 1);
  }

  lemma Dies(y: System, job: Job, y1: System, y2: System)
    requires Started(y, job) && job.id == "a"
    requires y1 == Next(y, Step(0, Deliver(1, Delivered))) && y2 == Next(y1, Step(0, Crash(1)))
    ensures Delivers(y, Step(0, Deliver(1, Delivered)), "a") && y1.doing == map[1 := Acking(job)] && y1.clock == 0
    ensures y2.doing == map[1 := Idle] && y2.store == y.store && y2.clock == 0
  {}

  ghost predicate Reading(y: System, job: Job, d: Doing) {
    && y.clock <= 300_000 && job.id == "a" && 2 in y.doing && y.doing[2] == d
    && (forall w :: w in y.doing && w != 2 ==> y.doing[w].Idle?)
    && y.store.records == map[job.id := Record(InProcess, 0, job.attempts, RECORD_TTL_MS)]
  }

  lemma ReadRuns(y: System, job: Job)
    requires y.clock == 0 && y.doing == map[1 := Idle] && job.id == "a"
    requires y.store.queue == [] && y.store.processing == [job]
    requires y.store.records == map[job.id := Record(InProcess, 0, job.attempts, RECORD_TTL_MS)]
    ensures Works(y, [Step(300_000, ReadProcessing(2))] + Recovering(4), 1)
  {
    var st := Step(300_000, ReadProcessing(2));
    var next := Next(y, st);
    ReadIs(y, job, next);
    ScanRuns(next, job);
    Prepend(y, st, next, Recovering(4), 1);
  }

  lemma ReadIs(y: System, job: Job, next: System)
    requires y.doing == map[1 := Idle] && job.id == "a" && y.store.processing == [job]
    requires y.store.records == map[job.id := Record(InProcess, 0, job.attempts, RECORD_TTL_MS)]
    requires next == Next(y, Step(300_000, ReadProcessing(2)))
    ensures Reading(next, job, Scanning([job])) && next.store == y.store && Of(y, 2).Idle?
  {}

  lemma ScanRuns(y: System, job: Job)
    requires Reading(y, job, Scanning([job])) && y.store.queue == [] && y.store.processing == [job]
    ensures Works(y, Recovering(4), 1)
  {
    var st := Step(300_000, Go(2, 300_000));
    JudgedRuns(Next(y, st), job);
    Prepend(y, st, Next(y, st), Recovering(3), 1);
  }

  lemma JudgedRuns(y: System, job: Job)
    requires Reading(y, job, Judged(job, Requeue, [])) && y.store.queue == [] && y.store.processing == [job]
    ensures Works(y, Recovering(3), 1)
  {
    var st := Step(300_000, Go(2, 300_000));
    var next := Next(y, st);
    JudgedIs(y, job, next);
    MovingRuns(next, job);
    Prepend(y, st, next, Recovering(2), 1);
  }

  lemma JudgedIs(y: System, job: Job, next: System)
    requires Reading(y, job, Judged(job, Requeue, [])) && y.store.queue == [] && y.store.processing == [job]
    requires next == Next(y, Step(300_000, Go(2, 300_000)))
    ensures Reading(next, job, Moving(job, [])) && next.store.queue == []
    ensures Enabled(y, Step(300_000, Go(2, 300_000))) && !Breaks(y, Step(300_000, Go(2, 300_000)))
  {}

  lemma MovingRuns(y: System, job: Job)
    requires Reading(y, job, Moving(job, [])) && y.store.queue == []
    ensures Works(y, Recovering(2), 1)
  {
    var st := Step(300_000, Go(2, 300_000));
    RecoveredRuns(Next(y, st), job);
    Prepend(y, st, Next(y, st), Recovering(1), 1);
  }

  lemma RecoveredRuns(y: System, job: Job)
    requires Reading(y, job, Scanning([])) && y.store.queue == [job]
    ensures Works(y, Recovering(1), 1)
  {
    var st := Step(300_000, Go(2, 300_000));
    AgainRuns(Next(y, st), job);
    Prepend(y, st, Next(y, st), Again(), 1);
  }

  lemma AgainRuns(y: System, job: Job)
    requires Reading(y, job, Idle) && y.store.queue == [job]
    ensures Works(y, Again(), 1)
  {
    var a, b, c := Step(300_000, Take(2)), Step(300_000, Go(2, 0)), Step(300_000, Deliver(2, Delivered));
    var y1 := Next(y, a);
    var y2 := Next(y1, b);
    Takes(y, job, y1, y2);
    Prepend(y2, c, Next(y2, c), [], 0);
    Prepend(y1, b, y2, [c] + [], 1);
    Prepend(y, a, y1, [b] + ([c] + []), 1);
  }

  lemma Takes(y: System, job: Job, y1: System, y2: System)
    requires Reading(y, job, Idle) && y.store.queue == [job]
    requires y1 == Next(y, Step(300_000, Take(2))) && y2 == Next(y1, Step(300_000, Go(2, 0)))
    ensures 2 in y1.doing && y1.doing[2] == Marking(job) && y1.clock == 300_000
    ensures 2 in y2.doing && y2.doing[2] == Handling(job) && y2.clock == 300_000
  {}
}
