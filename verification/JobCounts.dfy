/** How many entries of a list carry a given job id, and how the list commands change that. */
module JobCounts {
  import opened Common
  import opened CommunicationQueue

  function Count(list: seq<Job>, id: string): nat {
    if list == [] then 0
    else Count(list[..|list| - 1], id) + if list[|list| - 1].id == id then 1 else 0
  }

  function DelayedOf(delayed: map<Job, int>, id: string): set<Job> {
    set j | j in delayed && j.id == id
  }

  lemma {:induction false} CountConcat(a: seq<Job>, b: seq<Job>, id: string)
    ensures Count(a + b, id) == Count(a, id) + Count(b, id)
  {
    if b == [] {
      assert a + b == a;
    } else {
      assert (a + b)[..|a + b| - 1] == a + b[..|b| - 1];
      CountConcat(a, b[..|b| - 1], id);
    }
  }

  lemma CountOne(x: Job, id: string)
    ensures Count([x], id) == if x.id == id then 1 else 0
  {
    assert [x][..0] == [];
  }

  /** A count is positive exactly when some entry carries the id. */
  lemma {:induction false} CountPositive(list: seq<Job>, id: string)
    ensures Count(list, id) > 0 <==> exists j :: j in list && j.id == id
  {
    if list == [] {
    } else {
      var init, last := list[..|list| - 1], list[|list| - 1];
      assert list == init + [last];
      CountPositive(init, id);
      if Count(init, id) > 0 {
        var j :| j in init && j.id == id;
        assert j in list;
      }
      if j :| j in list && j.id == id {
        assert j in init || j == last;
      }
    }
  }

  /** Two different entries with one id count twice. */
  lemma {:induction false} CountTwo(list: seq<Job>, a: Job, b: Job)
    requires a in list && b in list && a != b && a.id == b.id
    ensures Count(list, a.id) >= 2
  {
    var init, last := list[..|list| - 1], list[|list| - 1];
    assert list == init + [last];
    if a in init && b in init {
      CountTwo(init, a, b);
    } else {
      CountPositive(init, a.id);
    }
  }

  lemma {:induction false} CountLRem(list: seq<Job>, x: Job, id: string)
    ensures Count(LRem(list, x), id) == Count(list, id) - if x in list && x.id == id then 1 else 0
  {
    if list == [] {
    } else {
      assert list == [list[0]] + list[1..];
      CountConcat([list[0]], list[1..], id);
      CountOne(list[0], id);
      if list[0] != x {
        CountLRem(list[1..], x, id);
        CountConcat([list[0]], LRem(list[1..], x), id);
      }
    }
  }

  lemma {:induction false} CountReverse(list: seq<Job>, id: string)
    ensures Count(Reverse(list), id) == Count(list, id)
  {
    if list == [] {
    } else {
      var init, last := list[..|list| - 1], list[|list| - 1];
      CountReverse(init, id);
      CountConcat([last], Reverse(init), id);
      CountOne(last, id);
    }
  }

  lemma {:induction false} ReverseMembers(list: seq<Job>)
    ensures forall j :: j in Reverse(list) <==> j in list
  {
    if list == [] {
    } else {
      ReverseMembers(list[..|list| - 1]);
      assert list == list[..|list| - 1] + [list[|list| - 1]];
    }
  }

  lemma {:induction false} LRemMembers(list: seq<Job>, x: Job)
    ensures forall j :: j in LRem(list, x) ==> j in list
    ensures forall j :: j in list && j != x ==> j in LRem(list, x)
  {
    if list == [] {
    } else {
      assert list == [list[0]] + list[1..];
      if list[0] != x {
        LRemMembers(list[1..], x);
      }
    }
  }

  lemma CountSelectLast(init: seq<Job>, last: Job, records: map<string, Record>, now: int, staleAfter: int,
                        fate: Fate, id: string)
    ensures Count(Select(init + [last], records, now, staleAfter, fate), id)
         == Count(Select(init, records, now, staleAfter, fate), id)
            + if FateOf(records, last, now, staleAfter) == fate && last.id == id then 1 else 0
  {
    assert (init + [last])[..|init|] == init;
    var chosen := Select(init, records, now, staleAfter, fate);
    assert chosen + [] == chosen && (chosen + [last])[..|chosen|] == chosen;
  }

  /** The three fates share the processing list out. */
  lemma {:induction false} CountSelect(jobs: seq<Job>, records: map<string, Record>, now: int, staleAfter: int,
                                       id: string)
    ensures Count(Select(jobs, records, now, staleAfter, Keep), id)
            + Count(Select(jobs, records, now, staleAfter, Requeue), id)
            + Count(Select(jobs, records, now, staleAfter, Discard), id) == Count(jobs, id)
  {
    if jobs == [] {
    } else {
      var init, last := jobs[..|jobs| - 1], jobs[|jobs| - 1];
      assert jobs == init + [last];
      CountSelect(init, records, now, staleAfter, id);
      CountSelectLast(init, last, records, now, staleAfter, Keep, id);
      CountSelectLast(init, last, records, now, staleAfter, Requeue, id);
      CountSelectLast(init, last, records, now, staleAfter, Discard, id);
    }
  }

  lemma RemoveOne(delayed: map<Job, int>, x: Job, id: string)
    requires x in delayed
    ensures |DelayedOf(delayed - {x}, id)| + (if x.id == id then 1 else 0) == |DelayedOf(delayed, id)|
  {
    if x.id == id {
      assert DelayedOf(delayed - {x}, id) == DelayedOf(delayed, id) - {x};
    } else {
      assert DelayedOf(delayed - {x}, id) == DelayedOf(delayed, id);
    }
  }

  /** A due batch takes out of the delayed set exactly what it counts. */
  lemma {:induction false} CountBatch(delayed: map<Job, int>, batch: seq<Job>, id: string)
    requires Distinct(batch) && Members(batch) <= delayed.Keys
    ensures Count(batch, id) + |DelayedOf(delayed - Members(batch), id)| == |DelayedOf(delayed, id)|
  {
    if batch == [] {
      assert delayed - Members(batch) == delayed;
    } else {
      var init, last := batch[..|batch| - 1], batch[|batch| - 1];
      assert Members(batch) == Members(init) + {last} by {
        assert batch == init + [last];
      }
      CountBatch(delayed, init, id);
      RemoveOne(delayed - Members(init), last, id);
      assert delayed - Members(batch) == delayed - Members(init) - {last};
    }
  }

  lemma AddOne(delayed: map<Job, int>, x: Job, score: int, id: string)
    requires x !in delayed
    ensures |DelayedOf(delayed[x := score], id)| == |DelayedOf(delayed, id)| + if x.id == id then 1 else 0
  {
    if x.id == id {
      assert DelayedOf(delayed[x := score], id) == DelayedOf(delayed, id) + {x};
    } else {
      assert DelayedOf(delayed[x := score], id) == DelayedOf(delayed, id);
    }
  }

  // --- What each queue function does to the number of entries of an id ---------

  /** Entries of an id over the four places. */
  function Entries(s: Store, id: string): nat {
    Count(s.queue, id) + Count(s.processing, id) + |DelayedOf(s.delayed, id)| + Count(DeadJobs(s.dlq), id)
  }

  function One(b: bool): nat { if b then 1 else 0 }

  lemma EnqueueEntries(s: Store, req: Request, job: string, now: int, ttl: int, id: string)
    ensures Entries(Enqueue(s, req, job, now, ttl), id)
         == Entries(s, id) + One(id == job && !Locked(s, DedupeKey(req.jobType, req.digest), now))
  {
    CountConcat([NewJob(req, job, now)], s.queue, id);
    CountOne(NewJob(req, job, now), id);
  }

  lemma ReserveEntries(s: Store, now: int, id: string)
    ensures Entries(Reserve(s, now), id) == Entries(s, id)
  {
    if s.queue != [] {
      var job := s.queue[|s.queue| - 1];
      CountConcat([job], s.processing, id);
      CountOne(job, id);
    }
  }

  lemma AcknowledgeEntries(s: Store, job: Job, now: int, id: string)
    ensures Entries(Acknowledge(s, job, now), id) == Entries(s, id) - One(job in s.processing && job.id == id)
  {
    CountLRem(s.processing, job, id);
  }

  lemma MoveToDlqEntries(s: Store, job: Job, error: string, now: int, id: string)
    ensures Entries(MoveToDlq(s, job, error, now), id)
         == Entries(s, id) - One(job in s.processing && job.id == id) + One(job.id == id)
  {
    CountLRem(s.processing, job, id);
    assert DeadJobs([DeadJob(job, now, error)] + s.dlq) == [job] + DeadJobs(s.dlq);
    CountConcat([job], DeadJobs(s.dlq), id);
    CountOne(job, id);
  }

  lemma ScheduleRetryEntries(s: Store, job: Job, delay: int, error: Option<string>, now: int, id: string)
    ensures Entries(ScheduleRetry(s, job, delay, error, now), id)
         == Entries(s, id) - One(job in s.processing && job.id == id)
            + One(job.id == id && Delayed(job, delay, error, now) !in s.delayed)
  {
    var parked := Delayed(job, delay, error, now);
    CountLRem(s.processing, job, id);
    if parked in s.delayed {
      assert DelayedOf(s.delayed[parked := now + delay], id) == DelayedOf(s.delayed, id);
    } else {
      AddOne(s.delayed, parked, now + delay, id);
    }
  }

  lemma PromoteEntries(s: Store, now: int, batch: seq<Job>, id: string)
    requires IsDueBatch(s.delayed, now, batch)
    ensures Entries(Promote(s, batch), id) == Entries(s, id)
  {
    CountConcat(Reverse(batch), s.queue, id);
    CountReverse(batch, id);
    assert Members(batch) <= s.delayed.Keys by {
      assert forall i :: 0 <= i < |batch| ==> Due(s.delayed, batch[i], now);
    }
    CountBatch(s.delayed, batch, id);
  }

  lemma RecoverEntries(s: Store, now: int, staleAfter: int, id: string)
    ensures Entries(Recover(s, now, staleAfter), id)
         == Entries(s, id) - Count(Select(s.processing, s.records, now, staleAfter, Discard), id)
  {
    var moved := Select(s.processing, s.records, now, staleAfter, Requeue);
    CountSelect(s.processing, s.records, now, staleAfter, id);
    CountConcat(Reverse(moved), s.queue, id);
    CountReverse(moved, id);
  }
}
