/**
 * A queue call whose commands nobody interrupts is the call as one step: the system of
 * `InterleavedCommands` refines the functions of `CommunicationQueue`.
 */
module UninterruptedCalls {
  import opened Common
  import opened CommunicationQueue
  import opened InterleavedCommands

  /** Commands a worker has still to send at most. */
  function Ahead(d: Doing): nat {
    match d
    case Idle => 0
    case Handling(_) => 0
    case Marking(_) => 1
    case Closing(_, _, _) => 1
    case Promoting(_) => 1
    case Freeing(_) => 2
    case Parking(_, _) => 2
    case Entombing(_) => 2
    case Acking(_) => 3
    case Rescheduling(_, _, _) => 3
    case Burying(_, _) => 3
    case Scanning(rest) => 3 * |rest| + 1
    case Moving(_, rest) => 3 * |rest| + 2
    case Judged(_, _, rest) => 3 * |rest| + 3
  }

  lemma CommandsEnd(s: Store, d: Doing, now: int, staleAfter: int)
    requires Ahead(d) > 0
    ensures Ahead(Command(s, d, now, staleAfter).1) < Ahead(d)
  {}

  /** The worker goes on until its call is over; nobody else does anything. */
  function GoOn(y: System, w: nat, now: int, staleAfter: int): System
    decreases Ahead(Of(y, w))
  {
    if Ahead(Of(y, w)) == 0 then y
    else
      CommandsEnd(y.store, Of(y, w), now, staleAfter);
      GoOn(Next(y, Step(now, Go(w, staleAfter))), w, now, staleAfter)
  }

  function Uninterrupted(s: Store, d: Doing, now: int, staleAfter: int): Store
    decreases Ahead(d)
  {
    if Ahead(d) == 0 then s
    else
      CommandsEnd(s, d, now, staleAfter);
      Uninterrupted(Command(s, d, now, staleAfter).0, Command(s, d, now, staleAfter).1, now, staleAfter)
  }

  lemma {:induction false} GoOnStore(y: System, w: nat, now: int, staleAfter: int)
    ensures GoOn(y, w, now, staleAfter).store == Uninterrupted(y.store, Of(y, w), now, staleAfter)
    decreases Ahead(Of(y, w))
  {
    if Ahead(Of(y, w)) > 0 {
      CommandsEnd(y.store, Of(y, w), now, staleAfter);
      GoOnStore(Next(y, Step(now, Go(w, staleAfter))), w, now, staleAfter);
    }
  }

  /** SET NX and LPUSH are a push. */
  lemma PushAlone(y: System, req: Request, id: string, now: int, ttl: int)
    requires id !in y.offered
    ensures var z := Next(y, Step(now, Offer(req, id, ttl)));
            && (id in z.offered <==> !Locked(y.store, DedupeKey(req.jobType, req.digest), now))
            && (if id in z.offered then Next(z, Step(now, Deposit(id))) else z).store
               == Enqueue(y.store, req, id, now, ttl)
  {}

  /** BRPOPLPUSH and SET are a reservation. */
  lemma ReserveAlone(y: System, w: nat, now: int, staleAfter: int)
    ensures GoOn(Next(y, Step(now, Take(w))), w, now, staleAfter).store == Reserve(y.store, now)
  {
    GoOnStore(Next(y, Step(now, Take(w))), w, now, staleAfter);
  }

  /** What follows the handler is the worker's decision: acknowledge, schedule a retry or bury. */
  lemma FinishAlone(y: System, w: nat, outcome: Outcome, now: int, staleAfter: int)
    requires Of(y, w).Handling?
    ensures GoOn(Next(y, Step(now, Deliver(w, outcome))), w, now, staleAfter).store
         == Handle(y.store, Of(y, w).job, outcome, now)
  {
    var job := Of(y, w).job;
    GoOnStore(Next(y, Step(now, Deliver(w, outcome))), w, now, staleAfter);
    EndingAlone(y.store, job, outcome, now, staleAfter);
  }

  lemma EndingAlone(s: Store, job: Job, outcome: Outcome, now: int, staleAfter: int)
    ensures Uninterrupted(s, AfterHandler(job, outcome, now), now, staleAfter) == Handle(s, job, outcome, now)
  {
    var d := AfterHandler(job, outcome, now);
    var (s1, d1) := Command(s, d, now, staleAfter);
    var (s2, d2) := Command(s1, d1, now, staleAfter);
    var (s3, d3) := Command(s2, d2, now, staleAfter);
    assert Ahead(d) == 3 && Ahead(d1) == 2 && Ahead(d2) == 1 && Ahead(d3) == 0;
    assert Uninterrupted(s, d, now, staleAfter) == Uninterrupted(s1, d1, now, staleAfter);
    assert Uninterrupted(s1, d1, now, staleAfter) == Uninterrupted(s2, d2, now, staleAfter);
    assert Uninterrupted(s2, d2, now, staleAfter) == Uninterrupted(s3, d3, now, staleAfter) == s3;
  }

  lemma PromoteAlone(y: System, w: nat, batch: seq<Job>, now: int, staleAfter: int)
    ensures GoOn(Next(y, Step(now, ReadDue(w, batch))), w, now, staleAfter).store == Promote(y.store, batch)
  {
    GoOnStore(Next(y, Step(now, ReadDue(w, batch))), w, now, staleAfter);
  }

  /** LRANGE and then GET, LREM and LPUSH for each entry are a recovery pass. */
  lemma RecoverAlone(y: System, w: nat, now: int, staleAfter: int)
    ensures GoOn(Next(y, Step(now, ReadProcessing(w))), w, now, staleAfter).store == Recover(y.store, now, staleAfter)
  {
    var s := y.store;
    GoOnStore(Next(y, Step(now, ReadProcessing(w))), w, now, staleAfter);
    assert s.processing[..0] == [] && s.processing[0..] == s.processing;
    assert RecoverUpTo(s, 0, now, staleAfter) == s;
    ScanAlone(s, 0, now, staleAfter);
  }

  lemma {:induction false} ScanAlone(s: Store, i: nat, now: int, staleAfter: int)
    requires i <= |s.processing|
    ensures Uninterrupted(RecoverUpTo(s, i, now, staleAfter), Scanning(s.processing[i..]), now, staleAfter)
         == Recover(s, now, staleAfter)
    decreases |s.processing| - i
  {
    if i == |s.processing| {
      assert s.processing[..i] == s.processing;
    } else {
      RecoverTurn(s, i, now, staleAfter);
      ScanTurn(RecoverUpTo(s, i, now, staleAfter), s.processing[i..], now, staleAfter);
      assert s.processing[i..][1..] == s.processing[i + 1..];
      ScanAlone(s, i + 1, now, staleAfter);
    }
  }

  /** The commands for one entry. */
  lemma ScanTurn(t: Store, rest: seq<Job>, now: int, staleAfter: int)
    requires rest != []
    ensures var after :=
              match FateOf(t.records, rest[0], now, staleAfter)
              case Keep => t
              case Discard => t.(processing := LRem(t.processing, rest[0]))
              case Requeue => t.(processing := LRem(t.processing, rest[0]), queue := [rest[0]] + t.queue);
            Uninterrupted(t, Scanning(rest), now, staleAfter)
            == Uninterrupted(after, Scanning(rest[1..]), now, staleAfter)
  {
    var fate := FateOf(t.records, rest[0], now, staleAfter);
    var judged := if fate == Keep then Scanning(rest[1..]) else Judged(rest[0], fate, rest[1..]);
    assert Uninterrupted(t, Scanning(rest), now, staleAfter) == Uninterrupted(t, judged, now, staleAfter);
    if fate != Keep {
      JudgedTurn(t, rest[0], fate, rest[1..], now, staleAfter);
    }
  }

  lemma JudgedTurn(t: Store, entry: Job, fate: Fate, rest: seq<Job>, now: int, staleAfter: int)
    requires fate != Keep
    ensures var gone := t.(processing := LRem(t.processing, entry));
            Uninterrupted(t, Judged(entry, fate, rest), now, staleAfter)
            == Uninterrupted(if fate == Requeue then gone.(queue := [entry] + t.queue) else gone, Scanning(rest), now,
                             staleAfter)
  {
    var gone := t.(processing := LRem(t.processing, entry));
    if fate == Requeue {
      assert Uninterrupted(t, Judged(entry, fate, rest), now, staleAfter)
          == Uninterrupted(gone, Moving(entry, rest), now, staleAfter);
    }
  }
}
