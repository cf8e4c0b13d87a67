/**
 * The Redis-backed communication queue (src/lib/communicationQueue.ts).
 *
 * `Store` is the content of the Redis keys the queue uses, and every exported
 * queue function is one atomic step on it.  Redis lists are sequences whose
 * index 0 is the left end, so LPUSH prepends and BRPOPLPUSH takes the last
 * element.  A key with a time to live is alive strictly before its deadline.
 * The class at the end performs the same Redis calls one after the other and
 * is proved to compute exactly these functions.
 */
module CommunicationQueue {
  import opened Common

  datatype JobType = SendEmail | SendSms | SendAdminNotification | CommunicationRetry | ProviderHealthCheck

  const RECORD_TTL_MS := 86_400_000
  const DEFAULT_STALE_AFTER_MS := 300_000
  const PROMOTE_LIMIT := 50

  function DefaultMaxAttempts(t: JobType): nat {
    match t
    case SendEmail => 5
    case SendSms => 5
    case SendAdminNotification => 3
    case CommunicationRetry => 3
    case ProviderHealthCheck => 3
  }

  /** `digest` is the hash of the payload; the queue never looks inside either. */
  datatype DedupeKey = DedupeKey(jobType: JobType, digest: string)

  datatype Request = Request(jobType: JobType, payload: string, digest: string,
                             attempts: Option<nat>, maxAttempts: Option<nat>)

  /** One list entry.  LREM, ZADD and ZREM compare the whole entry. */
  datatype Job = Job(id: string, jobType: JobType, payload: string, dedupeKey: DedupeKey,
                     attempts: nat, maxAttempts: nat, createdAt: int,
                     scheduledFor: Option<int>, lastError: Option<string>)

  /** Two entries of one pushed job: a retry changes only attempts, schedule and error. */
  predicate SameWork(j: Job, k: Job) {
    && j.id == k.id && j.jobType == k.jobType && j.payload == k.payload
    && j.dedupeKey == k.dedupeKey && j.maxAttempts == k.maxAttempts && j.createdAt == k.createdAt
  }

  datatype DeadJob = DeadJob(job: Job, failedAt: int, error: string)

  datatype Phase = InProcess | Sent | Retrying | Dead

  datatype Record = Record(phase: Phase, updatedAt: int, attempts: nat, expiresAt: int)

  datatype Lock = Lock(id: string, expiresAt: int)

  datatype Store = Store(queue: seq<Job>, processing: seq<Job>, delayed: map<Job, int>, dlq: seq<DeadJob>,
                         dedupe: map<DedupeKey, Lock>, records: map<string, Record>)

  const EMPTY: Store := Store([], [], map[], [], map[], map[])

  // --- Redis list commands ---------------------------------------------------

  /** LREM list 1 x: the leftmost occurrence goes, if there is one. */
  function LRem(list: seq<Job>, x: Job): seq<Job> {
    if list == [] then []
    else if list[0] == x then list[1..]
    else [list[0]] + LRem(list[1..], x)
  }

  function Reverse(list: seq<Job>): seq<Job> {
    if list == [] then [] else [list[|list| - 1]] + Reverse(list[..|list| - 1])
  }

  function DeadJobs(dlq: seq<DeadJob>): seq<Job> {
    seq(|dlq|, i requires 0 <= i < |dlq| => dlq[i].job)
  }

  // --- The queue functions ---------------------------------------------------

  function NewJob(req: Request, id: string, now: int): Job {
    Job(id, req.jobType, req.payload, DedupeKey(req.jobType, req.digest),
        OrElse(req.attempts, 0), OrElse(req.maxAttempts, DefaultMaxAttempts(req.jobType)), now, None, None)
  }

  predicate Locked(s: Store, key: DedupeKey, now: int) {
    key in s.dedupe && now < s.dedupe[key].expiresAt
  }

  function Enqueue(s: Store, req: Request, id: string, now: int, ttl: int): Store {
    var job := NewJob(req, id, now);
    if Locked(s, job.dedupeKey, now) then s
    else s.(dedupe := s.dedupe[job.dedupeKey := Lock(id, now + ttl)], queue := [job] + s.queue)
  }

  function SetRecord(s: Store, id: string, phase: Phase, attempts: nat, now: int): Store {
    s.(records := s.records[id := Record(phase, now, attempts, now + RECORD_TTL_MS)])
  }

  function Reserve(s: Store, now: int): Store {
    if s.queue == [] then s
    else
      var job := s.queue[|s.queue| - 1];
      SetRecord(s.(queue := s.queue[..|s.queue| - 1], processing := [job] + s.processing),
                job.id, InProcess, job.attempts, now)
  }

  function Acknowledge(s: Store, job: Job, now: int): Store {
    SetRecord(s.(processing := LRem(s.processing, job), dedupe := s.dedupe - {job.dedupeKey}),
              job.id, Sent, job.attempts, now)
  }

  function MoveToDlq(s: Store, job: Job, error: string, now: int): Store {
    SetRecord(s.(processing := LRem(s.processing, job), dlq := [DeadJob(job, now, error)] + s.dlq),
              job.id, Dead, job.attempts, now)
  }

  function Delayed(job: Job, delay: int, error: Option<string>, now: int): Job {
    job.(attempts := job.attempts + 1, scheduledFor := Some(now + delay), lastError := error)
  }

  function ScheduleRetry(s: Store, job: Job, delay: int, error: Option<string>, now: int): Store {
    SetRecord(s.(processing := LRem(s.processing, job),
                 delayed := s.delayed[Delayed(job, delay, error, now) := now + delay]),
              job.id, Retrying, job.attempts + 1, now)
  }

  predicate Due(delayed: map<Job, int>, job: Job, now: int) {
    job in delayed && 0 <= delayed[job] <= now
  }

  function Members(batch: seq<Job>): set<Job> { set j | j in batch }

  ghost predicate Distinct(batch: seq<Job>) {
    forall i, k :: 0 <= i < k < |batch| ==> batch[i] != batch[k]
  }

  /**
   * A possible answer of ZRANGEBYSCORE delayed 0 now LIMIT 0 50: due members in
   * ascending score order, at most 50, and none left out while there was room or
   * in favour of a later one.  Ties may come in any order.
   */
  ghost predicate IsDueBatch(delayed: map<Job, int>, now: int, batch: seq<Job>) {
    && |batch| <= PROMOTE_LIMIT
    && Distinct(batch)
    && (forall i :: 0 <= i < |batch| ==> Due(delayed, batch[i], now))
    && (forall i, k :: 0 <= i < k < |batch| ==> delayed[batch[i]] <= delayed[batch[k]])
    && (forall j :: Due(delayed, j, now) && j !in batch ==>
                    |batch| == PROMOTE_LIMIT && forall i :: 0 <= i < |batch| ==> delayed[batch[i]] <= delayed[j])
  }

  function Promote(s: Store, batch: seq<Job>): Store {
    s.(delayed := s.delayed - Members(batch), queue := Reverse(batch) + s.queue)
  }

  /** What recovery does with one processing entry. */
  datatype Fate = Keep | Requeue | Discard

  function FateOf(records: map<string, Record>, job: Job, now: int, staleAfter: int): Fate {
    if job.id !in records || now >= records[job.id].expiresAt then Keep
    else if records[job.id].phase in {Sent, Dead} then Discard
    else if now - records[job.id].updatedAt >= staleAfter then Requeue
    else Keep
  }

  function Select(jobs: seq<Job>, records: map<string, Record>, now: int, staleAfter: int, fate: Fate): seq<Job> {
    if jobs == [] then []
    else
      var last := jobs[|jobs| - 1];
      Select(jobs[..|jobs| - 1], records, now, staleAfter, fate)
      + if FateOf(records, last, now, staleAfter) == fate then [last] else []
  }

  /** Recovery at once: every processing entry meets its fate, the requeued ones in list order. */
  function Recover(s: Store, now: int, staleAfter: int): Store {
    s.(processing := Select(s.processing, s.records, now, staleAfter, Keep),
       queue := Reverse(Select(s.processing, s.records, now, staleAfter, Requeue)) + s.queue)
  }

  // --- The worker's decision (src/workers/communication.worker.ts) -----------

  datatype Outcome = Delivered | Failed(message: string)

  function Pow2(n: nat): (p: nat)
    ensures p >= 1
  {
    if n == 0 then 1 else 2 * Pow2(n - 1)
  }

  function Backoff(attempts: nat): int { Min(60_000 * Pow2(attempts), 86_400_000) }

  function Handle(s: Store, job: Job, outcome: Outcome, now: int): Store {
    match outcome
    case Delivered => Acknowledge(s, job, now)
    case Failed(message) =>
      if job.attempts + 1 < job.maxAttempts
      then ScheduleRetry(s, job, Backoff(job.attempts), Some(message), now)
      else MoveToDlq(s, job, message, now)
  }

  // --- Lemmas the recovery and promotion loops need --------------------------

  lemma {:induction false} SelectFate(jobs: seq<Job>, records: map<string, Record>, now: int, staleAfter: int,
                                      fate: Fate)
    ensures forall j :: j in Select(jobs, records, now, staleAfter, fate)
                        <==> j in jobs && FateOf(records, j, now, staleAfter) == fate
  {
    if jobs == [] {
    } else {
      SelectFate(jobs[..|jobs| - 1], records, now, staleAfter, fate);
      assert jobs == jobs[..|jobs| - 1] + [jobs[|jobs| - 1]];
    }
  }

  /** LREM skips a prefix that does not contain the entry. */
  lemma {:induction false} LRemPast(prefix: seq<Job>, x: Job, rest: seq<Job>)
    requires x !in prefix
    ensures LRem(prefix + [x] + rest, x) == prefix + rest
  {
    var list := prefix + [x] + rest;
    if prefix == [] {
      assert list[1..] == rest == prefix + rest;
    } else {
      assert list[1..] == prefix[1..] + [x] + rest;
      LRemPast(prefix[1..], x, rest);
      assert [prefix[0]] + (prefix[1..] + rest) == prefix + rest;
    }
  }

  /** A non-empty set of delayed members has one with the lowest score. */
  lemma {:induction false} Earliest(delayed: map<Job, int>, due: set<Job>) returns (first: Job)
    requires due != {} && due <= delayed.Keys
    ensures first in due && forall k :: k in due ==> delayed[first] <= delayed[k]
    decreases |due|
  {
    first :| first in due;
    var rest := due - {first};
    if rest != {} {
      var y := Earliest(delayed, rest);
      if delayed[y] < delayed[first] {
        first := y;
      }
    }
  }

  lemma {:induction false} ReverseSnoc(list: seq<Job>, x: Job)
    ensures Reverse(list + [x]) == [x] + Reverse(list)
  {
    assert (list + [x])[..|list|] == list;
  }

  /** One turn of the promotion loop. */
  lemma PromoteTurn(s: Store, batch: seq<Job>, i: nat)
    requires i < |batch|
    ensures var t := Promote(s, batch[..i]);
            Promote(s, batch[..i + 1]) == t.(delayed := t.delayed - {batch[i]}, queue := [batch[i]] + t.queue)
  {
    assert batch[..i + 1] == batch[..i] + [batch[i]];
    ReverseSnoc(batch[..i], batch[i]);
    assert Members(batch[..i + 1]) == Members(batch[..i]) + {batch[i]};
    assert s.delayed - Members(batch[..i + 1]) == s.delayed - Members(batch[..i]) - {batch[i]};
    assert [batch[i]] + (Reverse(batch[..i]) + s.queue) == ([batch[i]] + Reverse(batch[..i])) + s.queue;
  }

  /** The store after the recovery loop has looked at the first `n` processing entries. */
  function RecoverUpTo(s: Store, n: nat, now: int, staleAfter: int): Store
    requires n <= |s.processing|
  {
    var seen := s.processing[..n];
    s.(processing := Select(seen, s.records, now, staleAfter, Keep) + s.processing[n..],
       queue := Reverse(Select(seen, s.records, now, staleAfter, Requeue)) + s.queue)
  }

  /** One turn of the recovery loop: LREM finds the entry in its own place, as the kept ones before it differ. */
  lemma RecoverTurn(s: Store, i: nat, now: int, staleAfter: int)
    requires i < |s.processing|
    ensures var job, t := s.processing[i], RecoverUpTo(s, i, now, staleAfter);
            RecoverUpTo(s, i + 1, now, staleAfter) ==
            match FateOf(s.records, job, now, staleAfter)
            case Keep => t
            case Discard => t.(processing := LRem(t.processing, job))
            case Requeue => t.(processing := LRem(t.processing, job), queue := [job] + t.queue)
  {
    var jobs, job := s.processing, s.processing[i];
    assert jobs[..i + 1][..i] == jobs[..i];
    var kept := Select(jobs[..i], s.records, now, staleAfter, Keep);
    var moved := Select(jobs[..i], s.records, now, staleAfter, Requeue);
    assert kept + jobs[i..] == kept + [job] + jobs[i + 1..];
    assert kept + [] == kept && moved + [] == moved;
    if FateOf(s.records, job, now, staleAfter) != Keep {
      SelectFate(jobs[..i], s.records, now, staleAfter, Keep);
      LRemPast(kept, job, jobs[i + 1..]);
    }
    ReverseSnoc(moved, job);
    assert [job] + (Reverse(moved) + s.queue) == ([job] + Reverse(moved)) + s.queue;
  }

  // --- The Redis client side -------------------------------------------------

  class RedisQueue {
    var queue: seq<Job>
    var processing: seq<Job>
    var delayed: map<Job, int>
    var dlq: seq<DeadJob>
    var dedupe: map<DedupeKey, Lock>
    var records: map<string, Record>

    function View(): Store
      reads this
    {
      Store(queue, processing, delayed, dlq, dedupe, records)
    }

    constructor ()
      ensures View() == EMPTY
    {
      queue, processing, delayed, dlq, dedupe, records := [], [], map[], [], map[], map[];
    }

    /** The reply names the new id even when the job was dropped as a duplicate. */
    method EnqueueCommunicationJob(req: Request, id: string, now: int, ttl: int) returns (deduped: bool, jobId: string)
      modifies this
      ensures View() == Enqueue(old(View()), req, id, now, ttl)
      ensures deduped == Locked(old(View()), DedupeKey(req.jobType, req.digest), now) && jobId == id
    {
      var job := NewJob(req, id, now);
      if job.dedupeKey in dedupe && now < dedupe[job.dedupeKey].expiresAt {
        return true, job.id;
      }
      dedupe := dedupe[job.dedupeKey := Lock(job.id, now + ttl)];
      queue := [job] + queue;
      return false, job.id;
    }

    method SetState(id: string, phase: Phase, attempts: nat, now: int)
      modifies this`records
      ensures View() == SetRecord(old(View()), id, phase, attempts, now)
    {
      records := records[id := Record(phase, now, attempts, now + RECORD_TTL_MS)];
    }

    method ReserveNextCommunicationJob(now: int) returns (job: Option<Job>)
      modifies this
      ensures View() == Reserve(old(View()), now)
      ensures job == if old(queue) == [] then None else Some(old(queue)[|old(queue)| - 1])
    {
      if queue == [] {
        return None;
      }
      var raw := queue[|queue| - 1];
      queue := queue[..|queue| - 1];
      processing := [raw] + processing;
      SetState(raw.id, InProcess, raw.attempts, now);
      return Some(raw);
    }

    method AcknowledgeCommunicationJob(job: Job, now: int)
      modifies this
      ensures View() == Acknowledge(old(View()), job, now)
    {
      processing := LRem(processing, job);
      dedupe := dedupe - {job.dedupeKey};
      SetState(job.id, Sent, job.attempts, now);
    }

    method MoveCommunicationJobToDlq(job: Job, error: string, now: int)
      modifies this
      ensures View() == MoveToDlq(old(View()), job, error, now)
    {
      processing := LRem(processing, job);
      dlq := [DeadJob(job, now, error)] + dlq;
      SetState(job.id, Dead, job.attempts, now);
    }

    method ScheduleCommunicationRetry(job: Job, delay: int, error: Option<string>, now: int)
      modifies this
      ensures View() == ScheduleRetry(old(View()), job, delay, error, now)
    {
      var delayedJob := Delayed(job, delay, error, now);
      processing := LRem(processing, job);
      delayed := delayed[delayedJob := now + delay];
      SetState(job.id, Retrying, delayedJob.attempts, now);
    }

    /** ZRANGEBYSCORE; the order among equal scores is left open. */
    method ZRangeByScore(now: int) returns (batch: seq<Job>)
      ensures IsDueBatch(delayed, now, batch)
    {
      batch := [];
      var due := set j | j in delayed && 0 <= delayed[j] <= now;
      while |batch| < PROMOTE_LIMIT && due != {}
        invariant |batch| <= PROMOTE_LIMIT && Distinct(batch)
        invariant forall j :: j in due <==> Due(delayed, j, now) && j !in batch
        invariant forall i :: 0 <= i < |batch| ==> Due(delayed, batch[i], now)
        invariant forall i, k :: 0 <= i < k < |batch| ==> delayed[batch[i]] <= delayed[batch[k]]
        invariant forall i, j :: 0 <= i < |batch| && j in due ==> delayed[batch[i]] <= delayed[j]
        decreases due
      {
        ghost var lowest := Earliest(delayed, due);
        var first :| first in due && forall k :: k in due ==> delayed[first] <= delayed[k];
        batch := batch + [first];
        due := due - {first};
      }
    }

    method PromoteDueCommunicationJobs(now: int) returns (promoted: nat, ghost batch: seq<Job>)
      modifies this
      ensures IsDueBatch(old(delayed), now, batch) && promoted == |batch|
      ensures View() == Promote(old(View()), batch)
    {
      ghost var before := View();
      var due := ZRangeByScore(now);
      batch := due;
      var i := 0;
      assert before.delayed - Members([]) == before.delayed;
      while i < |due|
        invariant 0 <= i <= |due|
        invariant View() == Promote(before, due[..i])
      {
        PromoteTurn(before, due, i);
        delayed := delayed - {due[i]};
        queue := [due[i]] + queue;
        i := i + 1;
      }
      assert due[..i] == due;
      promoted := |due|;
    }

    method RecoverStalledCommunicationJobs(now: int, staleAfter: int) returns (recovered: nat)
      modifies this
      ensures View() == Recover(old(View()), now, staleAfter)
      ensures recovered == |queue| - |old(queue)|
    {
      ghost var before := View();
      var rawJobs := processing;
      recovered := 0;
      var i := 0;
      while i < |rawJobs|
        invariant 0 <= i <= |rawJobs|
        invariant View() == RecoverUpTo(before, i, now, staleAfter)
        invariant |queue| == |before.queue| + recovered
      {
        RecoverTurn(before, i, now, staleAfter);
        var raw := rawJobs[i];
        i := i + 1;
        if raw.id !in records || now >= records[raw.id].expiresAt {
          continue;
        }
        var state := records[raw.id];
        if state.phase == Sent || state.phase == Dead {
          processing := LRem(processing, raw);
          continue;
        }
        if now - state.updatedAt >= staleAfter {
          processing := LRem(processing, raw);
          queue := [raw] + queue;
          recovered := recovered + 1;
        }
      }
      assert rawJobs[..i] == rawJobs;
    }
  }
}
