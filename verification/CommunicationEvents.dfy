/**
 * External communication events (src/modules/communication/events.service.ts): a submission
 * looks for its idempotency key, creates the record, sends on the approved channels and
 * stores the result.  Submissions interleave between these steps, and may stop at any of them.
 */
module CommunicationEvents {
  import opened Common

  datatype Key = Key(clientId: string, event: string, idempotencyKey: string)

  datatype Channel = Sms | Email

  /** `None` stands for a missing or empty recipient field. */
  datatype Payload = Payload(channels: seq<Channel>, phone: Option<string>, email: Option<string>)

  datatype Outcome = Accepted | Rejected(blocked: bool)

  datatype Results = Results(sms: Option<Outcome>, email: Option<Outcome>)

  const NOTHING := Results(None, None)

  datatype Status = Processing | QueuedOrSent | Blocked | Failed

  datatype Record = Record(id: nat, channels: seq<Channel>, status: Status, results: Results)

  datatype Send = Send(key: Key, channel: Channel)

  /** `sent` collects every call of `dispatchSms` and `dispatchEmail`; ids are generated in order. */
  datatype Db = Db(records: map<Key, Record>, nextId: nat, sent: multiset<Send>)

  datatype Error = InvalidPayload | RateLimited | Unavailable

  /** How far one submission got. */
  datatype Request =
    | Missed(key: Key, payload: Payload)
    | Collided(key: Key)
    | Owner(key: Key, payload: Payload, id: nat, got: Results)
    | Finished(key: Key, payload: Payload, id: nat, got: Results)
    | Duplicate(key: Key, id: nat, channels: seq<Channel>)
    | Refused(key: Key)
    | Rethrown(key: Key)

  predicate Wants(p: Payload, c: Channel) {
    c in p.channels && if c == Sms then p.phone.Some? else p.email.Some?
  }

  function ResultOn(got: Results, c: Channel): Option<Outcome> { if c == Sms then got.sms else got.email }

  function With(got: Results, c: Channel, o: Outcome): Results {
    if c == Sms then got.(sms := Some(o)) else got.(email := Some(o))
  }

  /** Every approved channel has answered. */
  predicate Settled(p: Payload, got: Results) {
    (Wants(p, Sms) ==> got.sms.Some?) && (Wants(p, Email) ==> got.email.Some?)
  }

  predicate AnyAccepted(got: Results) { got.sms == Some(Accepted) || got.email == Some(Accepted) }

  predicate AnyBlocked(got: Results) { got.sms == Some(Rejected(true)) || got.email == Some(Rejected(true)) }

  function StatusOf(got: Results): Status {
    if AnyAccepted(got) then QueuedOrSent else if AnyBlocked(got) then Blocked else Failed
  }

  /** The error the submitter sees; a payload without an approved channel fails silently. */
  function ErrorOf(got: Results): Option<Error> {
    if AnyAccepted(got) || got == NOTHING then None else Some(if AnyBlocked(got) then RateLimited else Unavailable)
  }

  // --- The steps of a submission ----------------------------------------------------------

  function Found(d: Db, key: Key): Request
    requires key in d.records
  {
    Duplicate(key, d.records[key].id, d.records[key].channels)
  }

  function Look(d: Db, key: Key, payload: Payload): Request {
    if key in d.records then Found(d, key) else Missed(key, payload)
  }

  /** `normalize` is None where `normalizePhoneForEvent` throws. */
  function Create(normalize: string -> Option<string>, d: Db, r: Request): (Db, Request) {
    if !r.Missed? then (d, r)
    else if r.payload.phone.Some? && normalize(r.payload.phone.value).None? then (d, Refused(r.key))
    else if r.key in d.records then (d, Collided(r.key))
    else (Db(d.records[r.key := Record(d.nextId, r.payload.channels, Processing, NOTHING)], d.nextId + 1, d.sent),
          Owner(r.key, r.payload, d.nextId, NOTHING))
  }

  /** After the unique index rejected the row. */
  function Relook(d: Db, r: Request): Request {
    if !r.Collided? then r else if r.key in d.records then Found(d, r.key) else Rethrown(r.key)
  }

  function Dispatch(d: Db, r: Request, c: Channel, o: Outcome): (Db, Request) {
    if !r.Owner? || !Wants(r.payload, c) || ResultOn(r.got, c).Some? then (d, r)
    else (d.(sent := d.sent + multiset{Send(r.key, c)}),
          Owner(r.key, r.payload, r.id, With(r.got, c, o)))
  }

  function UpdateById(records: map<Key, Record>, id: nat, got: Results): map<Key, Record> {
    map k | k in records ::
      if records[k].id == id then records[k].(status := StatusOf(got), results := got) else records[k]
  }

  function Save(d: Db, r: Request): (Db, Request) {
    if !r.Owner? || !Settled(r.payload, r.got) then (d, r)
    else (d.(records := UpdateById(d.records, r.id, r.got)), Finished(r.key, r.payload, r.id, r.got))
  }

  // --- Runs -----------------------------------------------------------------------------------

  datatype State = State(d: Db, requests: map<nat, Request>)

  datatype Step =
    | Looks(q: nat, key: Key, payload: Payload)
    | Creates(q: nat)
    | Relooks(q: nat)
    | Dispatches(q: nat, channel: Channel, outcome: Outcome)
    | Saves(q: nat)

  const EMPTY := State(Db(map[], 0, multiset{}), map[])

  function Act(normalize: string -> Option<string>, d: Db, r: Request, step: Step): (Db, Request) {
    match step
    case Looks(_, _, _) => (d, r)
    case Creates(_) => Create(normalize, d, r)
    case Relooks(_) => (d, Relook(d, r))
    case Dispatches(_, c, o) => Dispatch(d, r, c, o)
    case Saves(_) => Save(d, r)
  }

  function Next(normalize: string -> Option<string>, s: State, step: Step): State {
    if step.Looks? then
      if step.q in s.requests then s else s.(requests := s.requests[step.q := Look(s.d, step.key, step.payload)])
    else if step.q !in s.requests then s
    else var (d, r) := Act(normalize, s.d, s.requests[step.q], step); State(d, s.requests[step.q := r])
  }

  function Run(normalize: string -> Option<string>, s: State, steps: seq<Step>): State
    decreases |steps|
  {
    if steps == [] then s else Run(normalize, Next(normalize, s, steps[0]), steps[1..])
  }

  // --- The invariant ------------------------------------------------------------------------------

  predicate Owns(r: Request, key: Key) { (r.Owner? || r.Finished?) && r.key == key }

  ghost predicate IdsUnique(d: Db) {
    && (forall k :: k in d.records ==> d.records[k].id < d.nextId)
    && (forall j, k :: j in d.records && k in d.records && d.records[j].id == d.records[k].id ==> j == k)
  }

  /** What a submission knows is what the table says. */
  ghost predicate Informed(d: Db, r: Request) {
    && !r.Rethrown?
    && (r.Collided? || r.Duplicate? || r.Owner? || r.Finished? ==> r.key in d.records)
    && (r.Duplicate? ==> d.records[r.key].id == r.id && d.records[r.key].channels == r.channels)
    && (r.Owner? ==> d.records[r.key] == Record(r.id, r.payload.channels, Processing, NOTHING))
    && (r.Finished? ==> d.records[r.key] == Record(r.id, r.payload.channels, StatusOf(r.got), r.got)
                        && Settled(r.payload, r.got))
  }

  /** Each dispatch made for the key is one that its owner has an answer for. */
  ghost predicate SentFor(d: Db, r: Request) {
    r.Owner? || r.Finished? ==>
      forall c :: d.sent[Send(r.key, c)] == (if ResultOn(r.got, c).Some? then 1 else 0)
                  && (ResultOn(r.got, c).Some? ==> Wants(r.payload, c))
  }

  ghost predicate AllInformed(s: State) {
    forall q :: q in s.requests ==> Informed(s.d, s.requests[q]) && SentFor(s.d, s.requests[q])
  }

  ghost predicate OwnersUnique(requests: map<nat, Request>) {
    forall p, q, k :: p in requests && q in requests && Owns(requests[p], k) && Owns(requests[q], k) ==> p == q
  }

  ghost predicate HasOwner(requests: map<nat, Request>, k: Key) {
    exists q :: q in requests && Owns(requests[q], k)
  }

  /** A key has a record exactly when it has an owner, and without one nothing was sent. */
  ghost predicate RecordsOwned(s: State) {
    && (forall k :: k in s.d.records ==> HasOwner(s.requests, k))
    && (forall k, c :: k !in s.d.records ==> s.d.sent[Send(k, c)] == 0)
  }

  ghost predicate Inv(s: State) {
    IdsUnique(s.d) && AllInformed(s) && OwnersUnique(s.requests) && RecordsOwned(s)
  }

  /** How a step of the submission `was` may change the tables: only at its own key. */
  ghost predicate Elsewhere(d: Db, key: Key, e: Db) {
    && (forall k :: k != key ==> (k in e.records <==> k in d.records))
    && (forall k :: k in d.records && k != key ==> e.records[k] == d.records[k])
    && (forall k, c :: k != key ==> e.sent[Send(k, c)] == d.sent[Send(k, c)])
  }

  ghost predicate Effect(d: Db, was: Request, e: Db, r: Request) {
    && r.key == was.key && IdsUnique(e) && Elsewhere(d, was.key, e)
    && (was.key in d.records ==> was.key in e.records && e.records[was.key].id == d.records[was.key].id
                                 && e.records[was.key].channels == d.records[was.key].channels)
    && Informed(e, r) && SentFor(e, r)
    && (Owns(was, was.key) ==> Owns(r, was.key))
    && (!Owns(was, was.key) ==>
          && e.sent == d.sent
          && (Owns(r, was.key) <==> was.key !in d.records && was.key in e.records)
          && (was.key in d.records ==> e.records[was.key] == d.records[was.key]))
  }

  ghost predicate Sound(d: Db, was: Request) {
    && IdsUnique(d) && Informed(d, was) && SentFor(d, was)
    && (was.key !in d.records ==> forall c :: d.sent[Send(was.key, c)] == 0)
  }

  lemma CreatedIds(d: Db, key: Key, channels: seq<Channel>)
    requires IdsUnique(d) && key !in d.records
    ensures var e := Db(d.records[key := Record(d.nextId, channels, Processing, NOTHING)], d.nextId + 1, d.sent);
            IdsUnique(e) && Elsewhere(d, key, e)
  {}

  lemma CreateEffect(normalize: string -> Option<string>, d: Db, was: Request)
    requires Sound(d, was)
    ensures var (e, r) := Create(normalize, d, was); Effect(d, was, e, r)
  {
    var (e, r) := Create(normalize, d, was);
    if was.Missed? && r.Owner? {
      CreatedIds(d, was.key, was.payload.channels);
      assert SentFor(e, r);
    } else {
      assert e == d;
    }
  }

  lemma DispatchEffect(d: Db, was: Request, c: Channel, o: Outcome)
    requires Sound(d, was)
    ensures var (e, r) := Dispatch(d, was, c, o); Effect(d, was, e, r)
  {
    var (e, r) := Dispatch(d, was, c, o);
    if r != was {
      assert e.records == d.records;
      forall x ensures e.sent[Send(was.key, x)] == (if ResultOn(r.got, x).Some? then 1 else 0) {
        assert ResultOn(r.got, x) == if x == c then Some(o) else ResultOn(was.got, x);
      }
      assert SentFor(e, r);
    }
  }

  lemma UpdateByIdIsLocal(d: Db, key: Key, got: Results)
    requires IdsUnique(d) && key in d.records
    ensures UpdateById(d.records, d.records[key].id, got)
         == d.records[key := d.records[key].(status := StatusOf(got), results := got)]
  {}

  lemma SaveEffect(d: Db, was: Request)
    requires Sound(d, was)
    ensures var (e, r) := Save(d, was); Effect(d, was, e, r)
  {
    if was.Owner? && Settled(was.payload, was.got) {
      UpdateByIdIsLocal(d, was.key, was.got);
    }
  }

  lemma ActHasEffect(normalize: string -> Option<string>, d: Db, was: Request, step: Step)
    requires Sound(d, was)
    ensures var (e, r) := Act(normalize, d, was, step); Effect(d, was, e, r)
  {
    match step
    case Creates(_) => CreateEffect(normalize, d, was);
    case Dispatches(_, c, o) => DispatchEffect(d, was, c, o);
    case Saves(_) => SaveEffect(d, was);
    case _ =>
  }

  lemma OthersKeep(d: Db, was: Request, e: Db, r: Request, other: Request)
    requires Effect(d, was, e, r) && Informed(d, other) && SentFor(d, other)
    requires Owns(was, was.key) ==> !Owns(other, was.key)
    ensures Informed(e, other) && SentFor(e, other)
  {}

  lemma InvNext(normalize: string -> Option<string>, s: State, step: Step)
    requires Inv(s)
    ensures Inv(Next(normalize, s, step))
  {
    if !step.Looks? && step.q in s.requests {
      var was := s.requests[step.q];
      ActHasEffect(normalize, s.d, was, step);
      var (e, r) := Act(normalize, s.d, was, step);
      InvAfter(s, step.q, e, r);
    } else if step.Looks? && step.q !in s.requests {
      InvArrival(s, step.q, Look(s.d, step.key, step.payload));
    }
  }

  lemma InvArrival(s: State, q: nat, r: Request)
    requires Inv(s) && q !in s.requests && (r.Missed? || r.Duplicate?) && Informed(s.d, r)
    ensures Inv(State(s.d, s.requests[q := r]))
  {
    OwnersStay(s.requests, q, r);
  }

  lemma OwnersStay(requests: map<nat, Request>, q: nat, r: Request)
    requires q in requests ==> forall k :: Owns(requests[q], k) ==> Owns(r, k)
    ensures forall k :: HasOwner(requests, k) ==> HasOwner(requests[q := r], k)
  {
    var after := requests[q := r];
    forall k | HasOwner(requests, k) ensures HasOwner(after, k) {
      var p :| p in requests && Owns(requests[p], k);
      assert p in after && Owns(after[p], k);
    }
  }

  lemma InvAfter(s: State, q: nat, e: Db, r: Request)
    requires Inv(s) && q in s.requests && Effect(s.d, s.requests[q], e, r)
    ensures Inv(State(e, s.requests[q := r]))
  {
    InformedAfter(s, q, e, r);
    OwnersAfter(s, q, e, r);
    OwnersStay(s.requests, q, r);
    RecordsAfter(s, q, e, r);
  }

  lemma InformedAfter(s: State, q: nat, e: Db, r: Request)
    requires AllInformed(s) && OwnersUnique(s.requests) && q in s.requests && Effect(s.d, s.requests[q], e, r)
    ensures AllInformed(State(e, s.requests[q := r]))
  {
    forall p | p in s.requests && p != q ensures Informed(e, s.requests[p]) && SentFor(e, s.requests[p]) {
      OthersKeep(s.d, s.requests[q], e, r, s.requests[p]);
    }
  }

  lemma OwnersAfter(s: State, q: nat, e: Db, r: Request)
    requires AllInformed(s) && OwnersUnique(s.requests) && q in s.requests && Effect(s.d, s.requests[q], e, r)
    ensures OwnersUnique(s.requests[q := r])
  {
    forall p | p in s.requests && p != q && Owns(s.requests[p], r.key) ensures !Owns(r, r.key) {
      assert Informed(s.d, s.requests[p]);
    }
  }

  lemma RecordsAfter(s: State, q: nat, e: Db, r: Request)
    requires RecordsOwned(s) && q in s.requests && Effect(s.d, s.requests[q], e, r)
    requires Informed(s.d, s.requests[q])
    requires forall k :: HasOwner(s.requests, k) ==> HasOwner(s.requests[q := r], k)
    ensures RecordsOwned(State(e, s.requests[q := r]))
  {
    var after := s.requests[q := r];
    forall k | k in e.records ensures HasOwner(after, k) {
      if k !in s.d.records {
        assert Owns(after[q], k);
      }
    }
  }

  lemma {:induction false} InvRun(normalize: string -> Option<string>, s: State, steps: seq<Step>)
    requires Inv(s)
    ensures Inv(Run(normalize, s, steps))
    decreases |steps|
  {
    if steps == [] {
    } else {
      InvNext(normalize, s, steps[0]);
      InvRun(normalize, Next(normalize, s, steps[0]), steps[1..]);
    }
  }

  /** The states of all runs. */
  ghost predicate Reachable(normalize: string -> Option<string>, s: State) {
    exists steps :: Run(normalize, EMPTY, steps) == s
  }

  lemma ReachableInv(normalize: string -> Option<string>, s: State)
    requires Reachable(normalize, s)
    ensures Inv(s)
  {
    var steps :| Run(normalize, EMPTY, steps) == s;
    InvRun(normalize, EMPTY, steps);
  }

  // --- Once only ---------------------------------------------------------------------------------

  /** No channel is dispatched twice for one key, whatever interleaves. */
  lemma DispatchedAtMostOnce(normalize: string -> Option<string>, steps: seq<Step>, key: Key, c: Channel)
    ensures Run(normalize, EMPTY, steps).d.sent[Send(key, c)] <= 1
  {
    InvRun(normalize, EMPTY, steps);
    var s := Run(normalize, EMPTY, steps);
    if key in s.d.records {
      assert HasOwner(s.requests, key);
      var q :| q in s.requests && Owns(s.requests[q], key);
      assert SentFor(s.d, s.requests[q]);
    }
  }

  /**
   * A duplicate reply names the record of the one submission that owns the key, and a losing create always finds
   * it.
   */
  lemma LosersGetTheWinner(normalize: string -> Option<string>, steps: seq<Step>, q: nat)
    requires q in Run(normalize, EMPTY, steps).requests
    ensures var s := Run(normalize, EMPTY, steps);
            var r := s.requests[q];
            && !r.Rethrown?
            && (r.Collided? ==> Relook(s.d, r).Duplicate?)
            && (r.Duplicate? ==> exists p :: p in s.requests && Owns(s.requests[p], r.key) && s.requests[p].id == r.id
                                             && s.requests[p].payload.channels == r.channels)
  {
    InvRun(normalize, EMPTY, steps);
    var s := Run(normalize, EMPTY, steps);
    var r := s.requests[q];
    assert Informed(s.d, r);
    if r.Duplicate? {
      assert HasOwner(s.requests, r.key);
      var p :| p in s.requests && Owns(s.requests[p], r.key);
      assert Informed(s.d, s.requests[p]);
    }
  }

  lemma OneOwner(normalize: string -> Option<string>, steps: seq<Step>, p: nat, q: nat, key: Key)
    requires var s := Run(normalize, EMPTY, steps);
             p in s.requests && q in s.requests && Owns(s.requests[p], key) && Owns(s.requests[q], key)
    ensures p == q
  {
    InvRun(normalize, EMPTY, steps);
  }

  /** The recipient can be reached on the channel: by phone for text messages, by e-mail for mails. */
  predicate HasAddress(p: Payload, c: Channel) {
    match c
    case Sms => p.phone != None
    case Email => p.email != None
  }

  /** Nothing is ever sent on a channel that was not approved for the event when its key was first seen. */
  lemma OnlyApproved(normalize: string -> Option<string>, steps: seq<Step>, key: Key, c: Channel)
    requires Run(normalize, EMPTY, steps).d.sent[Send(key, c)] > 0
    ensures var d := Run(normalize, EMPTY, steps).d; key in d.records && c in d.records[key].channels
  {
    InvRun(normalize, EMPTY, steps);
    var s := Run(normalize, EMPTY, steps);
    assert key in s.d.records;
    assert HasOwner(s.requests, key);
    var q :| q in s.requests && Owns(s.requests[q], key);
    assert Informed(s.d, s.requests[q]) && SentFor(s.d, s.requests[q]);
  }

  /** What a submission has an answer for, and which. */
  function AnswerOn(requests: map<nat, Request>, q: nat, c: Channel): Option<Outcome> {
    if q in requests && (requests[q].Owner? || requests[q].Finished?) then ResultOn(requests[q].got, c) else None
  }

  /** An answer on record is the one an adapter gave when this submission dispatched on that channel. */
  lemma {:induction false} AnswersAreGiven(normalize: string -> Option<string>, s: State, steps: seq<Step>, q: nat,
                                           c: Channel, o: Outcome)
    requires AnswerOn(Run(normalize, s, steps).requests, q, c) == Some(o)
    ensures AnswerOn(s.requests, q, c) == Some(o) || exists i :: 0 <= i < |steps| && steps[i] == Dispatches(q, c, o)
    decreases |steps|
  {
    if steps == [] {
    } else {
      var z := Next(normalize, s, steps[0]);
      AnswersAreGiven(normalize, z, steps[1..], q, c, o);
      if i :| 0 <= i < |steps[1..]| && steps[1..][i] == Dispatches(q, c, o) {
        assert steps[i + 1] == Dispatches(q, c, o);
      } else {
        AnswerStep(normalize, s, steps[0], q, c, o);
      }
    }
  }

  lemma AnswerStep(normalize: string -> Option<string>, s: State, step: Step, q: nat, c: Channel, o: Outcome)
    requires AnswerOn(Next(normalize, s, step).requests, q, c) == Some(o)
    ensures AnswerOn(s.requests, q, c) == Some(o) || step == Dispatches(q, c, o)
  {}

  /** The stored status, the channels used and the answers agree once the owner is done. */
  lemma FinishedRecord(normalize: string -> Option<string>, steps: seq<Step>, q: nat)
    requires q in Run(normalize, EMPTY, steps).requests && Run(normalize, EMPTY, steps).requests[q].Finished?
    ensures var s := Run(normalize, EMPTY, steps);
            var r := s.requests[q];
            && r.key in s.d.records && s.d.records[r.key].results == r.got
            && (forall c :: s.d.sent[Send(r.key, c)] == 1 <==> c in r.payload.channels && HasAddress(r.payload, c))
            && (forall c :: ResultOn(r.got, c).Some? <==> c in r.payload.channels && HasAddress(r.payload, c))
            && (s.d.records[r.key].status == QueuedOrSent <==> exists c :: ResultOn(r.got, c) == Some(Accepted))
            && (s.d.records[r.key].status == Blocked <==>
                  && (forall c :: ResultOn(r.got, c) != Some(Accepted))
                  && (exists c :: ResultOn(r.got, c) == Some(Rejected(true))))
            && (ErrorOf(r.got).Some? <==> s.d.records[r.key].status != QueuedOrSent && r.got != NOTHING)
            && (ErrorOf(r.got) == Some(RateLimited) <==> s.d.records[r.key].status == Blocked)
            && ErrorOf(r.got) != Some(InvalidPayload)
  {
    InvRun(normalize, EMPTY, steps);
    var s := Run(normalize, EMPTY, steps);
    var r := s.requests[q];
    assert Informed(s.d, r) && SentFor(s.d, r);
    assert ResultOn(r.got, Sms) == r.got.sms && ResultOn(r.got, Email) == r.got.email;
  }

  /**
   * What a submission that did not find its key comes to when it creates the record: refused for a bad phone number,
   * also if another one has taken the key meanwhile; otherwise it owns the key if that is still free.
   */
  lemma CreateDecides(normalize: string -> Option<string>, d: Db, key: Key, p: Payload)
    ensures var (e, r) := Create(normalize, d, Missed(key, p));
            var bad := p.phone != None && normalize(p.phone.value) == None;
            && (r == Refused(key) <==> bad) && (r == Collided(key) <==> !bad && key in d.records)
            && (r.Owner? <==> !bad && key !in d.records) && (!r.Owner? ==> e == d)
            && (r.Owner? ==> key in e.records && e.records[key] == Record(r.id, p.channels, Processing, NOTHING)
                             && e.sent == d.sent)
  {}

  /** A step leaves a record that is no longer PROCESSING alone, and never removes one or renames it. */
  lemma RecordStep(normalize: string -> Option<string>, s: State, step: Step, key: Key)
    requires Inv(s) && key in s.d.records
    ensures var z := Next(normalize, s, step);
            && key in z.d.records && z.d.records[key].id == s.d.records[key].id
            && (s.d.records[key].status != Processing ==> z.d.records[key] == s.d.records[key])
            && (z.d.records[key] != s.d.records[key] ==>
                  step.Saves? && step.q in s.requests && s.requests[step.q].Owner? && s.requests[step.q].key == key)
  {
    if !step.Looks? && step.q in s.requests {
      assert Informed(s.d, s.requests[step.q]);
    }
  }

  /** A record leaves PROCESSING at most once, and after that it never changes. */
  lemma FinalForGood(normalize: string -> Option<string>, s: State, steps: seq<Step>, key: Key)
    requires Reachable(normalize, s) && key in s.d.records && s.d.records[key].status != Processing
    ensures var z := Run(normalize, s, steps); key in z.d.records && z.d.records[key] == s.d.records[key]
  {
    ReachableInv(normalize, s);
    FinalFrom(normalize, s, steps, key);
  }

  lemma {:induction false} FinalFrom(normalize: string -> Option<string>, s: State, steps: seq<Step>, key: Key)
    requires Inv(s) && key in s.d.records && s.d.records[key].status != Processing
    ensures var z := Run(normalize, s, steps); key in z.d.records && z.d.records[key] == s.d.records[key]
    decreases |steps|
  {
    if steps == [] {
    } else {
      InvNext(normalize, s, steps[0]);
      RecordStep(normalize, s, steps[0], key);
      FinalFrom(normalize, Next(normalize, s, steps[0]), steps[1..], key);
    }
  }

  /** A record is PROCESSING exactly as long as the submission that owns it has not stored its result. */
  lemma ProcessingIffOwned(normalize: string -> Option<string>, s: State, key: Key)
    requires Reachable(normalize, s) && key in s.d.records
    ensures s.d.records[key].status == Processing
            <==> exists q :: q in s.requests && s.requests[q].Owner? && s.requests[q].key == key
  {
    ReachableInv(normalize, s);
    assert HasOwner(s.requests, key);
    var q :| q in s.requests && Owns(s.requests[q], key);
    assert Informed(s.d, s.requests[q]);
    forall p | p in s.requests && s.requests[p].Owner? && s.requests[p].key == key ensures p == q {
      assert Owns(s.requests[p], key);
    }
  }

  /** Two steps reach a submission that can stop there: it has looked and created its record. */
  lemma OwnerReachable(normalize: string -> Option<string>, key: Key, payload: Payload)
    requires payload.phone.Some? ==> normalize(payload.phone.value).Some?
    ensures var s := Run(normalize, EMPTY, [Looks(0, key, payload), Creates(0)]);
            && Reachable(normalize, s) && 0 in s.requests && s.requests[0] == Owner(key, payload, 0, NOTHING)
            && key in s.d.records && s.d.records[key].status == Processing
  {
    var a, b := Looks(0, key, payload), Creates(0);
    assert [a, b][1..] == [b] && [b][1..] == [];
    var s1 := Next(normalize, EMPTY, a);
    assert Run(normalize, EMPTY, [a, b]) == Run(normalize, s1, [b]);
    assert Run(normalize, s1, [b]) == Next(normalize, s1, b);
  }

  // --- When the owner stops -----------------------------------------------------------------------

  lemma StalledStep(normalize: string -> Option<string>, s: State, step: Step, q: nat)
    requires Inv(s) && q in s.requests && s.requests[q].Owner? && step.q != q
    ensures var z, key := Next(normalize, s, step), s.requests[q].key;
            && q in z.requests && z.requests[q] == s.requests[q]
            && key in z.d.records && z.d.records[key] == s.d.records[key]
            && (forall c :: z.d.sent[Send(key, c)] == s.d.sent[Send(key, c)])
  {
    var r := s.requests[q];
    assert Informed(s.d, r) && Owns(r, r.key);
    RecordStep(normalize, s, step, r.key);
    if !step.Looks? && step.q in s.requests {
      ActHasEffect(normalize, s.d, s.requests[step.q], step);
      assert !Owns(s.requests[step.q], r.key);
    }
  }

  /**
   * If the owner never moves again, its record stays PROCESSING, nothing more is sent for
   * the key, and everyone else is told that the event was already accepted.
   */
  lemma StalledForGood(normalize: string -> Option<string>, s: State, steps: seq<Step>, q: nat)
    requires Reachable(normalize, s) && q in s.requests && s.requests[q].Owner?
    requires forall i :: 0 <= i < |steps| ==> steps[i].q != q
    ensures StalledIn(s, Run(normalize, s, steps), s.requests[q])
  {
    ReachableInv(normalize, s);
    StalledFrom(normalize, s, steps, q);
  }

  /** What is left, in a later state `z`, of the owner `r` that stopped in state `s`. */
  ghost predicate StalledIn(s: State, z: State, r: Request)
    requires r.Owner?
  {
    && r.key in s.d.records && r.key in z.d.records && z.d.records[r.key] == s.d.records[r.key]
    && z.d.records[r.key].status == Processing
    && (forall c :: z.d.sent[Send(r.key, c)] == s.d.sent[Send(r.key, c)])
    && (forall p :: Look(z.d, r.key, p) == Duplicate(r.key, r.id, r.payload.channels))
  }

  lemma {:induction false} StalledFrom(normalize: string -> Option<string>, s: State, steps: seq<Step>, q: nat)
    requires Inv(s) && q in s.requests && s.requests[q].Owner?
    requires forall i :: 0 <= i < |steps| ==> steps[i].q != q
    ensures StalledIn(s, Run(normalize, s, steps), s.requests[q])
    decreases |steps|
  {
    var r := s.requests[q];
    assert Informed(s.d, r);
    if steps == [] {
    } else {
      var next := Next(normalize, s, steps[0]);
      InvNext(normalize, s, steps[0]);
      StalledStep(normalize, s, steps[0], q);
      StalledFrom(normalize, next, steps[1..], q);
    }
  }

  // --- The service -----------------------------------------------------------------------------------

  /** One submission with nothing in between; `sms` and `email` are what the adapters answer. */
  function Submit(normalize: string -> Option<string>, d: Db, key: Key, payload: Payload,
                  sms: Outcome, email: Outcome): (Db, Request) {
    var (e, r) := Create(normalize, d, Look(d, key, payload));
    DispatchAndSave(e, Relook(e, r), sms, email)
  }

  function DispatchAndSave(d: Db, r: Request, sms: Outcome, email: Outcome): (Db, Request) {
    var (d1, r1) := Dispatch(d, r, Sms, sms);
    var (d2, r2) := Dispatch(d1, r1, Email, email);
    Save(d2, r2)
  }

  datatype Reply =
    | Done(id: nat, status: Status)
    | AlreadyAccepted(id: nat, channels: seq<Channel>)
    | Error(error: Error)

  function ReplyOf(r: Request): Reply {
    match r
    case Finished(_, _, id, got) => if ErrorOf(got).Some? then Error(ErrorOf(got).value) else Done(id, StatusOf(got))
    case Duplicate(_, id, channels) => AlreadyAccepted(id, channels)
    case _ => Error(InvalidPayload)
  }

  function Answered(result: (Db, Request)): (Db, Reply) { (result.0, ReplyOf(result.1)) }

  class EventService {
    const normalize: string -> Option<string>
    var records: map<Key, Record>
    var nextId: nat
    var sent: multiset<Send>

    constructor (normalize: string -> Option<string>)
      ensures this.normalize == normalize && View() == EMPTY.d
    {
      this.normalize := normalize;
      records, nextId, sent := map[], 0, multiset{};
    }

    function View(): Db
      reads this
    {
      Db(records, nextId, sent)
    }

    /** The `sendSms` and `sendEmail` closures. */
    method SendOn(c: Channel, o: Outcome, key: Key, payload: Payload, id: nat, got: Results) returns (after: Results)
      requires ResultOn(got, c).None?
      modifies this`sent
      ensures Wants(payload, c) ==> ResultOn(after, c).Some?
      ensures sent == old(sent)
                      + if c in payload.channels && HasAddress(payload, c) then multiset{Send(key, c)} else multiset{}
      ensures c == Email ==> after.sms == got.sms
      ensures c == Sms ==> after.email == got.email
      ensures Dispatch(old(View()), Owner(key, payload, id, got), c, o) == (View(), Owner(key, payload, id, after))
    {
      after := got;
      if c in payload.channels && (if c == Sms then payload.phone.Some? else payload.email.Some?) {
        sent := sent + multiset{Send(key, c)};
        after := if c == Sms then got.(sms := Some(o)) else got.(email := Some(o));
      }
    }

    /** `saveEventResult` with the status the answers add up to, and the reply. */
    method SaveEventResult(key: Key, payload: Payload, id: nat, got: Results) returns (reply: Reply)
      requires Settled(payload, got)
      modifies this`records
      ensures Save(old(View()), Owner(key, payload, id, got)) == (View(), Finished(key, payload, id, got))
      ensures reply == ReplyOf(Finished(key, payload, id, got))
    {
      var anyAccepted := got.sms == Some(Accepted) || got.email == Some(Accepted);
      var anyBlocked := got.sms == Some(Rejected(true)) || got.email == Some(Rejected(true));
      var allFailed := got != NOTHING && !anyAccepted;
      var status := if anyAccepted then QueuedOrSent else if anyBlocked then Blocked else Failed;
      records := map k | k in records ::
        if records[k].id == id then records[k].(status := status, results := got) else records[k];
      assert records == UpdateById(old(records), id, got);
      if !anyAccepted && allFailed {
        return Error(if anyBlocked then RateLimited else Unavailable);
      }
      return Done(id, status);
    }

    method SendApprovedChannels(key: Key, payload: Payload, id: nat, sms: Outcome,
                                email: Outcome) returns (reply: Reply)
      modifies this
      ensures (View(), reply) == Answered(DispatchAndSave(old(View()), Owner(key, payload, id, NOTHING), sms, email))
    {
      var got := SendOn(Sms, sms, key, payload, id, NOTHING);
      got := SendOn(Email, email, key, payload, id, got);
      reply := SaveEventResult(key, payload, id, got);
    }

    method GetOrCreateExternalCommunicationEvent(key: Key, payload: Payload, sms: Outcome, email: Outcome)
        returns (reply: Reply)
      modifies this
      ensures (View(), reply) == Answered(Submit(normalize, old(View()), key, payload, sms, email))
    {
      if key in records {
        return AlreadyAccepted(records[key].id, records[key].channels);
      }
      if payload.phone.Some? && normalize(payload.phone.value).None? {
        return Error(InvalidPayload);
      }
      var id := nextId;
      records := records[key := Record(id, payload.channels, Processing, NOTHING)];
      nextId := nextId + 1;
      assert Create(normalize, old(View()), Look(old(View()), key, payload))
          == (View(), Owner(key, payload, id, NOTHING));
      reply := SendApprovedChannels(key, payload, id, sms, email);
    }
  }

  /** Submitting the same key again sends nothing more and names the first record, whatever the first answer was. */
  lemma SubmitTwice(normalize: string -> Option<string>, d: Db, key: Key, payload: Payload, sms: Outcome,
                    email: Outcome,
                    payload2: Payload, sms2: Outcome, email2: Outcome)
    requires IdsUnique(d) && key !in d.records
    ensures var (e, r) := Submit(normalize, d, key, payload, sms, email);
            var (f, x) := Submit(normalize, e, key, payload2, sms2, email2);
            && (r.Refused? <==> payload.phone.Some? && normalize(payload.phone.value).None?)
            && (r.Refused? ==> e == d)
            && (!r.Refused? ==> r.Finished? && f == e && x == Duplicate(key, r.id, payload.channels))
  {}

  /** The channel was approved and the recipient has an address on it. */
  predicate Sends(p: Payload, c: Channel) { c in p.channels && HasAddress(p, c) }

  /** Some channel that was sent on got this answer. */
  predicate Got(p: Payload, sms: Outcome, email: Outcome, o: Outcome) {
    (Sends(p, Sms) && sms == o) || (Sends(p, Email) && email == o)
  }

  function AnswersOf(p: Payload, sms: Outcome, email: Outcome): Results {
    Results(if Sends(p, Sms) then Some(sms) else None, if Sends(p, Email) then Some(email) else None)
  }

  /** The status and the reply that the adapters' answers add up to. */
  ghost predicate AddsUp(p: Payload, id: nat, sms: Outcome, email: Outcome, status: Status, reply: Reply) {
    var accepted, blocked := Got(p, sms, email, Accepted), Got(p, sms, email, Rejected(true));
    && status == (if accepted then QueuedOrSent else if blocked then Blocked else Failed)
    && reply == if accepted then Done(id, QueuedOrSent)
                else if blocked then Error(RateLimited)
                else if Sends(p, Sms) || Sends(p, Email) then Error(Unavailable)
                else Done(id, Failed)
  }

  ghost predicate SettledAs(e: Db, key: Key, p: Payload, id: nat, sms: Outcome, email: Outcome, reply: Reply) {
    && key in e.records
    && e.records[key] == Record(id, p.channels, e.records[key].status, AnswersOf(p, sms, email))
    && AddsUp(p, id, sms, email, e.records[key].status, reply)
  }

  lemma AnswersAddUp(key: Key, p: Payload, id: nat, sms: Outcome, email: Outcome)
    ensures var got := AnswersOf(p, sms, email);
            AddsUp(p, id, sms, email, StatusOf(got), ReplyOf(Finished(key, p, id, got)))
  {}

  lemma SavedReply(d: Db, key: Key, p: Payload, id: nat, sms: Outcome, email: Outcome)
    requires IdsUnique(d) && key in d.records && d.records[key].id == id && d.records[key].channels == p.channels
    ensures var (e, reply) := Answered(DispatchAndSave(d, Owner(key, p, id, NOTHING), sms, email));
            SettledAs(e, key, p, id, sms, email, reply)
  {
    var got := AnswersOf(p, sms, email);
    var (d1, r1) := Dispatch(d, Owner(key, p, id, NOTHING), Sms, sms);
    var (d2, r2) := Dispatch(d1, r1, Email, email);
    assert r2 == Owner(key, p, id, got) && d2.records == d.records;
    UpdateByIdIsLocal(d, key, got);
    AnswersAddUp(key, p, id, sms, email);
    assert Save(d2, r2).1 == Finished(key, p, id, got);
  }

  /** What a submission without interference is answered, and what it leaves on record. */
  lemma SubmitReply(normalize: string -> Option<string>, d: Db, key: Key, payload: Payload, sms: Outcome,
                    email: Outcome)
    requires IdsUnique(d)
    ensures var (e, reply) := Answered(Submit(normalize, d, key, payload, sms, email));
            if key in d.records then e == d && reply == AlreadyAccepted(d.records[key].id, d.records[key].channels)
            else if payload.phone.Some? && normalize(payload.phone.value) == None then
              e == d && reply == Error(InvalidPayload)
            else SettledAs(e, key, payload, d.nextId, sms, email, reply)
  {
    if key !in d.records && (payload.phone.Some? ==> normalize(payload.phone.value).Some?) {
      CreatedIds(d, key, payload.channels);
      var (e, r) := Create(normalize, d, Look(d, key, payload));
      SavedReply(e, key, payload, d.nextId, sms, email);
    }
  }
}
