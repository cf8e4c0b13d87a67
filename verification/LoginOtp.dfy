/**
 * One-time login codes (src/modules/auth/otp.service.ts): the code record with its
 * attempt counter and the resend cooldown, per channel and recipient.
 */
module LoginOtp {
  import opened Common

  datatype Config = Config(maxAttempts: nat, expiryMs: int, cooldownMs: int, hash: string -> string)

  datatype Record = Record(codeHash: string, attempts: nat, user: string, expiresAt: int)

  /** What Redis holds for one channel and recipient. */
  datatype Slot = Slot(record: Option<Record>, cooldownUntil: Option<int>)

  const FRESH: Slot := Slot(None, None)

  datatype Reply = Cooldown | Abuse | Accepted | Invalid | TooMany | Success(user: string)

  predicate Cooling(s: Slot, now: int) { s.cooldownUntil.Some? && now < s.cooldownUntil.value }

  predicate Active(s: Slot, now: int) { s.record.Some? && now < s.record.value.expiresAt }

  /** `allowed` is the abuse decision; `account` the user to send to, if there is a verified one. */
  function Request(cfg: Config, s: Slot, code: string, allowed: bool, account: Option<string>,
                   now: int): (Slot, Reply) {
    if Cooling(s, now) then (s, Cooldown)
    else if !allowed then (s, Abuse)
    else if account.None? then (s.(cooldownUntil := Some(now + cfg.cooldownMs)), Accepted)
    else (Slot(Some(Record(cfg.hash(code), 0, account.value, now + cfg.expiryMs)), Some(now + cfg.cooldownMs)),
          Accepted)
  }

  function Verify(cfg: Config, s: Slot, code: string, now: int): (Slot, Reply) {
    if !Active(s, now) then (s, Invalid)
    else
      var state := s.record.value;
      if state.attempts >= cfg.maxAttempts then (s.(record := None), TooMany)
      else if state.codeHash != cfg.hash(code) then
        (s.(record := Some(state.(attempts := state.attempts + 1))), Invalid)
      else (s.(record := None), Success(state.user))
  }

  // --- The service ----------------------------------------------------------------

  datatype Channel = Email | Phone

  datatype OtpKey = OtpKey(channel: Channel, recipientHash: string)

  class OtpService {
    const cfg: Config
    var records: map<OtpKey, Record>
    var cooldowns: map<OtpKey, int>

    constructor (cfg: Config)
      ensures this.cfg == cfg && forall key :: View(key) == FRESH
    {
      this.cfg := cfg;
      records, cooldowns := map[], map[];
    }

    function View(key: OtpKey): Slot
      reads this
    {
      Slot(if key in records then Some(records[key]) else None, if key in cooldowns then Some(cooldowns[key]) else None)
    }

    method RequestLoginOtp(key: OtpKey, code: string, allowed: bool, account: Option<string>, now: int)
        returns (reply: Reply)
      modifies this
      ensures (View(key), reply) == Request(cfg, old(View(key)), code, allowed, account, now)
      ensures forall other :: other != key ==> View(other) == old(View(other))
    {
      if key in cooldowns && cooldowns[key] - now > 0 {
        return Cooldown;
      }
      if !allowed {
        return Abuse;
      }
      if account.Some? {
        records := records[key := Record(cfg.hash(code), 0, account.value, now + cfg.expiryMs)];
        cooldowns := cooldowns[key := now + cfg.cooldownMs];
      } else {
        cooldowns := cooldowns[key := now + cfg.cooldownMs];
      }
      return Accepted;
    }

    method VerifyLoginOtp(key: OtpKey, code: string, now: int) returns (reply: Reply)
      modifies this
      ensures (View(key), reply) == Verify(cfg, old(View(key)), code, now)
      ensures forall other :: other != key ==> View(other) == old(View(other))
    {
      if key !in records || now >= records[key].expiresAt {
        return Invalid;
      }
      var state := records[key];
      if state.attempts >= cfg.maxAttempts {
        records := records - {key};
        return TooMany;
      }
      if state.codeHash != cfg.hash(code) {
        var ttl := state.expiresAt - now;
        records := records[key := state.(attempts := state.attempts + 1,
                                         expiresAt := now + if ttl > 0 then ttl else 1000)];
        return Invalid;
      }
      records := records - {key};
      return Success(state.user);
    }
  }

  // --- Traces on one channel and recipient -------------------------------------------

  datatype Action = Ask(code: string, allowed: bool, account: Option<string>) | Try(code: string)

  datatype Event = Event(now: int, action: Action)

  function Step(cfg: Config, s: Slot, e: Event): (Slot, Reply) {
    match e.action
    case Ask(code, allowed, account) => Request(cfg, s, code, allowed, account, e.now)
    case Try(code) => Verify(cfg, s, code, e.now)
  }

  function Run(cfg: Config, s: Slot, events: seq<Event>): Slot
    decreases |events|
  {
    if events == [] then s else Run(cfg, Step(cfg, s, events[0]).0, events[1..])
  }

  ghost predicate InOrder(events: seq<Event>) {
    forall i, k :: 0 <= i <= k < |events| ==> events[i].now <= events[k].now
  }

  ghost predicate NotBefore(a: int, events: seq<Event>) {
    forall i :: 0 <= i < |events| ==> a <= events[i].now
  }

  predicate Issues(cfg: Config, s: Slot, e: Event) {
    e.action.Ask? && e.action.account.Some? && Step(cfg, s, e).1 == Accepted
  }

  /** A guess that was compared with the code and was wrong. */
  predicate WrongGuess(cfg: Config, s: Slot, e: Event) {
    e.action.Try? && Active(s, e.now) && s.record.value.attempts < cfg.maxAttempts
    && s.record.value.codeHash != cfg.hash(e.action.code)
  }

  predicate Succeeds(cfg: Config, s: Slot, e: Event) { Step(cfg, s, e).1.Success? }

  function Bit(b: bool): nat { if b then 1 else 0 }

  function IssueCount(cfg: Config, s: Slot, events: seq<Event>, a: int, b: int): nat
    decreases |events|
  {
    if events == [] then 0
    else
      Bit(a <= events[0].now < b && Issues(cfg, s, events[0]))
      + IssueCount(cfg, Step(cfg, s, events[0]).0, events[1..], a, b)
  }

  function WrongCount(cfg: Config, s: Slot, events: seq<Event>, a: int, b: int): nat
    decreases |events|
  {
    if events == [] then 0
    else
      Bit(a <= events[0].now < b && WrongGuess(cfg, s, events[0]))
      + WrongCount(cfg, Step(cfg, s, events[0]).0, events[1..], a, b)
  }

  function SuccessCount(cfg: Config, s: Slot, events: seq<Event>): nat
    decreases |events|
  {
    if events == [] then 0
    else Bit(Succeeds(cfg, s, events[0])) + SuccessCount(cfg, Step(cfg, s, events[0]).0, events[1..])
  }

  // --- Codes are spaced by the cooldown --------------------------------------------------

  /** How many codes fit in [x, b) if they are `d` apart. */
  function Slots(x: int, b: int, d: int): nat
    requires d > 0
    decreases b - x
  {
    if x >= b then 0 else 1 + Slots(x + d, b, d)
  }

  lemma {:induction false} SlotsShrink(x: int, y: int, b: int, d: int)
    requires d > 0 && x <= y
    ensures Slots(y, b, d) <= Slots(x, b, d)
    decreases b - x
  {
    if y >= b {
    } else {
      SlotsShrink(x + d, y + d, b, d);
    }
  }

  lemma MulMonotone(m: nat, x: int, y: int)
    requires x <= y
    ensures m * x <= m * y
  {}

  lemma MulOne(m: int, n: int)
    ensures m * (n + 1) == m * n + m
  {}

  lemma {:induction false} SlotsSpan(x: int, b: int, d: int)
    requires d > 0 && x < b
    ensures d * (Slots(x, b, d) - 1) < b - x
    decreases b - x
  {
    if x + d < b {
      SlotsSpan(x + d, b, d);
      MulOne(d, Slots(x + d, b, d) - 1);
    }
  }

  lemma DivBound(d: nat, k: int, length: nat)
    requires d > 0 && d * k <= length
    ensures k <= length / d
  {
    assert length == d * (length / d) + length % d;
    MulOne(d, length / d);
    if k > length / d {
      MulMonotone(d, length / d + 1, k);
    }
  }

  function Earliest(s: Slot, a: int): int {
    if s.cooldownUntil.Some? then Max(a, s.cooldownUntil.value) else a
  }

  lemma {:induction false} IssuesSpaced(cfg: Config, s: Slot, events: seq<Event>, a: int, b: int)
    requires cfg.cooldownMs > 0
    ensures IssueCount(cfg, s, events, a, b) <= Slots(Earliest(s, a), b, cfg.cooldownMs)
    decreases |events|
  {
    if events == [] {
    } else {
      var e := events[0];
      var next := Step(cfg, s, e).0;
      IssuesSpaced(cfg, next, events[1..], a, b);
      SlotsShrink(Earliest(s, a), Earliest(next, a), b, cfg.cooldownMs);
      if Issues(cfg, s, e) && a <= e.now < b {
        SlotsShrink(Earliest(s, a), e.now, b, cfg.cooldownMs);
      }
    }
  }

  // --- Wrong guesses and successes per code ------------------------------------------------

  /** Guesses the current record still allows. */
  function Budget(cfg: Config, s: Slot): nat {
    if s.record.Some? && s.record.value.attempts < cfg.maxAttempts then cfg.maxAttempts - s.record.value.attempts else 0
  }

  lemma {:induction false} WrongWithinBudget(cfg: Config, s: Slot, events: seq<Event>, a: int, b: int)
    requires NotBefore(a, events) && InOrder(events)
    ensures WrongCount(cfg, s, events, a, b) <= Budget(cfg, s) + cfg.maxAttempts * IssueCount(cfg, s, events, a, b)
    decreases |events|
  {
    if events == [] {
    } else {
      var next := Step(cfg, s, events[0]).0;
      assert NotBefore(a, events[1..]) && InOrder(events[1..]);
      WrongWithinBudget(cfg, next, events[1..], a, b);
      if events[0].now >= b {
        NothingLater(cfg, next, events[1..], a, b);
      }
      MulOne(cfg.maxAttempts, IssueCount(cfg, next, events[1..], a, b));
    }
  }

  lemma {:induction false} NothingLater(cfg: Config, s: Slot, events: seq<Event>, a: int, b: int)
    requires NotBefore(b, events)
    ensures WrongCount(cfg, s, events, a, b) == 0 && IssueCount(cfg, s, events, a, b) == 0
    decreases |events|
  {
    if events == [] {
    } else {
      assert NotBefore(b, events[1..]);
      NothingLater(cfg, Step(cfg, s, events[0]).0, events[1..], a, b);
    }
  }

  lemma {:induction false} WrongInInterval(cfg: Config, s: Slot, events: seq<Event>, a: int, b: int)
    requires InOrder(events)
    ensures WrongCount(cfg, s, events, a, b) <= cfg.maxAttempts + cfg.maxAttempts * IssueCount(cfg, s, events, a, b)
    decreases |events|
  {
    if events == [] {
    } else if events[0].now >= a {
      WrongWithinBudget(cfg, s, events, a, b);
    } else {
      WrongInInterval(cfg, Step(cfg, s, events[0]).0, events[1..], a, b);
    }
  }

  /**
   * The overall limit on guessing: at most max * (T / cooldown + 2) wrong guesses in any half-open interval of
   * length T.
   */
  lemma GuessingBound(cfg: Config, s: Slot, events: seq<Event>, a: int, length: nat)
    requires cfg.cooldownMs > 0 && InOrder(events)
    ensures WrongCount(cfg, s, events, a, a + length) <= cfg.maxAttempts * (length / cfg.cooldownMs + 2)
  {
    var b, d := a + length, cfg.cooldownMs;
    var n := IssueCount(cfg, s, events, a, b);
    WrongInInterval(cfg, s, events, a, b);
    IssuesSpaced(cfg, s, events, a, b);
    SlotsShrink(a, Earliest(s, a), b, d);
    if length > 0 {
      SlotsSpan(a, b, d);
      DivBound(d, Slots(a, b, d) - 1, length);
    }
    assert n <= length / d + 1;
    MulMonotone(cfg.maxAttempts, n + 1, length / d + 2);
    MulOne(cfg.maxAttempts, n);
  }

  ghost predicate NoIssue(cfg: Config, s: Slot, events: seq<Event>)
    decreases |events|
  {
    events == [] || (!Issues(cfg, s, events[0]) && NoIssue(cfg, Step(cfg, s, events[0]).0, events[1..]))
  }

  /** Per code: what the record allows in wrong guesses, and one success, until the next code is issued. */
  lemma {:induction false} OneCode(cfg: Config, s: Slot, events: seq<Event>, a: int, b: int)
    requires NoIssue(cfg, s, events)
    ensures WrongCount(cfg, s, events, a, b) <= Budget(cfg, s)
    ensures SuccessCount(cfg, s, events) <= Bit(s.record.Some?)
    ensures SuccessCount(cfg, s, events) == 1 ==> WrongCount(cfg, s, events, a, b) < Budget(cfg, s)
    decreases |events|
  {
    if events == [] {
    } else {
      OneCode(cfg, Step(cfg, s, events[0]).0, events[1..], a, b);
    }
  }

  /** A right guess counts: the code last sent works until it expires, is replaced, is used, or runs out of attempts. */
  lemma {:induction false} RightCodeWorks(cfg: Config, s: Slot, code: string, user: string, events: seq<Event>,
                                          now: int)
    requires s.record.Some? && s.record.value.codeHash == cfg.hash(code) && s.record.value.user == user
    requires NoIssue(cfg, s, events) && SuccessCount(cfg, s, events) == 0
    requires InOrder(events + [Event(now, Try(code))]) && now < s.record.value.expiresAt
    requires s.record.value.attempts + Tries(events) < cfg.maxAttempts
    ensures Verify(cfg, Run(cfg, s, events), code, now).1 == Success(user)
    decreases |events|
  {
    if events == [] {
    } else {
      var next := Step(cfg, s, events[0]).0;
      var longer := events + [Event(now, Try(code))];
      assert longer[1..] == events[1..] + [Event(now, Try(code))];
      assert longer[0] == events[0] && longer[|events|].now == now;
      assert events[0].now <= now;
      RightCodeWorks(cfg, next, code, user, events[1..], now);
    }
  }

  function Tries(events: seq<Event>): nat {
    if events == [] then 0 else Bit(events[0].action.Try?) + Tries(events[1..])
  }

  // --- From the request to the code -----------------------------------------------------------------

  /** A code is sent to a known account: the request is not in the cooldown, and the abuse limits let it through. */
  predicate Sent(s: Slot, e: Event) {
    && e.action.Ask? && e.action.account != None && e.action.allowed
    && (s.cooldownUntil == None || s.cooldownUntil.value <= e.now)
  }

  /**
   * What a request is answered: within the cooldown it is told so, and the slot stays; otherwise an abuse refusal
   * leaves the slot as well, and anybody else is answered alike, account or not, and cools down.
   */
  lemma AnsweredAlike(cfg: Config, s: Slot, code: string, allowed: bool, account: Option<string>, now: int)
    ensures var (next, reply) := Request(cfg, s, code, allowed, account, now);
            && (reply == Cooldown <==> s.cooldownUntil.Some? && now < s.cooldownUntil.value)
            && (reply == Abuse <==> reply != Cooldown && !allowed)
            && (reply == Accepted <==> reply != Cooldown && allowed)
            && (reply != Accepted ==> next == s)
            && (reply == Accepted ==> next.cooldownUntil == Some(now + cfg.cooldownMs))
            && (reply == Accepted && account == None ==> next.record == s.record)
            && (forall later, c, b, a :: reply == Accepted ==>
                  (Request(cfg, next, c, b, a, later).1 == Cooldown <==> later < now + cfg.cooldownMs))
  {}

  /** The code that was sent opens the account it was sent to, from then until it expires, and no other code does. */
  lemma SentCodeOpens(cfg: Config, s: Slot, e: Event, code: string, now: int)
    requires Sent(s, e) && cfg.maxAttempts > 0
    ensures var reply := Verify(cfg, Step(cfg, s, e).0, code, now).1;
            && (reply == Success(e.action.account.value)
                <==> now < e.now + cfg.expiryMs && cfg.hash(code) == cfg.hash(e.action.code))
            && (reply == Success(e.action.account.value) || reply == Invalid)
  {}

  /** Also after other events: while no other code was sent, it was not used, and there are attempts left. */
  lemma SentCodeWorks(cfg: Config, s: Slot, e: Event, events: seq<Event>, now: int)
    requires Sent(s, e) && InOrder(events + [Event(now, Try(e.action.code))])
    requires NoIssue(cfg, Step(cfg, s, e).0, events) && SuccessCount(cfg, Step(cfg, s, e).0, events) == 0
    requires Tries(events) < cfg.maxAttempts && now < e.now + cfg.expiryMs
    ensures Verify(cfg, Run(cfg, s, [e] + events), e.action.code, now).1 == Success(e.action.account.value)
  {
    assert ([e] + events)[1..] == events;
    RightCodeWorks(cfg, Step(cfg, s, e).0, e.action.code, e.action.account.value, events, now);
  }

  /** A code works once: after its success, or once its attempts are used up, it is refused. */
  lemma CodeEnds(cfg: Config, s: Slot, code: string, now: int, again: string, later: int)
    requires Verify(cfg, s, code, now).1.Success? || Verify(cfg, s, code, now).1.TooMany?
    ensures Verify(cfg, Verify(cfg, s, code, now).0, again, later).1 == Invalid
  {}

  /** Too many: exactly when a live code has been missed as often as allowed, whatever is tried then. */
  lemma TooManyExactly(cfg: Config, s: Slot, code: string, now: int)
    ensures Verify(cfg, s, code, now).1 == TooMany
            <==> s.record.Some? && now < s.record.value.expiresAt && s.record.value.attempts >= cfg.maxAttempts
    ensures s.record.Some? && now < s.record.value.expiresAt && s.record.value.attempts < cfg.maxAttempts
            && s.record.value.codeHash != cfg.hash(code) ==>
              var missed := s.record.value.(attempts := s.record.value.attempts + 1);
              Verify(cfg, s, code, now).0 == s.(record := Some(missed))
  {}
}
