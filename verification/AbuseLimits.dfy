/**
 * Communication abuse limits (src/lib/antiAbuse.ts): block keys, the list of windows a
 * check goes through, and the block recorded when one of them refuses.
 *
 * Counter and block keys are constructors instead of formatted strings.  `hash` is the
 * abuse hash and `fold` the normal form of an e-mail address; both are parameters.
 */
module AbuseLimits {
  import opened Common
  import opened FixedWindow
  import opened WindowLoop

  datatype Channel = Email | Sms

  datatype Context = Send | Retry | ProviderTest | AdminInvite

  datatype Template = LoginAlert | SecurityAlert | OtherTemplate

  datatype Config = Config(enabled: bool, connected: bool, hash: string -> string, fold: string -> string,
                           smsPerHour: int, smsPerDay: int, emailPerHour: int, emailPerDay: int,
                           systemSmsHourly: int, systemSmsDaily: int, systemEmailHourly: int, systemEmailDaily: int,
                           testsPerAdminHour: int)

  /** `relaxed`: the caller is under the relaxed rules for local development. */
  datatype Input = Input(channel: Channel, purpose: string, recipient: string, ip: Option<string>, relaxed: bool,
                         user: Option<string>, admin: Option<string>, provider: Option<string>,
                         context: Context, bodyLength: Option<int>, template: Template)

  datatype Key =
    | Alert(channel: Channel, recipient: string)
    | Recipient15m(channel: Channel, purpose: string, recipient: string)
    | Recipient1h(channel: Channel, purpose: string, recipient: string)
    | Recipient1d(channel: Channel, purpose: string, recipient: string)
    | Ip1h(channel: Channel, ip: string)
    | Pair15m(channel: Channel, purpose: string, ip: string, recipient: string)
    | User1h(channel: Channel, user: string)
    | User1d(channel: Channel, user: string)
    | System1h(channel: Channel)
    | System1d(channel: Channel)
    | AdminTest1h(channel: Channel, admin: string)
    | ProviderTest1h(channel: Channel, provider: string)
    | RecipientTest1h(channel: Channel, recipient: string)
    | RetryAdmin1h(channel: Channel, admin: string)
    | RetryProvider1h(channel: Channel, provider: string)

  datatype BlockKey =
    | BlockRecipient(recipient: string)
    | BlockRecipientIp(recipient: string, ip: string)
    | BlockProvider(provider: string, recipient: string)
    | BlockAdmin(admin: string, recipient: string)

  const MINUTES_15 := 900_000
  const HOUR := 3_600_000
  const DAY := 86_400_000
  const MAX_BODY := 2000

  // --- Normalising a recipient ---------------------------------------------------

  predicate PhoneChar(c: char) { '0' <= c <= '9' || c == '+' }

  function Keep(s: string): (r: string)
    ensures |r| <= |s|
  {
    if s == "" then "" else (if PhoneChar(s[0]) then [s[0]] else "") + Keep(s[1..])
  }

  function NormalizePhone(s: string): string {
    var cleaned := Keep(s);
    if !("+" <= cleaned) && "01" <= cleaned && |cleaned| == 11 then "+88" + cleaned
    else if !("+" <= cleaned) then "+" + cleaned
    else cleaned
  }

  function Normalize(cfg: Config, channel: Channel, recipient: string): string {
    if channel.Email? then cfg.fold(recipient) else NormalizePhone(recipient)
  }

  lemma {:induction false} KeepIdentity(s: string)
    requires forall i :: 0 <= i < |s| ==> PhoneChar(s[i])
    ensures Keep(s) == s
  {
    if s == "" {
    } else {
      KeepIdentity(s[1..]);
      assert [s[0]] + s[1..] == s;
    }
  }

  lemma {:induction false} KeepsPhoneChars(s: string)
    ensures forall i :: 0 <= i < |Keep(s)| ==> PhoneChar(Keep(s)[i])
  {
    if s == "" {
    } else {
      KeepsPhoneChars(s[1..]);
    }
  }

  /** A number in normal form starts with `+` and is its own normal form; spacing and dashes do not matter. */
  lemma PhoneNormalForm(s: string)
    ensures var r := NormalizePhone(s); "+" <= r && NormalizePhone(r) == r && NormalizePhone(Keep(s)) == r
  {
    var r := NormalizePhone(s);
    KeepsPhoneChars(s);
    KeepIdentity(Keep(s));
    KeepIdentity(r);
  }

  lemma {:induction false} KeepJoin(s: string, t: string)
    ensures Keep(s + t) == Keep(s) + Keep(t)
  {
    if s == "" {
      assert s + t == t;
    } else {
      var first := if PhoneChar(s[0]) then [s[0]] else "";
      assert (s + t)[0] == s[0] && (s + t)[1..] == s[1..] + t;
      KeepJoin(s[1..], t);
      JoinAgain(first, Keep(s[1..]), Keep(t));
    }
  }

  lemma JoinAgain(a: string, b: string, c: string)
    ensures a + (b + c) == (a + b) + c
  {}

  lemma KeepOne(c: char)
    ensures Keep([c]) == if c in "0123456789+" then [c] else ""
  {
    assert [c][1..] == "" && Keep("") == "";
  }

  /** Only digits and plus signs matter, wherever the other characters stand. */
  lemma OthersIgnored(s: string, c: char, t: string)
    requires c !in "0123456789+"
    ensures NormalizePhone(s + [c] + t) == NormalizePhone(s + t)
  {
    KeepOne(c);
    KeepJoin(s + [c], t);
    KeepJoin(s, [c]);
    KeepJoin(s, t);
    assert Keep(s) + "" == Keep(s);
  }

  /** A number of eleven digits from 01 on is one of Bangladesh; any other without a plus sign just lacks that. */
  lemma NationalNumber(s: string)
    ensures var kept := Keep(s);
            && ("+" <= kept ==> NormalizePhone(s) == kept)
            && (!("+" <= kept) && |kept| == 11 && "01" <= kept ==> NormalizePhone(s) == NormalizePhone("+88" + s))
            && (!("+" <= kept) && !(|kept| == 11 && "01" <= kept) ==> NormalizePhone(s) == NormalizePhone("+" + s))
  {
    KeepJoin("+88", s);
    KeepJoin("+", s);
    KeepIdentity("+88");
    KeepIdentity("+");
    Signed("+88" + s);
    Signed("+" + s);
  }

  lemma Signed(s: string)
    ensures "+" <= Keep(s) ==> NormalizePhone(s) == Keep(s)
  {}

  // --- The windows of a check --------------------------------------------------------

  function TtlOf(key: Key): int {
    match key
    case Alert(_, _) => MINUTES_15
    case Recipient15m(_, _, _) => MINUTES_15
    case Pair15m(_, _, _, _) => MINUTES_15
    case Recipient1d(_, _, _) => DAY
    case User1d(_, _) => DAY
    case System1d(_) => DAY
    case _ => HOUR
  }

  function LimitOf(cfg: Config, key: Key): int {
    match key
    case Alert(_, _) => 3
    case Recipient15m(_, _, _) => 3
    case Recipient1h(channel, _, _) => if channel.Sms? then cfg.smsPerHour else cfg.emailPerHour
    case Recipient1d(channel, _, _) => if channel.Sms? then cfg.smsPerDay else cfg.emailPerDay
    case Ip1h(_, _) => 20
    case Pair15m(_, _, _, _) => 3
    case User1h(_, _) => 10
    case User1d(_, _) => 20
    case System1h(channel) => if channel.Sms? then cfg.systemSmsHourly else cfg.systemEmailHourly
    case System1d(channel) => if channel.Sms? then cfg.systemSmsDaily else cfg.systemEmailDaily
    case AdminTest1h(_, _) => cfg.testsPerAdminHour
    case ProviderTest1h(_, _) => 20
    case RecipientTest1h(_, _) => 5
    case RetryAdmin1h(_, _) => 20
    case RetryProvider1h(_, _) => 20
  }

  function RecipientHash(cfg: Config, input: Input): string {
    cfg.hash(Normalize(cfg, input.channel, input.recipient))
  }

  function RecipientKeys(input: Input, r: string): seq<Key> {
    if input.template in {LoginAlert, SecurityAlert} then [Alert(input.channel, r)]
    else [Recipient15m(input.channel, input.purpose, r), Recipient1h(input.channel, input.purpose, r),
          Recipient1d(input.channel, input.purpose, r)]
  }

  function IpKeys(cfg: Config, input: Input, r: string): seq<Key> {
    if input.ip.None? then []
    else
      var ip := cfg.hash(input.ip.value);
      [Ip1h(input.channel, ip), Pair15m(input.channel, input.purpose, ip, r)]
  }

  function UserKeys(cfg: Config, input: Input): seq<Key> {
    if input.user.None? then []
    else [User1h(input.channel, cfg.hash(input.user.value)), User1d(input.channel, cfg.hash(input.user.value))]
  }

  function SystemKeys(input: Input): seq<Key> { [System1h(input.channel), System1d(input.channel)] }

  function TestKeys(cfg: Config, input: Input, r: string): seq<Key> {
    if !input.context.ProviderTest? then []
    else
      (if input.admin.Some? then [AdminTest1h(input.channel, cfg.hash(input.admin.value))] else [])
      + (if input.provider.Some? then [ProviderTest1h(input.channel, input.provider.value)] else [])
      + [RecipientTest1h(input.channel, r)]
  }

  function RetryKeys(cfg: Config, input: Input): seq<Key> {
    if !input.context.Retry? then []
    else
      (if input.admin.Some? then [RetryAdmin1h(input.channel, cfg.hash(input.admin.value))] else [])
      + (if input.provider.Some? then [RetryProvider1h(input.channel, input.provider.value)] else [])
  }

  /** The counters a check goes through, in order. */
  function Keys(cfg: Config, input: Input): seq<Key> {
    var r := RecipientHash(cfg, input);
    RecipientKeys(input, r) + IpKeys(cfg, input, r) + UserKeys(cfg, input) + SystemKeys(input)
    + TestKeys(cfg, input, r) + RetryKeys(cfg, input)
  }

  function Windows(cfg: Config, input: Input): seq<Win<Key>> {
    var keys := Keys(cfg, input);
    seq(|keys|, i requires 0 <= i < |keys| => Win(keys[i], TtlOf(keys[i]), LimitOf(cfg, keys[i])))
  }

  /** The kind of a key; a check never lists two of one kind. */
  function Kind(key: Key): int {
    match key
    case Alert(_, _) => 0
    case Recipient15m(_, _, _) => 1
    case Recipient1h(_, _, _) => 2
    case Recipient1d(_, _, _) => 3
    case Ip1h(_, _) => 4
    case Pair15m(_, _, _, _) => 5
    case User1h(_, _) => 6
    case User1d(_, _) => 7
    case System1h(_) => 8
    case System1d(_) => 9
    case AdminTest1h(_, _) => 10
    case ProviderTest1h(_, _) => 11
    case RecipientTest1h(_, _) => 12
    case RetryAdmin1h(_, _) => 13
    case RetryProvider1h(_, _) => 14
  }

  ghost predicate Spans(keys: seq<Key>, lo: int, hi: int) {
    && (forall i, k :: 0 <= i < k < |keys| ==> Kind(keys[i]) < Kind(keys[k]))
    && (forall i :: 0 <= i < |keys| ==> lo <= Kind(keys[i]) < hi)
  }

  lemma SpansConcat(a: seq<Key>, b: seq<Key>, lo: int, mid: int, hi: int)
    requires lo <= mid <= hi && Spans(a, lo, mid) && Spans(b, mid, hi)
    ensures Spans(a + b, lo, hi)
  {}

  lemma RecipientSpans(input: Input, r: string)
    ensures Spans(RecipientKeys(input, r), 0, 4)
  {}

  lemma IpSpans(cfg: Config, input: Input, r: string)
    ensures Spans(IpKeys(cfg, input, r), 4, 6)
  {}

  lemma UserSpans(cfg: Config, input: Input)
    ensures Spans(UserKeys(cfg, input), 6, 8)
  {}

  lemma SystemSpans(input: Input)
    ensures Spans(SystemKeys(input), 8, 10)
  {}

  lemma TestSpans(cfg: Config, input: Input, r: string)
    ensures Spans(TestKeys(cfg, input, r), 10, 13)
  {
    var a := if input.admin.Some? then [AdminTest1h(input.channel, cfg.hash(input.admin.value))] else [];
    var b := if input.provider.Some? then [ProviderTest1h(input.channel, input.provider.value)] else [];
    SpansConcat(a, b, 10, 11, 12);
    SpansConcat(a + b, [RecipientTest1h(input.channel, r)], 10, 12, 13);
  }

  lemma RetrySpans(cfg: Config, input: Input)
    ensures Spans(RetryKeys(cfg, input), 13, 15)
  {
    var a := if input.admin.Some? then [RetryAdmin1h(input.channel, cfg.hash(input.admin.value))] else [];
    var b := if input.provider.Some? then [RetryProvider1h(input.channel, input.provider.value)] else [];
    SpansConcat(a, b, 13, 14, 15);
  }

  lemma KeysSpan(cfg: Config, input: Input)
    ensures Spans(Keys(cfg, input), 0, 15)
  {
    var r := RecipientHash(cfg, input);
    RecipientSpans(input, r);
    IpSpans(cfg, input, r);
    UserSpans(cfg, input);
    SystemSpans(input);
    TestSpans(cfg, input, r);
    RetrySpans(cfg, input);
    JoinSpans(RecipientKeys(input, r), IpKeys(cfg, input, r), UserKeys(cfg, input), SystemKeys(input),
              TestKeys(cfg, input, r), RetryKeys(cfg, input));
  }

  lemma JoinSpans(a: seq<Key>, b: seq<Key>, c: seq<Key>, d: seq<Key>, e: seq<Key>, f: seq<Key>)
    requires Spans(a, 0, 4) && Spans(b, 4, 6) && Spans(c, 6, 8) && Spans(d, 8, 10) && Spans(e, 10, 13)
        && Spans(f, 13, 15)
    ensures Spans(a + b + c + d + e + f, 0, 15)
  {
    SpansConcat(a, b, 0, 4, 6);
    SpansConcat(a + b, c, 0, 6, 8);
    SpansConcat(a + b + c, d, 0, 8, 10);
    SpansConcat(a + b + c + d, e, 0, 10, 13);
    SpansConcat(a + b + c + d + e, f, 0, 13, 15);
  }

  /** No window of a check shares its counter with another. */
  lemma WindowsDistinct(cfg: Config, input: Input)
    ensures DistinctKeys(Windows(cfg, input))
  {
    KeysSpan(cfg, input);
  }

  // --- The check ------------------------------------------------------------------------

  datatype Store = Store(counters: map<Key, Counter>, blocks: map<BlockKey, int>)

  const EMPTY: Store := Store(map[], map[])

  datatype Decision = Allowed | TooLong | Blocked(key: BlockKey) | RateLimited(window: Win<Key>)

  function IpKey(cfg: Config, input: Input): Option<BlockKey> {
    if input.ip.Some? then Some(BlockRecipientIp(RecipientHash(cfg, input), cfg.hash(input.ip.value))) else None
  }

  function ProviderKey(cfg: Config, input: Input): Option<BlockKey> {
    if input.provider.Some? then Some(BlockProvider(input.provider.value, RecipientHash(cfg, input))) else None
  }

  function AdminKey(cfg: Config, input: Input): Option<BlockKey> {
    if input.admin.Some? then Some(BlockAdmin(input.admin.value, RecipientHash(cfg, input))) else None
  }

  function Listed(key: Option<BlockKey>): seq<BlockKey> { if key.Some? then [key.value] else [] }

  /** The block keys a check looks at, in order. */
  function BlockKeys(cfg: Config, input: Input): seq<BlockKey> {
    [BlockRecipient(RecipientHash(cfg, input))]
    + Listed(IpKey(cfg, input)) + Listed(ProviderKey(cfg, input)) + Listed(AdminKey(cfg, input))
  }

  /** The block keys a refusal sets: not the one with the address under the relaxed rules. */
  function RecordedKeys(cfg: Config, input: Input): seq<BlockKey> {
    [BlockRecipient(RecipientHash(cfg, input))]
    + Listed(if input.relaxed then None else IpKey(cfg, input))
    + Listed(ProviderKey(cfg, input)) + Listed(AdminKey(cfg, input))
  }

  predicate Live(s: Store, key: BlockKey, now: int) { key in s.blocks && now < s.blocks[key] }

  function FirstLive(s: Store, keys: seq<BlockKey>, now: int): Option<BlockKey> {
    if keys == [] then None
    else if Live(s, keys[0], now) then Some(keys[0])
    else FirstLive(s, keys[1..], now)
  }

  function SetAll(blocks: map<BlockKey, int>, keys: seq<BlockKey>, until: int): map<BlockKey, int> {
    map key | key in blocks.Keys + (set k | k in keys) :: if key in keys then until else blocks[key]
  }

  lemma SetAllSnoc(blocks: map<BlockKey, int>, keys: seq<BlockKey>, key: BlockKey, until: int)
    ensures SetAll(blocks, keys + [key], until) == SetAll(blocks, keys, until)[key := until]
  {}

  /** recordCommunicationBlock: the block keys of the input are set for the given time, by default an hour. */
  function RecordBlock(cfg: Config, blocks: map<BlockKey, int>, input: Input, ttl: Option<int>,
                       now: int): map<BlockKey, int> {
    if cfg.connected then SetAll(blocks, RecordedKeys(cfg, input), now + OrElse(ttl, HOUR)) else blocks
  }

  predicate Guarded(cfg: Config, input: Input) { cfg.enabled && cfg.connected && !input.relaxed }

  function Check(cfg: Config, s: Store, input: Input, now: int): (Store, Decision) {
    if input.bodyLength.Some? && input.bodyLength.value > MAX_BODY then (s, TooLong)
    else if !Guarded(cfg, input) then (s, Allowed)
    else
      var live := FirstLive(s, BlockKeys(cfg, input), now);
      if live.Some? then (s, Blocked(live.value))
      else
        var windows := Windows(cfg, input);
        var counters := BumpEach(s.counters, Reached(s.counters, windows, now), now);
        var n := FirstOver(s.counters, windows, now);
        if n == |windows| then (s.(counters := counters), Allowed)
        else (Store(counters, RecordBlock(cfg, s.blocks, input, Some(windows[n].ttl), now)), RateLimited(windows[n]))
  }

  class AbuseGuard {
    const cfg: Config
    const store: CounterStore<Key>
    var blocks: map<BlockKey, int>

    constructor (cfg: Config)
      ensures this.cfg == cfg && fresh(store) && View() == EMPTY
    {
      this.cfg := cfg;
      store := new CounterStore<Key>();
      blocks := map[];
    }

    function View(): Store
      reads this, store
    {
      Store(store.counters, blocks)
    }

    /** SET key PX, if the key applies, as the next command of a transaction that found `before` and has set `keys`. */
    method SetBlock(key: Option<BlockKey>, until: int, ghost before: map<BlockKey, int>, ghost keys: seq<BlockKey>)
        returns (ghost more: seq<BlockKey>)
      requires blocks == SetAll(before, keys, until)
      modifies this`blocks
      ensures more == keys + Listed(key) && blocks == SetAll(before, more, until)
    {
      more := keys + Listed(key);
      if key.Some? {
        SetAllSnoc(before, keys, key.value, until);
        blocks := blocks[key.value := until];
      }
    }

    method RecordCommunicationBlock(input: Input, ttl: Option<int>, now: int)
      modifies this`blocks
      ensures blocks == RecordBlock(cfg, old(blocks), input, ttl, now)
    {
      if !cfg.connected {
        return;
      }
      var until := now + OrElse(ttl, HOUR);
      ghost var before := blocks;
      assert SetAll(before, [], until) == before;
      ghost var keys := SetBlock(Some(BlockRecipient(RecipientHash(cfg, input))), until, before, []);
      assert keys == [BlockRecipient(RecipientHash(cfg, input))];
      keys := SetBlock(if input.relaxed then None else IpKey(cfg, input), until, before, keys);
      keys := SetBlock(ProviderKey(cfg, input), until, before, keys);
      keys := SetBlock(AdminKey(cfg, input), until, before, keys);
    }

    method CheckCommunicationAbuseLimits(input: Input, now: int) returns (decision: Decision)
      modifies this, store
      ensures (View(), decision) == Check(cfg, old(View()), input, now)
    {
      if input.bodyLength.Some? && input.bodyLength.value > MAX_BODY {
        return TooLong;
      }
      if !cfg.enabled || !cfg.connected || input.relaxed {
        return Allowed;
      }
      var live := FirstLive(View(), BlockKeys(cfg, input), now);
      if live.Some? {
        return Blocked(live.value);
      }
      var windows := Windows(cfg, input);
      WindowsDistinct(cfg, input);
      var denied := store.BumpAll(windows, now);
      if denied.Some? {
        RecordCommunicationBlock(input, Some(windows[denied.value].ttl), now);
        return RateLimited(windows[denied.value]);
      }
      return Allowed;
    }
  }

  // --- What a decision did to the counters ----------------------------------------------------

  /** Allowed: every applicable window was bumped exactly once and is within its limit, and nothing else moved. */
  lemma AllowedAccounts(cfg: Config, s: Store, input: Input, now: int)
    requires Guarded(cfg, input) && Check(cfg, s, input, now).1 == Allowed
    ensures var after := Check(cfg, s, input, now).0;
            && after.blocks == s.blocks
            && BumpedOnce(s.counters, after.counters, Windows(cfg, input), now)
            && (forall i :: 0 <= i < |Windows(cfg, input)| && Windows(cfg, input)[i].limit > 0 ==>
                  Windows(cfg, input)[i].key in after.counters
                  && after.counters[Windows(cfg, input)[i].key].count <= Windows(cfg, input)[i].limit)
  {
    var windows := Windows(cfg, input);
    var after := Check(cfg, s, input, now).0;
    WindowsDistinct(cfg, input);
    BumpsOnce(s.counters, windows, now);
    forall i | 0 <= i < |windows| && windows[i].limit > 0
      ensures windows[i].key in after.counters && after.counters[windows[i].key].count <= windows[i].limit
    {
      assert Get(after.counters, windows[i].key).Some?;
      assert !Over(s.counters, windows[i], now);
    }
  }

  /**
   * Refused at window n: the applicable windows up to n were bumped once, the n-th is over, the later ones are
   * untouched.
   */
  lemma RefusedAccounts(cfg: Config, s: Store, input: Input, now: int)
    requires Check(cfg, s, input, now).1.RateLimited?
    ensures var after, windows := Check(cfg, s, input, now).0, Windows(cfg, input);
            var n := FirstOver(s.counters, windows, now);
            && n < |windows| && Check(cfg, s, input, now).1.window == windows[n] && windows[n].limit > 0
            && BumpedOnce(s.counters, after.counters, windows[..n + 1], now)
            && windows[n].key in after.counters && after.counters[windows[n].key].count > windows[n].limit
            && (forall k :: n < k < |windows| ==>
                  Get(after.counters, windows[k].key) == Get(s.counters, windows[k].key))
  {
    WindowsDistinct(cfg, input);
    LoopRefused(s.counters, Windows(cfg, input), now);
  }

  // --- Runs of checks ----------------------------------------------------------------------------

  datatype Call = Call(input: Input, now: int)

  ghost predicate CallsInOrder(calls: seq<Call>) {
    forall i, k :: 0 <= i <= k < |calls| ==> calls[i].now <= calls[k].now
  }

  function RunChecks(cfg: Config, s: Store, calls: seq<Call>): Store
    decreases |calls|
  {
    if calls == [] then s else RunChecks(cfg, Check(cfg, s, calls[0].input, calls[0].now).0, calls[1..])
  }

  lemma FirstLiveFinds(s: Store, keys: seq<BlockKey>, now: int)
    requires keys != [] && Live(s, keys[0], now)
    ensures FirstLive(s, keys, now) == Some(keys[0])
  {}

  /** While the recipient's block is alive, a check can neither lift nor shorten it. */
  lemma BlockStays(cfg: Config, s: Store, call: Call, r: string, until: int)
    requires BlockRecipient(r) in s.blocks && s.blocks[BlockRecipient(r)] >= until && call.now < until
    ensures var after := Check(cfg, s, call.input, call.now).0;
            BlockRecipient(r) in after.blocks && after.blocks[BlockRecipient(r)] >= until
  {
    var keys := BlockKeys(cfg, call.input);
    assert keys[0] == BlockRecipient(RecipientHash(cfg, call.input));
    if RecipientHash(cfg, call.input) == r {
      FirstLiveFinds(s, keys, call.now);
    } else {
      assert BlockRecipient(r) !in keys;
    }
  }

  lemma {:induction false} BlockLasts(cfg: Config, s: Store, calls: seq<Call>, r: string, until: int)
    requires BlockRecipient(r) in s.blocks && s.blocks[BlockRecipient(r)] >= until
    requires forall i :: 0 <= i < |calls| ==> calls[i].now < until
    ensures var after := RunChecks(cfg, s, calls);
            BlockRecipient(r) in after.blocks && after.blocks[BlockRecipient(r)] >= until
    decreases |calls|
  {
    if calls == [] {
    } else {
      BlockStays(cfg, s, calls[0], r, until);
      BlockLasts(cfg, Check(cfg, s, calls[0].input, calls[0].now).0, calls[1..], r, until);
    }
  }

  /** After a refusal by a window of length T, no check for that recipient passes during the next T milliseconds. */
  lemma {:induction false} RefusalHoldsForItsWindow(cfg: Config, s: Store, refused: Call, window: Win<Key>,
                                                    between: seq<Call>, call: Call)
    requires Check(cfg, s, refused.input, refused.now).1 == RateLimited(window)
    requires forall i :: 0 <= i < |between| ==> between[i].now <= call.now
    requires refused.now <= call.now < refused.now + window.ttl
    requires Guarded(cfg, call.input) && RecipientHash(cfg, call.input) == RecipientHash(cfg, refused.input)
    ensures Barred(cfg, RunChecks(cfg, Check(cfg, s, refused.input, refused.now).0, between), call)
  {
    var r := RecipientHash(cfg, refused.input);
    var next := Check(cfg, s, refused.input, refused.now).0;
    RefusalBlocks(cfg, s, refused, window);
    BlockLasts(cfg, next, between, r, refused.now + window.ttl);
    LiveBlockBars(cfg, RunChecks(cfg, next, between), call);
  }

  /** The check is refused and changes nothing. */
  predicate Barred(cfg: Config, s: Store, call: Call) {
    var (after, decision) := Check(cfg, s, call.input, call.now);
    after == s && (decision.TooLong? || decision == Blocked(BlockRecipient(RecipientHash(cfg, call.input))))
  }

  lemma LiveBlockBars(cfg: Config, s: Store, call: Call)
    requires Guarded(cfg, call.input) && Live(s, BlockRecipient(RecipientHash(cfg, call.input)), call.now)
    ensures Barred(cfg, s, call)
  {
    FirstLiveFinds(s, BlockKeys(cfg, call.input), call.now);
  }

  lemma RefusalBlocks(cfg: Config, s: Store, refused: Call, window: Win<Key>)
    requires Check(cfg, s, refused.input, refused.now).1 == RateLimited(window)
    ensures var key := BlockRecipient(RecipientHash(cfg, refused.input));
            var blocks := Check(cfg, s, refused.input, refused.now).0.blocks;
            key in blocks && blocks[key] == refused.now + window.ttl
  {
    assert BlockKeys(cfg, refused.input)[0] == BlockRecipient(RecipientHash(cfg, refused.input));
  }

  // --- How many checks are allowed in an interval --------------------------------------------------

  predicate Uses(cfg: Config, input: Input, key: Key) {
    Guarded(cfg, input) && key in Keys(cfg, input)
  }

  /** What a run of checks does to the counter of `key`, and which allowed ones count against it. */
  function Watch(cfg: Config, s: Store, calls: seq<Call>, key: Key): seq<Observation>
    decreases |calls|
  {
    if calls == [] then []
    else
      var c, (next, decision) := calls[0], Check(cfg, s, calls[0].input, calls[0].now);
      [Observation(c.now, Get(s.counters, key), Get(next.counters, key), decision == Allowed
                   && Uses(cfg, c.input, key))]
      + Watch(cfg, next, calls[1..], key)
  }

  /** A check changes a counter only as a hit of its window; and an allowed check that uses it was admitted by it. */
  lemma CheckFits(cfg: Config, s: Store, call: Call, key: Key)
    requires LimitOf(cfg, key) > 0
    ensures var (next, decision) := Check(cfg, s, call.input, call.now);
            Fits(TtlOf(key), LimitOf(cfg, key),
                 Observation(call.now, Get(s.counters, key), Get(next.counters, key),
                             decision == Allowed && Uses(cfg, call.input, key)))
  {
    LoopFits(cfg, s.counters, call.input, call.now, key);
  }

  /** The loop on its own. */
  lemma LoopFits(cfg: Config, counters: map<Key, Counter>, input: Input, now: int, key: Key)
    requires LimitOf(cfg, key) > 0
    ensures var windows := Windows(cfg, input);
            var after := BumpEach(counters, Reached(counters, windows, now), now);
            Fits(TtlOf(key), LimitOf(cfg, key),
                 Observation(now, Get(counters, key), Get(after, key),
                             FirstOver(counters, windows, now) == |windows| && key in Keys(cfg, input)))
  {
    var windows := Windows(cfg, input);
    WindowsDistinct(cfg, input);
    LoopOnKey(counters, windows, now, key);
    if FirstOver(counters, windows, now) == |windows| && key in Keys(cfg, input) {
      var i :| 0 <= i < |Keys(cfg, input)| && Keys(cfg, input)[i] == key;
      LoopPassed(counters, windows, now, i);
    }
  }

  lemma {:induction false} RunWatched(cfg: Config, s: Store, calls: seq<Call>, key: Key)
    requires LimitOf(cfg, key) > 0
    ensures var seen := Watch(cfg, s, calls, key);
            && Watched(TtlOf(key), LimitOf(cfg, key), Get(s.counters, key), seen)
            && |seen| == |calls| && forall i :: 0 <= i < |seen| ==> seen[i].now == calls[i].now
    decreases |calls|
  {
    if calls == [] {
    } else {
      var next := Check(cfg, s, calls[0].input, calls[0].now).0;
      CheckFits(cfg, s, calls[0], key);
      RunWatched(cfg, next, calls[1..], key);
      WatchedCons(TtlOf(key), LimitOf(cfg, key), Watch(cfg, s, calls, key)[0], Watch(cfg, next, calls[1..], key));
    }
  }

  /**
   * Over any run of checks, at most 2 * limit - 1 that count against a key are allowed in an interval of its
   * window's length.
   */
  lemma AllowedBound(cfg: Config, calls: seq<Call>, key: Key, a: int, b: int)
    requires CallsInOrder(calls) && LimitOf(cfg, key) > 0 && b - a <= TtlOf(key)
    ensures PassedIn(Watch(cfg, EMPTY, calls, key), a, b) <= 2 * LimitOf(cfg, key) - 1
  {
    RunWatched(cfg, EMPTY, calls, key);
    PassedBound(TtlOf(key), LimitOf(cfg, key), Watch(cfg, EMPTY, calls, key), a, b);
  }
}
