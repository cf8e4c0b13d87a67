/**
 * What the abuse limits mean for one check, counter by counter and block by block
 * (src/lib/antiAbuse.ts): which counters count it, when it passes, and what it leaves behind.  The
 * counters are told by what their key names, and the limits stand in one table.
 */
module AbuseWindows {
  import opened Common
  import opened FixedWindow
  import opened WindowLoop
  import opened AbuseLimits

  predicate IsAlert(input: Input) { input.template.LoginAlert? || input.template.SecurityAlert? }

  /** The recipient in normal form, hashed. */
  function Whom(cfg: Config, input: Input): string {
    cfg.hash(if input.channel == Email then cfg.fold(input.recipient) else NormalizePhone(input.recipient))
  }

  /** The counter counts this check: its key names the channel and whoever the check is about. */
  predicate Counts(cfg: Config, input: Input, key: Key) {
    match key
    case Alert(ch, r) => ch == input.channel && IsAlert(input) && r == Whom(cfg, input)
    case Recipient15m(ch, purpose, r) => Recipient(cfg, input, ch, purpose, r)
    case Recipient1h(ch, purpose, r) => Recipient(cfg, input, ch, purpose, r)
    case Recipient1d(ch, purpose, r) => Recipient(cfg, input, ch, purpose, r)
    case Ip1h(ch, ip) => ch == input.channel && input.ip != None && ip == cfg.hash(input.ip.value)
    case Pair15m(ch, purpose, ip, r) =>
      && ch == input.channel && purpose == input.purpose && r == Whom(cfg, input)
      && input.ip != None && ip == cfg.hash(input.ip.value)
    case User1h(ch, user) => ch == input.channel && input.user != None && user == cfg.hash(input.user.value)
    case User1d(ch, user) => ch == input.channel && input.user != None && user == cfg.hash(input.user.value)
    case System1h(ch) => ch == input.channel
    case System1d(ch) => ch == input.channel
    case AdminTest1h(ch, admin) => ch == input.channel && input.context == ProviderTest && Admin(cfg, input, admin)
    case ProviderTest1h(ch, p) => ch == input.channel && input.context == ProviderTest && input.provider == Some(p)
    case RecipientTest1h(ch, r) => ch == input.channel && input.context == ProviderTest && r == Whom(cfg, input)
    case RetryAdmin1h(ch, admin) => ch == input.channel && input.context == Retry && Admin(cfg, input, admin)
    case RetryProvider1h(ch, p) => ch == input.channel && input.context == Retry && input.provider == Some(p)
  }

  predicate Recipient(cfg: Config, input: Input, ch: Channel, purpose: string, r: string) {
    ch == input.channel && !IsAlert(input) && purpose == input.purpose && r == Whom(cfg, input)
  }

  predicate Admin(cfg: Config, input: Input, admin: string) {
    input.admin != None && admin == cfg.hash(input.admin.value)
  }

  /** How many checks a window takes, and for how many minutes. */
  function Allowance(cfg: Config, key: Key): (int, int) {
    match key
    case Alert(_, _) => (3, 15)
    case Recipient15m(_, _, _) => (3, 15)
    case Recipient1h(ch, _, _) => (if ch == Sms then cfg.smsPerHour else cfg.emailPerHour, 60)
    case Recipient1d(ch, _, _) => (if ch == Sms then cfg.smsPerDay else cfg.emailPerDay, 1440)
    case Ip1h(_, _) => (20, 60)
    case Pair15m(_, _, _, _) => (3, 15)
    case User1h(_, _) => (10, 60)
    case User1d(_, _) => (20, 1440)
    case System1h(ch) => (if ch == Sms then cfg.systemSmsHourly else cfg.systemEmailHourly, 60)
    case System1d(ch) => (if ch == Sms then cfg.systemSmsDaily else cfg.systemEmailDaily, 1440)
    case AdminTest1h(_, _) => (cfg.testsPerAdminHour, 60)
    case ProviderTest1h(_, _) => (20, 60)
    case RecipientTest1h(_, _) => (5, 60)
    case RetryAdmin1h(_, _) => (20, 60)
    case RetryProvider1h(_, _) => (20, 60)
  }

  function Most(cfg: Config, key: Key): int { Allowance(cfg, key).0 }

  function Lasts(cfg: Config, key: Key): int { 60_000 * Allowance(cfg, key).1 }

  /** The limits apply: the switch is on, Redis is there, and the caller is not under the relaxed rules. */
  predicate Watched(cfg: Config, input: Input) { cfg.enabled && cfg.connected && !input.relaxed }

  /** A test message may have 2000 characters. */
  predicate Oversized(input: Input) { input.bodyLength != None && input.bodyLength.value > 2000 }

  // --- The list is the table ------------------------------------------------------------------

  lemma RecipientKeysAre(cfg: Config, input: Input, key: Key)
    ensures key in RecipientKeys(input, Whom(cfg, input))
            <==> Counts(cfg, input, key) && (key.Alert? || key.Recipient15m? || key.Recipient1h? || key.Recipient1d?)
  {}

  lemma CallerKeysAre(cfg: Config, input: Input, key: Key)
    ensures key in IpKeys(cfg, input, Whom(cfg, input)) <==> Counts(cfg, input, key) && (key.Ip1h? || key.Pair15m?)
    ensures key in UserKeys(cfg, input) <==> Counts(cfg, input, key) && (key.User1h? || key.User1d?)
    ensures key in SystemKeys(input) <==> Counts(cfg, input, key) && (key.System1h? || key.System1d?)
  {}

  lemma TestKeysAre(cfg: Config, input: Input, key: Key)
    ensures key in TestKeys(cfg, input, Whom(cfg, input))
            <==> Counts(cfg, input, key) && (key.AdminTest1h? || key.ProviderTest1h? || key.RecipientTest1h?)
  {}

  lemma RetryKeysAre(cfg: Config, input: Input, key: Key)
    ensures key in RetryKeys(cfg, input)
            <==> Counts(cfg, input, key) && (key.RetryAdmin1h? || key.RetryProvider1h?)
  {}

  lemma KeysAre(cfg: Config, input: Input, key: Key)
    ensures key in Keys(cfg, input) <==> Counts(cfg, input, key)
  {
    assert RecipientHash(cfg, input) == Whom(cfg, input);
    RecipientKeysAre(cfg, input, key);
    CallerKeysAre(cfg, input, key);
    TestKeysAre(cfg, input, key);
    RetryKeysAre(cfg, input, key);
    var r := Whom(cfg, input);
    InSix(RecipientKeys(input, r), IpKeys(cfg, input, r), UserKeys(cfg, input), SystemKeys(input),
          TestKeys(cfg, input, r), RetryKeys(cfg, input), key);
    OneOfTheKinds(key);
  }

  lemma InSix(a: seq<Key>, b: seq<Key>, c: seq<Key>, d: seq<Key>, e: seq<Key>, f: seq<Key>, key: Key)
    ensures key in a + b + c + d + e + f
            <==> key in a || key in b || key in c || key in d || key in e || key in f
  {}

  lemma OneOfTheKinds(key: Key)
    ensures key.Alert? || key.Recipient15m? || key.Recipient1h? || key.Recipient1d? || key.Ip1h? || key.Pair15m?
            || key.User1h? || key.User1d? || key.System1h? || key.System1d? || key.AdminTest1h? || key.ProviderTest1h?
            || key.RecipientTest1h? || key.RetryAdmin1h? || key.RetryProvider1h?
  {}

  lemma TableAgrees(cfg: Config, key: Key)
    ensures TtlOf(key) == Lasts(cfg, key) && LimitOf(cfg, key) == Most(cfg, key)
  {}

  /** The list of windows holds each counter that counts the check, with its length and limit from the table. */
  lemma WindowsAre(cfg: Config, input: Input, key: Key)
    ensures Counts(cfg, input, key) ==> Win(key, Lasts(cfg, key), Most(cfg, key)) in Windows(cfg, input)
    ensures forall i :: 0 <= i < |Windows(cfg, input)| && Windows(cfg, input)[i].key == key ==>
              Counts(cfg, input, key) && Windows(cfg, input)[i] == Win(key, Lasts(cfg, key), Most(cfg, key))
  {
    KeysAre(cfg, input, key);
    TableAgrees(cfg, key);
    var keys, windows := Keys(cfg, input), Windows(cfg, input);
    if Counts(cfg, input, key) {
      var i :| 0 <= i < |keys| && keys[i] == key;
      assert windows[i] == Win(key, Lasts(cfg, key), Most(cfg, key));
    }
  }

  // --- When a check passes and what it leaves ----------------------------------------------------

  /** The counter after one more: it starts anew when there is none or the last one is over. */
  function OneMore(c: Option<Counter>, length: int, now: int): Counter {
    if c.None? || now >= c.value.expiresAt then Counter(1, now + length) else c.value.(count := c.value.count + 1)
  }

  lemma OneMoreIsBump(c: Option<Counter>, length: int, now: int)
    ensures Bumped(c, length, now) == OneMore(c, length, now)
  {}

  /** With the check, the counter stays within its limit; a limit that is not positive is no limit. */
  predicate Fine(cfg: Config, s: Store, key: Key, now: int) {
    Most(cfg, key) > 0 ==> OneMore(Get(s.counters, key), Lasts(cfg, key), now).count <= Most(cfg, key)
  }

  /** Some block stands against the check. */
  ghost predicate BlockedNow(cfg: Config, s: Store, input: Input, now: int) {
    exists b :: Bars(cfg, input, b) && b in s.blocks && now < s.blocks[b]
  }

  /** The block is against this recipient: in general, from this address, by this provider, or by this administrator. */
  predicate Bars(cfg: Config, input: Input, b: BlockKey) {
    match b
    case BlockRecipient(r) => r == Whom(cfg, input)
    case BlockRecipientIp(r, ip) => r == Whom(cfg, input) && input.ip != None && ip == cfg.hash(input.ip.value)
    case BlockProvider(p, r) => r == Whom(cfg, input) && input.provider == Some(p)
    case BlockAdmin(a, r) => r == Whom(cfg, input) && input.admin == Some(a)
  }

  lemma BlockKeysAre(cfg: Config, input: Input, b: BlockKey)
    ensures b in BlockKeys(cfg, input) <==> Bars(cfg, input, b)
    ensures b in RecordedKeys(cfg, input) <==> Bars(cfg, input, b) && !(input.relaxed && b.BlockRecipientIp?)
  {
    assert RecipientHash(cfg, input) == Whom(cfg, input);
  }

  lemma {:induction false} FirstLiveIs(s: Store, keys: seq<BlockKey>, now: int)
    ensures var live := FirstLive(s, keys, now); live.Some? ==> live.value in keys && Live(s, live.value, now)
    ensures FirstLive(s, keys, now).None? ==> forall b :: b in keys ==> !Live(s, b, now)
  {
    if keys == [] {
    } else {
      FirstLiveIs(s, keys[1..], now);
    }
  }

  /** The four outcomes of a check, each exactly. */
  lemma DecidedExactly(cfg: Config, s: Store, input: Input, now: int)
    ensures var decision := Check(cfg, s, input, now).1;
            && (decision == TooLong <==> Oversized(input))
            && (decision.Blocked? <==> !Oversized(input) && Watched(cfg, input) && BlockedNow(cfg, s, input, now))
            && (decision.RateLimited?
                <==> !Oversized(input) && Watched(cfg, input) && !BlockedNow(cfg, s, input, now)
                     && exists key :: Counts(cfg, input, key) && !Fine(cfg, s, key, now))
            && (decision == Allowed
                <==> !Oversized(input)
                     && (Watched(cfg, input) ==>
                           && !BlockedNow(cfg, s, input, now)
                           && forall key :: Counts(cfg, input, key) ==> Fine(cfg, s, key, now)))
  {
    BlockedIs(cfg, s, input, now);
    OverIs(cfg, s, input, now);
  }

  lemma BlockedIs(cfg: Config, s: Store, input: Input, now: int)
    ensures FirstLive(s, BlockKeys(cfg, input), now).Some? <==> BlockedNow(cfg, s, input, now)
    ensures var live := FirstLive(s, BlockKeys(cfg, input), now);
            live.Some? ==> Bars(cfg, input, live.value) && live.value in s.blocks && now < s.blocks[live.value]
  {
    var keys := BlockKeys(cfg, input);
    FirstLiveIs(s, keys, now);
    forall b ensures b in keys <==> Bars(cfg, input, b) {
      BlockKeysAre(cfg, input, b);
    }
    if FirstLive(s, keys, now).Some? {
      assert Live(s, FirstLive(s, keys, now).value, now);
    }
    if b :| Bars(cfg, input, b) && b in s.blocks && now < s.blocks[b] {
      assert Live(s, b, now);
    }
  }

  lemma OverIs(cfg: Config, s: Store, input: Input, now: int)
    ensures FirstOver(s.counters, Windows(cfg, input), now) == |Windows(cfg, input)|
            <==> forall key :: Counts(cfg, input, key) ==> Fine(cfg, s, key, now)
  {
    var windows := Windows(cfg, input);
    var n := FirstOver(s.counters, windows, now);
    if n < |windows| {
      WindowsAre(cfg, input, windows[n].key);
      OneMoreIsBump(Get(s.counters, windows[n].key), windows[n].ttl, now);
      assert !Fine(cfg, s, windows[n].key, now);
    } else {
      forall key | Counts(cfg, input, key) ensures Fine(cfg, s, key, now) {
        WindowsAre(cfg, input, key);
        var i :| 0 <= i < |windows| && windows[i] == Win(key, Lasts(cfg, key), Most(cfg, key));
        OneMoreIsBump(Get(s.counters, key), Lasts(cfg, key), now);
      }
    }
  }

  /** The order in which blocks are looked at. */
  function Rank(b: BlockKey): int {
    match b
    case BlockRecipient(_) => 0
    case BlockRecipientIp(_, _) => 1
    case BlockProvider(_, _) => 2
    case BlockAdmin(_, _) => 3
  }

  lemma BlockKeysRanked(cfg: Config, input: Input)
    ensures var keys := BlockKeys(cfg, input); forall i, k :: 0 <= i < k < |keys| ==> Rank(keys[i]) < Rank(keys[k])
  {}

  lemma {:induction false} FirstLiveRanks(s: Store, keys: seq<BlockKey>, now: int)
    requires forall i, k :: 0 <= i < k < |keys| ==> Rank(keys[i]) < Rank(keys[k])
    requires FirstLive(s, keys, now).Some?
    ensures forall b :: b in keys && Live(s, b, now) ==> Rank(FirstLive(s, keys, now).value) <= Rank(b)
  {
    if !Live(s, keys[0], now) {
      FirstLiveRanks(s, keys[1..], now);
    }
  }

  /** A blocked check is told the first block that stands against it. */
  lemma BlockedByFirst(cfg: Config, s: Store, input: Input, now: int)
    requires Check(cfg, s, input, now).1.Blocked?
    ensures var b := Check(cfg, s, input, now).1.key;
            && Bars(cfg, input, b) && b in s.blocks && now < s.blocks[b]
            && forall c :: Bars(cfg, input, c) && c in s.blocks && now < s.blocks[c] ==> Rank(b) <= Rank(c)
  {
    BlockedIs(cfg, s, input, now);
    BlockKeysRanked(cfg, input);
    FirstLiveRanks(s, BlockKeys(cfg, input), now);
    forall c | Bars(cfg, input, c) && c in s.blocks && now < s.blocks[c]
      ensures Rank(Check(cfg, s, input, now).1.key) <= Rank(c)
    {
      BlockKeysAre(cfg, input, c);
      assert Live(s, c, now);
    }
  }

  /** A check that is not watched, too long or blocked touches nothing. */
  lemma LeftAlone(cfg: Config, s: Store, input: Input, now: int)
    requires Oversized(input) || !Watched(cfg, input) || BlockedNow(cfg, s, input, now)
    ensures Check(cfg, s, input, now).0 == s
  {
    BlockedIs(cfg, s, input, now);
  }

  /** A check that passes is counted once on each limited counter that counts it, and nowhere else. */
  lemma PassedCounts(cfg: Config, s: Store, input: Input, now: int)
    requires Watched(cfg, input) && Check(cfg, s, input, now).1 == Allowed
    ensures var after := Check(cfg, s, input, now).0;
            && after.blocks == s.blocks
            && forall key :: Get(after.counters, key)
                  == if Counts(cfg, input, key) && Most(cfg, key) > 0
                     then Some(OneMore(Get(s.counters, key), Lasts(cfg, key), now))
                     else Get(s.counters, key)
  {
    var windows := Windows(cfg, input);
    AllowedAccounts(cfg, s, input, now);
    BumpedIs(cfg, s, input, windows, Check(cfg, s, input, now).0.counters, now);
    forall key | Counts(cfg, input, key) ensures Among(windows, key) {
      WindowsAre(cfg, input, key);
      var i :| 0 <= i < |windows| && windows[i] == Win(key, Lasts(cfg, key), Most(cfg, key));
      assert windows[i].key == key;
    }
  }

  ghost predicate Among(part: seq<Win<Key>>, key: Key) { exists i :: 0 <= i < |part| && part[i].key == key }

  /** What bumping some of the windows of a check does to every counter. */
  lemma BumpedIs(cfg: Config, s: Store, input: Input, part: seq<Win<Key>>, after: map<Key, Counter>, now: int)
    requires part <= Windows(cfg, input) && BumpedOnce(s.counters, after, part, now)
    ensures forall key :: Get(after, key)
              == if Counts(cfg, input, key) && Most(cfg, key) > 0 && Among(part, key)
                 then Some(OneMore(Get(s.counters, key), Lasts(cfg, key), now))
                 else Get(s.counters, key)
  {
    forall key ensures Get(after, key)
        == if Counts(cfg, input, key) && Most(cfg, key) > 0 && Among(part, key)
           then Some(OneMore(Get(s.counters, key), Lasts(cfg, key), now)) else Get(s.counters, key)
    {
      WindowsAre(cfg, input, key);
      if i :| 0 <= i < |part| && part[i].key == key {
        assert part[i] == Windows(cfg, input)[i] == Win(key, Lasts(cfg, key), Most(cfg, key));
        OneMoreIsBump(Get(s.counters, key), Lasts(cfg, key), now);
        assert forall k :: 0 <= k < |part| && part[k].key == key ==> part[k] == Windows(cfg, input)[k];
      }
    }
  }

  /** The counter is the first, in the order of kinds, that the check would take over its limit. */
  ghost predicate FirstOverLimit(cfg: Config, s: Store, input: Input, first: Key, now: int) {
    && Counts(cfg, input, first) && !Fine(cfg, s, first, now)
    && forall key :: Counts(cfg, input, key) && !Fine(cfg, s, key, now) ==> Kind(first) <= Kind(key)
  }

  /** The counters of the check up to that one have counted it once, and no other has. */
  ghost predicate CountedUpTo(cfg: Config, s: Store, input: Input, first: Key, after: map<Key, Counter>, now: int) {
    forall key :: Get(after, key)
      == if Counts(cfg, input, key) && Most(cfg, key) > 0 && Kind(key) <= Kind(first)
         then Some(OneMore(Get(s.counters, key), Lasts(cfg, key), now))
         else Get(s.counters, key)
  }

  /** A refused check names the first counter over its limit, and blocks the recipient for the length of its window. */
  lemma RefusedLeaves(cfg: Config, s: Store, input: Input, now: int)
    requires Check(cfg, s, input, now).1.RateLimited?
    ensures var (after, decision) := Check(cfg, s, input, now);
            var first := decision.window.key;
            && decision.window == Win(first, Lasts(cfg, first), Most(cfg, first))
            && FirstOverLimit(cfg, s, input, first, now)
            && CountedUpTo(cfg, s, input, first, after.counters, now)
            && BlocksSet(cfg, s.blocks, after.blocks, input, now + Lasts(cfg, first))
  {
    var n := FirstOver(s.counters, Windows(cfg, input), now);
    RefusedAccounts(cfg, s, input, now);
    RefusedStep(cfg, s, input, now);
    RefusedFirst(cfg, s, input, now, n);
    RefusedCounters(cfg, s, input, now, n, Check(cfg, s, input, now).0.counters);
    RecordedExactly(cfg, s.blocks, input, Some(Windows(cfg, input)[n].ttl), now);
  }

  lemma RefusedStep(cfg: Config, s: Store, input: Input, now: int)
    requires Check(cfg, s, input, now).1.RateLimited?
    ensures var (after, decision) := Check(cfg, s, input, now);
            && cfg.connected
            && after.blocks == RecordBlock(cfg, s.blocks, input, Some(decision.window.ttl), now)
  {}

  lemma RefusedFirst(cfg: Config, s: Store, input: Input, now: int, n: nat)
    requires n == FirstOver(s.counters, Windows(cfg, input), now) < |Windows(cfg, input)|
    ensures var window := Windows(cfg, input)[n];
            && window == Win(window.key, Lasts(cfg, window.key), Most(cfg, window.key))
            && FirstOverLimit(cfg, s, input, window.key, now)
  {
    var window := Windows(cfg, input)[n];
    WindowsAre(cfg, input, window.key);
    OneMoreIsBump(Get(s.counters, window.key), window.ttl, now);
    FirstOfItsKind(cfg, s, input, now);
  }

  lemma RefusedCounters(cfg: Config, s: Store, input: Input, now: int, n: nat, after: map<Key, Counter>)
    requires n < |Windows(cfg, input)| && BumpedOnce(s.counters, after, Windows(cfg, input)[..n + 1], now)
    ensures CountedUpTo(cfg, s, input, Windows(cfg, input)[n].key, after, now)
  {
    var windows := Windows(cfg, input);
    BumpedIs(cfg, s, input, windows[..n + 1], after, now);
    forall key | Counts(cfg, input, key)
      ensures Among(windows[..n + 1], key) <==> Kind(key) <= Kind(windows[n].key)
    {
      PlaceByKind(cfg, input, key, n);
    }
  }

  /** Every block against the input stands until the given time, and the others are as they were. */
  ghost predicate BlocksSet(cfg: Config, before: map<BlockKey, int>, after: map<BlockKey, int>, input: Input,
                            until: int) {
    forall b :: if Bars(cfg, input, b) && !(input.relaxed && b.BlockRecipientIp?)
                then b in after && after[b] == until
                else (b in after <==> b in before) && (b in before ==> after[b] == before[b])
  }

  /**
   * Recording sets all blocks against the input, but none by address under the relaxed rules, for an hour if not told
   * otherwise.
   */
  lemma RecordedExactly(cfg: Config, blocks: map<BlockKey, int>, input: Input, ttl: Option<int>, now: int)
    ensures cfg.connected ==>
              BlocksSet(cfg, blocks, RecordBlock(cfg, blocks, input, ttl, now), input,
                        now + if ttl.Some? then ttl.value else 3_600_000)
    ensures !cfg.connected ==> RecordBlock(cfg, blocks, input, ttl, now) == blocks
  {
    forall b ensures b in RecordedKeys(cfg, input) <==> Bars(cfg, input, b) && !(input.relaxed && b.BlockRecipientIp?) {
      BlockKeysAre(cfg, input, b);
    }
  }

  lemma WindowKinds(cfg: Config, input: Input)
    ensures var windows := Windows(cfg, input);
            forall i, k :: 0 <= i < k < |windows| ==> Kind(windows[i].key) < Kind(windows[k].key)
  {
    KeysSpan(cfg, input);
  }

  lemma PlaceByKind(cfg: Config, input: Input, key: Key, n: nat)
    requires Counts(cfg, input, key) && n < |Windows(cfg, input)|
    ensures var windows := Windows(cfg, input);
            Among(windows[..n + 1], key) <==> Kind(key) <= Kind(windows[n].key)
  {
    var windows := Windows(cfg, input);
    WindowKinds(cfg, input);
    WindowsAre(cfg, input, key);
    var i :| 0 <= i < |windows| && windows[i] == Win(key, Lasts(cfg, key), Most(cfg, key));
    if i <= n {
      assert windows[..n + 1][i].key == key;
    }
  }

  lemma FirstOfItsKind(cfg: Config, s: Store, input: Input, now: int)
    requires FirstOver(s.counters, Windows(cfg, input), now) < |Windows(cfg, input)|
    ensures var windows := Windows(cfg, input);
            var first := windows[FirstOver(s.counters, windows, now)].key;
            forall key :: Counts(cfg, input, key) && !Fine(cfg, s, key, now) ==> Kind(first) <= Kind(key)
  {
    var windows := Windows(cfg, input);
    var n := FirstOver(s.counters, windows, now);
    WindowKinds(cfg, input);
    forall key | Counts(cfg, input, key) && !Fine(cfg, s, key, now) ensures Kind(windows[n].key) <= Kind(key) {
      WindowsAre(cfg, input, key);
      var i :| 0 <= i < |windows| && windows[i] == Win(key, Lasts(cfg, key), Most(cfg, key));
      OneMoreIsBump(Get(s.counters, key), Lasts(cfg, key), now);
      assert Over(s.counters, windows[i], now) && i >= n;
    }
  }

  // --- How many checks pass ------------------------------------------------------------------------

  /** Watched checks in [a, b) that the counter counts and that pass. */
  function Passing(cfg: Config, s: Store, calls: seq<Call>, key: Key, a: int, b: int): nat
    decreases |calls|
  {
    if calls == [] then 0
    else
      var c, (next, decision) := calls[0], Check(cfg, s, calls[0].input, calls[0].now);
      (if a <= c.now < b && Watched(cfg, c.input) && Counts(cfg, c.input, key) && decision == Allowed then 1 else 0)
      + Passing(cfg, next, calls[1..], key, a, b)
  }

  lemma {:induction false} PassingIsWatched(cfg: Config, s: Store, calls: seq<Call>, key: Key, a: int, b: int)
    ensures Passing(cfg, s, calls, key, a, b) == PassedIn(Watch(cfg, s, calls, key), a, b)
    decreases |calls|
  {
    if calls == [] {
    } else {
      var next := Check(cfg, s, calls[0].input, calls[0].now).0;
      KeysAre(cfg, calls[0].input, key);
      PassingIsWatched(cfg, next, calls[1..], key, a, b);
      assert Watch(cfg, s, calls, key)[1..] == Watch(cfg, next, calls[1..], key);
    }
  }

  /** Over any run of checks: twice the limit less one pass in any interval of the counter's length. */
  lemma PassingBound(cfg: Config, calls: seq<Call>, key: Key, a: int)
    requires CallsInOrder(calls) && Most(cfg, key) > 0
    ensures Passing(cfg, EMPTY, calls, key, a, a + Lasts(cfg, key)) <= 2 * Most(cfg, key) - 1
  {
    TableAgrees(cfg, key);
    PassingIsWatched(cfg, EMPTY, calls, key, a, a + Lasts(cfg, key));
    BoundFor(cfg, calls, key, a, Lasts(cfg, key), Most(cfg, key));
  }

  lemma BoundFor(cfg: Config, calls: seq<Call>, key: Key, a: int, length: int, limit: int)
    requires CallsInOrder(calls) && limit > 0 && length == TtlOf(key) && limit == LimitOf(cfg, key)
    ensures PassedIn(Watch(cfg, EMPTY, calls, key), a, a + length) <= 2 * limit - 1
  {
    AllowedBound(cfg, calls, key, a, a + length);
  }

  /** Watched checks in [a, b) for one recipient, channel and purpose, other than alerts, that pass. */
  function Sendable(cfg: Config, s: Store, calls: seq<Call>, ch: Channel, purpose: string, r: string, a: int,
                    b: int): nat
    decreases |calls|
  {
    if calls == [] then 0
    else
      var c, (next, decision) := calls[0], Check(cfg, s, calls[0].input, calls[0].now);
      (if a <= c.now < b && cfg.enabled && cfg.connected && !c.input.relaxed && decision == Allowed
          && c.input.template == OtherTemplate && c.input.channel == ch && c.input.purpose == purpose
          && Whom(cfg, c.input) == r
       then 1 else 0)
      + Sendable(cfg, next, calls[1..], ch, purpose, r, a, b)
  }

  lemma SendableCounts(cfg: Config, input: Input, ch: Channel, purpose: string, r: string)
    ensures Counts(cfg, input, Recipient15m(ch, purpose, r))
            <==> input.template == OtherTemplate && input.channel == ch && input.purpose == purpose
                 && Whom(cfg, input) == r
  {}

  lemma {:induction false} SendableIsPassing(cfg: Config, s: Store, calls: seq<Call>, ch: Channel, purpose: string,
                                             r: string, a: int, b: int)
    ensures Sendable(cfg, s, calls, ch, purpose, r, a, b)
         == Passing(cfg, s, calls, Recipient15m(ch, purpose, r), a, b)
    decreases |calls|
  {
    if calls == [] {
    } else {
      SendableCounts(cfg, calls[0].input, ch, purpose, r);
      SendableIsPassing(cfg, Check(cfg, s, calls[0].input, calls[0].now).0, calls[1..], ch, purpose, r, a, b);
    }
  }

  /** One recipient gets at most five codes of a purpose on a channel in a quarter of an hour, alerts aside. */
  lemma RecipientQuarterHour(cfg: Config, calls: seq<Call>, ch: Channel, purpose: string, r: string, a: int)
    requires CallsInOrder(calls)
    ensures Sendable(cfg, EMPTY, calls, ch, purpose, r, a, a + 900_000) <= 5
  {
    SendableIsPassing(cfg, EMPTY, calls, ch, purpose, r, a, a + 900_000);
    PassingBound(cfg, calls, Recipient15m(ch, purpose, r), a);
  }
}
