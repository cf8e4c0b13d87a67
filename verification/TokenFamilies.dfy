/**
 * Every sequential run of login, refresh, logout, revocation, password reset and
 * pruning, and what it does to token families (refresh token rotation, section
 * 4.14.2 of RFC 9700).
 *
 * A family is named by the login session that started it.  `History` remembers, for
 * each family, the tokens issued in order and the clients they were bound to, also
 * after pruning has removed their rows; it is there for the statements alone.
 */
module TokenFamilies {
  import opened Common
  import opened RefreshTokens

  datatype History = History(issued: map<string, seq<string>>, bound: map<string, seq<string>>,
                             owner: map<string, string>, home: map<string, string>)

  datatype System = System(db: Tables, clock: int, past: History)

  const START: System := System(Tables(map[], map[]), 0, History(map[], map[], map[], map[]))

  datatype Action =
    | LogIn(user: string, client: string, session: string, token: string, ip: string, ttl: int)
    | RefreshWith(call: RefreshCall)
    | LogOut(user: string, presented: Option<string>, address: Option<string>)
    | RevokeIds(user: string, ids: set<string>, reason: string)
    | RevokeAll(user: string, exclude: Option<string>, reason: string)
    | AdminRevoke(user: string)
    | PasswordReset(user: string)
    | PruneOldTokens(cutoff: int)
    | PruneOldSessions(cutoff: int)

  datatype Step = Step(now: int, action: Action)

  /** Session ids and token hashes are never reused, and the clock does not run backwards. */
  predicate Enabled(y: System, st: Step) {
    && y.clock <= st.now
    && match st.action
       case LogIn(_, _, session, token, _, _) => session !in y.past.issued && token !in y.past.home
       case RefreshWith(call) => call.minted !in y.past.home
       case _ => true
  }

  function Record(past: History, family: string, token: string, client: string): History
    requires family in past.issued && family in past.bound
  {
    past.(issued := past.issued[family := past.issued[family] + [token]],
          bound := past.bound[family := past.bound[family] + [client]],
          home := past.home[token := family])
  }

  function Begin(past: History, family: string, user: string, token: string, client: string): History {
    History(past.issued[family := [token]], past.bound[family := [client]], past.owner[family := user],
            past.home[token := family])
  }

  function FamilyOf(y: System, token: string): Option<string> {
    if token in y.db.tokens then y.db.tokens[token].family else None
  }

  function ReplyTo(y: System, clients: Clients, call: RefreshCall, now: int): Reply {
    Refresh(y.db, clients, call, now).1
  }

  function Next(y: System, clients: Clients, st: Step): System {
    var t, now := y.db, st.now;
    match st.action
    case LogIn(user, client, session, token, ip, ttl) =>
      System(Login(t, user, client, session, token, ip, ttl, now), now, Begin(y.past, session, user, token, client))
    case RefreshWith(call) =>
      var (after, reply) := Refresh(t, clients, call, now);
      var family := FamilyOf(y, call.token);
      System(after, now,
             if reply.Issued? && family.Some? && family.value in y.past.issued && family.value in y.past.bound
             then Record(y.past, family.value, call.minted, reply.client)
             else y.past)
    case LogOut(user, presented, address) => System(Logout(t, user, presented, address, now), now, y.past)
    case RevokeIds(user, ids, reason) => System(RevokeSessionsByIds(t, user, ids, reason, now), now, y.past)
    case RevokeAll(user, exclude, reason) => System(RevokeAllSessions(t, user, exclude, reason, now), now, y.past)
    case AdminRevoke(user) => System(RevokeUserSessions(t, user, now), now, y.past)
    case PasswordReset(user) => System(ResetPassword(t, user, now), now, y.past)
    case PruneOldTokens(cutoff) => System(PruneTokens(t, cutoff, now), now, y.past)
    case PruneOldSessions(cutoff) => System(PruneSessions(t, cutoff, now), now, y.past)
  }

  predicate Legal(y: System, clients: Clients, steps: seq<Step>)
    decreases |steps|
  {
    steps == [] || (Enabled(y, steps[0]) && Legal(Next(y, clients, steps[0]), clients, steps[1..]))
  }

  function Run(y: System, clients: Clients, steps: seq<Step>): System
    decreases |steps|
  {
    if steps == [] then y else Run(Next(y, clients, steps[0]), clients, steps[1..])
  }

  lemma {:induction false} Split(y: System, clients: Clients, a: seq<Step>, b: seq<Step>)
    requires Legal(y, clients, a + b)
    ensures Legal(y, clients, a) && Legal(Run(y, clients, a), clients, b)
    ensures Run(y, clients, a + b) == Run(Run(y, clients, a), clients, b)
    decreases |a|
  {
    if a == [] {
      assert a + b == b;
    } else {
      assert (a + b)[0] == a[0] && (a + b)[1..] == a[1..] + b;
      Split(Next(y, clients, a[0]), clients, a[1..], b);
    }
  }

  // --- The shape of a family --------------------------------------------------------

  /** What the row of the i-th token of a family says, if it is still there. */
  ghost predicate RowOk(y: System, family: string, i: nat)
    requires family in y.past.issued && family in y.past.bound && family in y.past.owner
    requires i < |y.past.issued[family]| == |y.past.bound[family]|
  {
    var chain := y.past.issued[family];
    chain[i] in y.db.tokens ==>
      var t := y.db.tokens[chain[i]];
      && t.family == Some(family) && t.user == y.past.owner[family] && t.client == y.past.bound[family][i]
      && t.scopes == SCOPES && t.createdAt <= y.clock
      && (t.revokedAt.None? ==> t.reason.None?)
      && if i + 1 < |chain|
         then t.revokedAt.Some? && t.reason == Some(Rotated) && t.replacedBy == Some(chain[i + 1])
         else t.reason != Some(Rotated) && t.replacedBy.None?
  }

  /** Surviving rows are a final stretch of the chain, oldest first. */
  ghost predicate FinalStretch(y: System, chain: seq<string>) {
    forall i, k :: 0 <= i < k < |chain| && chain[i] in y.db.tokens ==>
      && chain[k] in y.db.tokens
      && y.db.tokens[chain[i]].createdAt <= y.db.tokens[chain[k]].createdAt
  }

  predicate Rebound(clients: Clients, earlier: string, later: string) {
    earlier == later
    || (earlier == clients.internal && !HasAudience(clients, earlier) && HasAudience(clients, later))
  }

  ghost predicate FamilyOk(y: System, clients: Clients, family: string) {
    && family in y.past.issued && family in y.past.bound && family in y.past.owner
    && var chain, bound := y.past.issued[family], y.past.bound[family];
    && |chain| == |bound| >= 1
    && (forall i :: 0 <= i < |chain| ==> chain[i] in y.past.home && y.past.home[chain[i]] == family)
    && (forall i, k :: 0 <= i < k < |chain| ==> chain[i] != chain[k])
    && FinalStretch(y, chain)
    && (forall i :: 0 <= i < |chain| ==> RowOk(y, family, i))
    && (forall i :: 0 <= i < |bound| - 1 ==> Rebound(clients, bound[i], bound[i + 1]))
  }

  /** No row of the family is unrevoked, and its session is revoked or gone. */
  ghost predicate Killed(y: System, family: string) {
    && (forall id :: id in y.db.tokens && y.db.tokens[id].family == Some(family) ==> y.db.tokens[id].revokedAt.Some?)
    && SessionGone(y.db, family)
  }

  ghost predicate TokenListed(y: System, id: string)
    requires id in y.db.tokens
  {
    var t := y.db.tokens[id];
    && t.family.Some? && t.family.value in y.past.issued && id in y.past.issued[t.family.value]
    && (t.reusedAt.Some? ==> Killed(y, t.family.value))
  }

  ghost predicate Inv(y: System, clients: Clients) {
    && (forall f :: f in y.past.issued ==> FamilyOk(y, clients, f))
    && (forall id :: id in y.db.tokens ==> TokenListed(y, id))
    && (forall f :: f in y.db.sessions ==>
          f in y.past.issued && f in y.past.owner && y.db.sessions[f].user == y.past.owner[f])
  }

  // --- Steps that only revoke --------------------------------------------------------

  /** A row after an update that revokes it, marks it reused, or leaves it alone. */
  predicate Weakened(t: Token, u: Token) {
    && u.user == t.user && u.client == t.client && u.family == t.family && u.scopes == t.scopes
    && u.createdAt == t.createdAt && u.expiresAt == t.expiresAt && u.replacedBy == t.replacedBy
    && (t.revokedAt.Some? ==> u.revokedAt == t.revokedAt && u.reason == t.reason)
    && (t.revokedAt.None? && t.reason.None? ==> u.reason != Some(Rotated) && (u.revokedAt.None? ==> u.reason.None?))
  }

  /** Tables in which rows were at most revoked or removed, sessions likewise. */
  ghost predicate OnlyLess(t: Tables, u: Tables) {
    && (forall id :: id in u.tokens ==> id in t.tokens && Weakened(t.tokens[id], u.tokens[id]))
    && (forall f :: f in u.sessions ==> f in t.sessions && u.sessions[f].user == t.sessions[f].user
                                        && (t.sessions[f].revokedAt.Some? ==> u.sessions[f].revokedAt.Some?))
  }

  /** No new mark of reuse, except where the family is killed with it. */
  ghost predicate MarksBacked(y: System, u: Tables) {
    forall id ::
      id in u.tokens && id in y.db.tokens && u.tokens[id].reusedAt.Some? && y.db.tokens[id].reusedAt.None? ==>
        u.tokens[id].family.Some? && Killed(y.(db := u), u.tokens[id].family.value)
  }

  lemma KilledStays(y: System, z: System, family: string)
    requires OnlyLess(y.db, z.db) && Killed(y, family)
    ensures Killed(z, family)
  {}

  lemma FamilyOkLess(y: System, clients: Clients, z: System, family: string)
    requires FamilyOk(y, clients, family) && OnlyLess(y.db, z.db) && z.past == y.past && y.clock <= z.clock
    requires FinalStretch(z, y.past.issued[family])
    ensures FamilyOk(z, clients, family)
  {
    var chain := y.past.issued[family];
    forall i | 0 <= i < |chain|
      ensures RowOk(z, family, i)
    {
      assert RowOk(y, family, i);
    }
  }

  lemma InvLess(y: System, clients: Clients, z: System)
    requires Inv(y, clients) && OnlyLess(y.db, z.db) && z.past == y.past && y.clock <= z.clock
    requires MarksBacked(y, z.db)
    requires forall f :: f in y.past.issued ==> FinalStretch(z, y.past.issued[f])
    ensures Inv(z, clients)
  {
    forall f | f in z.past.issued
      ensures FamilyOk(z, clients, f)
    {
      FamilyOkLess(y, clients, z, f);
    }
    forall id | id in z.db.tokens
      ensures TokenListed(z, id)
    {
      assert TokenListed(y, id);
      if y.db.tokens[id].reusedAt.Some? {
        KilledStays(y, z, y.db.tokens[id].family.value);
      } else if z.db.tokens[id].reusedAt.Some? {
        assert Killed(y.(db := z.db), z.db.tokens[id].family.value);
      }
    }
  }

  lemma SameRowsStretch(y: System, clients: Clients, z: System)
    requires Inv(y, clients) && OnlyLess(y.db, z.db) && z.db.tokens.Keys == y.db.tokens.Keys
    ensures forall f :: f in y.past.issued ==> FinalStretch(z, y.past.issued[f])
  {
    forall f | f in y.past.issued
      ensures FinalStretch(z, y.past.issued[f])
    {
      assert FamilyOk(y, clients, f);
    }
  }

  /** The same rows, none newly marked as reused. */
  ghost predicate SameMarks(t: Tables, u: Tables) {
    && u.tokens.Keys == t.tokens.Keys
    && forall id :: id in t.tokens ==> u.tokens[id].reusedAt == t.tokens[id].reusedAt
  }

  lemma RevokeTokensLess(t: Tables, w: TokenWhere, reason: Option<Reason>, now: int)
    requires reason != Some(Rotated)
    ensures OnlyLess(t, t.(tokens := RevokeTokens(t.tokens, w, reason, now)))
    ensures SameMarks(t, t.(tokens := RevokeTokens(t.tokens, w, reason, now)))
  {}

  lemma RevokeSessionsLess(t: Tables, w: SessionWhere, reason: Option<Reason>, now: int)
    ensures OnlyLess(t, t.(sessions := RevokeSessions(t.sessions, w, reason, now)))
  {}

  lemma LessTrans(t: Tables, u: Tables, v: Tables)
    requires OnlyLess(t, u) && OnlyLess(u, v)
    ensures OnlyLess(t, v)
  {
    forall id | id in v.tokens
      ensures id in t.tokens && Weakened(t.tokens[id], v.tokens[id])
    {
      assert Weakened(u.tokens[id], v.tokens[id]);
    }
  }

  /** Revoking tokens and then sessions. */
  lemma RevokeBoth(t: Tables, w: TokenWhere, x: SessionWhere, a: Option<Reason>, b: Option<Reason>,
                   now: int) returns (u: Tables)
    requires a != Some(Rotated)
    ensures u == Tables(RevokeTokens(t.tokens, w, a, now), RevokeSessions(t.sessions, x, b, now))
    ensures OnlyLess(t, u) && SameMarks(t, u)
  {
    RevokeTokensLess(t, w, a, now);
    var v := t.(tokens := RevokeTokens(t.tokens, w, a, now));
    RevokeSessionsLess(v, x, b, now);
    u := v.(sessions := RevokeSessions(t.sessions, x, b, now));
    LessTrans(t, v, u);
  }

  /** The steps that revoke, change nothing, or only prune sessions. */
  lemma QuietStep(y: System, clients: Clients, z: System)
    requires Inv(y, clients) && OnlyLess(y.db, z.db) && SameMarks(y.db, z.db) && z.past == y.past && y.clock <= z.clock
    ensures Inv(z, clients)
  {
    SameRowsStretch(y, clients, z);
    InvLess(y, clients, z);
  }

  predicate Revoking(a: Action) {
    a.LogOut? || a.RevokeIds? || a.RevokeAll? || a.AdminRevoke? || a.PasswordReset? || a.PruneOldSessions?
  }

  lemma RevokingLess(y: System, clients: Clients, st: Step)
    requires Revoking(st.action)
    ensures var z := Next(y, clients, st); OnlyLess(y.db, z.db) && SameMarks(y.db, z.db) && z.past == y.past
  {
    var t, now := y.db, st.now;
    match st.action
    case LogOut(user, presented, address) =>
      if presented.Some? && presented.value in t.tokens && t.tokens[presented.value].family.Some? {
        var family := t.tokens[presented.value].family.value;
        var u := RevokeBoth(t, TokensOfFamily(user, family), OneSession(user, family), Some(LoggedOut),
                            Some(LoggedOut), now);
      } else if presented.Some? {
        var u := RevokeBoth(t, TokenOfHash(user, presented.value), SessionsAt(user, address), Some(LoggedOut),
                            Some(LoggedOut), now);
      } else {
        RevokeSessionsLess(t, SessionsAt(user, address), Some(LoggedOut), now);
      }
    case RevokeIds(user, ids, reason) =>
      var u := RevokeBoth(t, TokensOfFamilies(user, ids), SomeSessions(user, ids), Some(Given(reason)),
                          Some(Given(reason)), now);
    case RevokeAll(user, exclude, reason) =>
      var ids := LiveSessions(t, user, exclude);
      var u := RevokeBoth(t, TokensOfFamilies(user, ids), SomeSessions(user, ids), Some(Given(reason)),
                          Some(Given(reason)), now);
    case AdminRevoke(user) => RevokeSessionsLess(t, SessionsOfUser(user), None, now);
    case PasswordReset(user) => RevokeTokensLess(t, TokensOfUser(user), None, now);
    case PruneOldSessions(cutoff) =>
  }

  // --- Refresh -------------------------------------------------------------------------

  /** A row of a family belongs to the family's owner and sits at its place in the chain. */
  lemma Seat(y: System, clients: Clients, id: string) returns (i: nat)
    requires Inv(y, clients) && id in y.db.tokens
    ensures TokenListed(y, id)
    ensures var f := y.db.tokens[id].family.value;
            FamilyOk(y, clients, f) && i < |y.past.issued[f]| && y.past.issued[f][i] == id && RowOk(y, f, i)
  {
    assert TokenListed(y, id);
    var f := y.db.tokens[id].family.value;
    assert FamilyOk(y, clients, f);
    i :| 0 <= i < |y.past.issued[f]| && y.past.issued[f][i] == id;
  }

  /** All rows of a family belong to its owner. */
  lemma OneOwner(y: System, clients: Clients, f: string)
    requires Inv(y, clients) && f in y.past.issued
    ensures f in y.past.owner
    ensures forall id :: id in y.db.tokens && y.db.tokens[id].family == Some(f) ==>
              y.db.tokens[id].user == y.past.owner[f]
    ensures f in y.db.sessions ==> y.db.sessions[f].user == y.past.owner[f]
  {
    assert FamilyOk(y, clients, f);
    forall id | id in y.db.tokens && y.db.tokens[id].family == Some(f)
      ensures y.db.tokens[id].user == y.past.owner[f]
    {
      var i := Seat(y, clients, id);
    }
  }

  predicate IsReplay(t: Tables, call: RefreshCall) {
    && call.subject.Some? && call.token in t.tokens
    && t.tokens[call.token].revokedAt.Some? && t.tokens[call.token].reason == Some(Rotated)
  }

  /** What a replay did to the tables, said without naming how. */
  ghost predicate Replayed(t: Tables, u: Tables, x: string, f: string) {
    && x in t.tokens && t.tokens[x].family == Some(f) && OnlyLess(t, u) && u.tokens.Keys == t.tokens.Keys
    && (forall id :: id in t.tokens && id != x ==> u.tokens[id].reusedAt == t.tokens[id].reusedAt)
    && (t.tokens[x].reusedAt.Some? ==> u == t)
    && (t.tokens[x].reusedAt.None? ==>
          && (forall id :: id in u.tokens && u.tokens[id].user == t.tokens[x].user && u.tokens[id].family == Some(f) ==>
                u.tokens[id].revokedAt.Some?)
          && (f in u.sessions && u.sessions[f].user == t.tokens[x].user ==> u.sessions[f].revokedAt.Some?))
  }

  lemma MarkLess(t: Tables, x: string, now: int)
    requires x in t.tokens && t.tokens[x].revokedAt.Some?
    ensures OnlyLess(t, t.(tokens := t.tokens[x := t.tokens[x].(reusedAt := Some(now))]))
  {}

  lemma FamilyRowsRevoked(t: Tables, user: string, f: string, reason: Reason, now: int)
    ensures var u := RevokeSessionFamily(t, user, f, reason, now);
            && (forall id :: id in u.tokens && u.tokens[id].user == user && u.tokens[id].family == Some(f) ==>
                  u.tokens[id].revokedAt.Some?)
            && (f in u.sessions && u.sessions[f].user == user ==> u.sessions[f].revokedAt.Some?)
  {}

  lemma ReplayEffect(t: Tables, call: RefreshCall, f: string, now: int)
    requires IsReplay(t, call) && t.tokens[call.token].family == Some(f)
    ensures Replayed(t, Replay(t, call, now), call.token, f)
  {
    var stored := t.tokens[call.token];
    if stored.reusedAt.None? {
      var marked := t.(tokens := t.tokens[call.token := stored.(reusedAt := Some(now))]);
      var u := RevokeBoth(marked, TokensOfFamily(stored.user, f), OneSession(stored.user, f),
                          Some(ReuseDetected), Some(ReuseDetected), now);
      assert u == Replay(t, call, now);
      FamilyRowsRevoked(marked, stored.user, f, ReuseDetected, now);
      MarkLess(t, call.token, now);
      LessTrans(t, marked, u);
    }
  }

  lemma ReplayedKills(y: System, clients: Clients, z: System, x: string, f: string)
    requires Inv(y, clients) && Replayed(y.db, z.db, x, f)
    ensures Killed(z, f)
  {
    var seat := Seat(y, clients, x);
    OneOwner(y, clients, f);
    if y.db.tokens[x].reusedAt.Some? {
      KilledStays(y, z, f);
    } else {
      forall id | id in z.db.tokens && z.db.tokens[id].family == Some(f)
        ensures z.db.tokens[id].revokedAt.Some?
      {
        assert Weakened(y.db.tokens[id], z.db.tokens[id]) && Weakened(y.db.tokens[x], z.db.tokens[x]);
      }
    }
  }

  /** A family none of whose rows or records a step touched. */
  lemma FamilyOkFrame(y: System, clients: Clients, z: System, f: string)
    requires FamilyOk(y, clients, f) && y.clock <= z.clock
    requires f in z.past.issued && f in z.past.bound && f in z.past.owner
    requires z.past.issued[f] == y.past.issued[f] && z.past.bound[f] == y.past.bound[f]
    requires z.past.owner[f] == y.past.owner[f]
    requires forall id :: id in y.past.issued[f] ==>
               && id in z.past.home && id in y.past.home && z.past.home[id] == y.past.home[id]
               && (id in z.db.tokens <==> id in y.db.tokens)
               && (id in y.db.tokens ==> z.db.tokens[id] == y.db.tokens[id])
    ensures FamilyOk(z, clients, f)
  {
    var chain := y.past.issued[f];
    forall i | 0 <= i < |chain|
      ensures RowOk(z, f, i)
    {
      assert RowOk(y, f, i) && chain[i] in chain;
    }
    assert forall i :: 0 <= i < |chain| ==> chain[i] in chain;
  }

  lemma NotAmong(y: System, clients: Clients, f: string, id: string)
    requires Inv(y, clients) && f in y.past.issued
    requires id !in y.past.home || y.past.home[id] != f
    ensures id !in y.past.issued[f]
  {
    assert FamilyOk(y, clients, f);
  }

  lemma UnusedHash(y: System, clients: Clients, id: string)
    requires Inv(y, clients) && id !in y.past.home
    ensures id !in y.db.tokens
  {
    if id in y.db.tokens {
      var i := Seat(y, clients, id);
    }
  }

  ghost predicate Rotates(y: System, clients: Clients, st: Step) {
    Enabled(y, st) && st.action.RefreshWith? && ReplyTo(y, clients, st.action.call, st.now).Issued?
  }

  /** What a successful refresh of `x` into `m` did, said without naming how. */
  ghost predicate RotatedTo(y: System, clients: Clients, z: System, x: string, m: string, f: string) {
    && x in y.db.tokens && m !in y.past.home && m !in y.db.tokens && f in y.past.issued && f in y.past.bound
    && var was, rows := y.db.tokens[x], z.db.tokens;
    && was.family == Some(f) && was.revokedAt.None? && !SessionGone(y.db, f)
    && y.clock <= z.clock && z.db.sessions == y.db.sessions
    && rows.Keys == y.db.tokens.Keys + {m}
    && (forall id :: id in y.db.tokens && id != x ==> rows[id] == y.db.tokens[id])
    && rows[x] == was.(revokedAt := Some(z.clock), reason := Some(Rotated), replacedBy := Some(m))
    && rows[m].user == was.user && rows[m].family == Some(f) && rows[m].scopes == was.scopes
    && rows[m].createdAt == z.clock
    && rows[m].revokedAt.None? && rows[m].reason.None? && rows[m].replacedBy.None? && rows[m].reusedAt.None?
    && Rebound(clients, was.client, rows[m].client)
    && z.past == Record(y.past, f, m, rows[m].client)
  }

  lemma RotateEffect(y: System, clients: Clients, st: Step, f: string)
    requires Rotates(y, clients, st) && st.action.call.minted !in y.db.tokens
    requires y.db.tokens[st.action.call.token].family == Some(f) && f in y.past.issued && f in y.past.bound
    ensures RotatedTo(y, clients, Next(y, clients, st), st.action.call.token, st.action.call.minted, f)
  {}

  lemma LastSeat(y: System, clients: Clients, x: string, f: string)
    requires Inv(y, clients) && x in y.db.tokens && y.db.tokens[x].family == Some(f) && y.db.tokens[x].revokedAt.None?
    ensures FamilyOk(y, clients, f) && y.past.issued[f][|y.past.issued[f]| - 1] == x
        && RowOk(y, f, |y.past.issued[f]| - 1)
  {
    var seat := Seat(y, clients, x);
  }

  lemma RotatedStretch(y: System, clients: Clients, z: System, x: string, m: string, f: string)
    requires FamilyOk(y, clients, f) && RotatedTo(y, clients, z, x, m, f) && m !in y.past.issued[f]
    ensures FinalStretch(z, y.past.issued[f] + [m])
  {
    var chain := y.past.issued[f];
    var longer := chain + [m];
    forall i, k | 0 <= i < k < |longer| && longer[i] in z.db.tokens
      ensures longer[k] in z.db.tokens && z.db.tokens[longer[i]].createdAt <= z.db.tokens[longer[k]].createdAt
    {
      assert RowOk(y, f, i) && chain[i] in chain;
    }
  }

  lemma RotatedOwnFamily(y: System, clients: Clients, z: System, x: string, m: string, f: string)
    requires FamilyOk(y, clients, f) && RotatedTo(y, clients, z, x, m, f)
    requires y.past.issued[f][|y.past.issued[f]| - 1] == x && RowOk(y, f, |y.past.issued[f]| - 1)
    ensures FamilyOk(z, clients, f)
  {
    var chain := y.past.issued[f];
    assert m !in chain;
    forall i | 0 <= i < |chain| + 1
      ensures RowOk(z, f, i)
    {
      if i < |chain| {
        assert RowOk(y, f, i) && chain[i] in chain;
      }
    }
    RotatedStretch(y, clients, z, x, m, f);
  }

  lemma RotatedOtherFamily(y: System, clients: Clients, z: System, x: string, m: string, f: string, g: string)
    requires Inv(y, clients) && RotatedTo(y, clients, z, x, m, f) && g in y.past.issued && g != f
    ensures FamilyOk(z, clients, g)
  {
    LastSeat(y, clients, x, f);
    assert FamilyOk(y, clients, g);
    NotAmong(y, clients, g, m);
    NotAmong(y, clients, g, x);
    FamilyOkFrame(y, clients, z, g);
  }

  lemma RotatedListed(y: System, clients: Clients, z: System, x: string, m: string, f: string, id: string)
    requires RotatedTo(y, clients, z, x, m, f) && id in z.db.tokens
    requires id in y.db.tokens ==> TokenListed(y, id)
    ensures TokenListed(z, id)
  {
    assert !Killed(y, f);
    if id != m && y.db.tokens[id].reusedAt.Some? {
      var g := y.db.tokens[id].family.value;
      assert Killed(y, g);
      assert Killed(z, g);
    }
  }

  lemma RotatedInv(y: System, clients: Clients, z: System, x: string, m: string, f: string)
    requires Inv(y, clients) && RotatedTo(y, clients, z, x, m, f)
    ensures Inv(z, clients)
  {
    forall g | g in z.past.issued
      ensures FamilyOk(z, clients, g)
    {
      if g == f {
        LastSeat(y, clients, x, f);
        RotatedOwnFamily(y, clients, z, x, m, f);
      } else {
        RotatedOtherFamily(y, clients, z, x, m, f, g);
      }
    }
    forall id | id in z.db.tokens
      ensures TokenListed(z, id)
    {
      RotatedListed(y, clients, z, x, m, f, id);
    }
  }

  lemma RotateInv(y: System, clients: Clients, st: Step)
    requires Inv(y, clients) && Rotates(y, clients, st)
    ensures Inv(Next(y, clients, st), clients)
  {
    var call := st.action.call;
    var seat := Seat(y, clients, call.token);
    var f := y.db.tokens[call.token].family.value;
    UnusedHash(y, clients, call.minted);
    RotateEffect(y, clients, st, f);
    RotatedInv(y, clients, Next(y, clients, st), call.token, call.minted, f);
  }

  lemma ReplayNext(y: System, clients: Clients, st: Step)
    requires st.action.RefreshWith? && IsReplay(y.db, st.action.call)
    ensures Next(y, clients, st) == y.(db := Replay(y.db, st.action.call, st.now), clock := st.now)
  {}

  lemma ReplayedInv(y: System, clients: Clients, z: System, x: string, f: string)
    requires Inv(y, clients) && Replayed(y.db, z.db, x, f) && z.past == y.past && y.clock <= z.clock
    ensures Inv(z, clients)
  {
    ReplayedKills(y, clients, z, x, f);
    ReplayedKills(y, clients, y.(db := z.db), x, f);
    assert Weakened(y.db.tokens[x], z.db.tokens[x]);
    SameRowsStretch(y, clients, z);
    InvLess(y, clients, z);
  }

  lemma ReplayInv(y: System, clients: Clients, st: Step)
    requires Inv(y, clients) && Enabled(y, st) && st.action.RefreshWith? && IsReplay(y.db, st.action.call)
    ensures Inv(Next(y, clients, st), clients)
  {
    var call := st.action.call;
    var seat := Seat(y, clients, call.token);
    var f := y.db.tokens[call.token].family.value;
    ReplayEffect(y.db, call, f, st.now);
    ReplayNext(y, clients, st);
    ReplayedInv(y, clients, Next(y, clients, st), call.token, f);
  }

  lemma RefusedLess(y: System, clients: Clients, st: Step)
    requires st.action.RefreshWith? && !Rotates(y, clients, st) && !IsReplay(y.db, st.action.call) && Enabled(y, st)
    requires forall id :: id in y.db.tokens && y.db.tokens[id].revokedAt.None? ==> y.db.tokens[id].reason.None?
    ensures var z := Next(y, clients, st); OnlyLess(y.db, z.db) && SameMarks(y.db, z.db) && z.past == y.past
  {}

  lemma UnrevokedHasNoReason(y: System, clients: Clients)
    requires Inv(y, clients)
    ensures forall id :: id in y.db.tokens && y.db.tokens[id].revokedAt.None? ==> y.db.tokens[id].reason.None?
  {
    forall id | id in y.db.tokens && y.db.tokens[id].revokedAt.None?
      ensures y.db.tokens[id].reason.None?
    {
      var i := Seat(y, clients, id);
    }
  }

  lemma RefusedInv(y: System, clients: Clients, st: Step)
    requires Inv(y, clients) && Enabled(y, st) && st.action.RefreshWith?
    requires !Rotates(y, clients, st) && !IsReplay(y.db, st.action.call)
    ensures Inv(Next(y, clients, st), clients)
  {
    UnrevokedHasNoReason(y, clients);
    RefusedLess(y, clients, st);
    QuietStep(y, clients, Next(y, clients, st));
  }

  // --- Login and pruning ------------------------------------------------------------------

  /** What a login did, said without naming how. */
  ghost predicate LoggedIn(y: System, z: System, f: string, m: string) {
    && f !in y.past.issued && m !in y.past.home && m !in y.db.tokens && f !in y.db.sessions
    && y.clock <= z.clock
    && z.db.tokens.Keys == y.db.tokens.Keys + {m}
    && (forall id :: id in y.db.tokens ==> z.db.tokens[id] == y.db.tokens[id])
    && z.db.sessions.Keys == y.db.sessions.Keys + {f}
    && (forall g :: g in y.db.sessions ==> z.db.sessions[g] == y.db.sessions[g])
    && var t := z.db.tokens[m];
    && t.family == Some(f) && t.scopes == SCOPES && t.createdAt == z.clock && t.revokedAt.None? && t.reason.None?
    && t.replacedBy.None? && t.reusedAt.None? && z.db.sessions[f].user == t.user
    && z.past == Begin(y.past, f, t.user, m, t.client)
  }

  lemma LogInEffect(y: System, clients: Clients, st: Step)
    requires Enabled(y, st) && st.action.LogIn?
    requires st.action.token !in y.db.tokens && st.action.session !in y.db.sessions
    ensures LoggedIn(y, Next(y, clients, st), st.action.session, st.action.token)
  {}

  lemma LoggedInOwnFamily(y: System, clients: Clients, z: System, f: string, m: string)
    requires LoggedIn(y, z, f, m)
    ensures FamilyOk(z, clients, f)
  {
    assert RowOk(z, f, 0);
  }

  lemma LoggedInOtherFamily(y: System, clients: Clients, z: System, f: string, m: string, g: string)
    requires Inv(y, clients) && LoggedIn(y, z, f, m) && g in y.past.issued
    ensures FamilyOk(z, clients, g)
  {
    assert FamilyOk(y, clients, g);
    NotAmong(y, clients, g, m);
    LoggedInFrame(y, clients, z, f, m, g);
  }

  lemma LoggedInFrame(y: System, clients: Clients, z: System, f: string, m: string, g: string)
    requires FamilyOk(y, clients, g) && LoggedIn(y, z, f, m) && g in y.past.issued && m !in y.past.issued[g]
    ensures FamilyOk(z, clients, g)
  {
    FamilyOkFrame(y, clients, z, g);
  }

  lemma LoggedInListed(y: System, z: System, f: string, m: string, id: string)
    requires LoggedIn(y, z, f, m) && id in z.db.tokens
    requires id in y.db.tokens ==> TokenListed(y, id)
    ensures TokenListed(z, id)
  {
    if id != m && y.db.tokens[id].reusedAt.Some? {
      assert Killed(z, y.db.tokens[id].family.value);
    }
  }

  lemma LoggedInInv(y: System, clients: Clients, z: System, f: string, m: string)
    requires Inv(y, clients) && LoggedIn(y, z, f, m)
    ensures Inv(z, clients)
  {
    forall g | g in z.past.issued
      ensures FamilyOk(z, clients, g)
    {
      if g == f {
        LoggedInOwnFamily(y, clients, z, f, m);
      } else {
        LoggedInOtherFamily(y, clients, z, f, m, g);
      }
    }
    forall id | id in z.db.tokens
      ensures TokenListed(z, id)
    {
      LoggedInListed(y, z, f, m, id);
    }
  }

  lemma LogInInv(y: System, clients: Clients, st: Step)
    requires Inv(y, clients) && Enabled(y, st) && st.action.LogIn?
    ensures Inv(Next(y, clients, st), clients)
  {
    UnusedHash(y, clients, st.action.token);
    LogInEffect(y, clients, st);
    LoggedInInv(y, clients, Next(y, clients, st), st.action.session, st.action.token);
  }

  /** Pruning removes an initial stretch: an older row of the chain is always prunable first. */
  lemma PruneStretch(y: System, clients: Clients, st: Step, f: string)
    requires Inv(y, clients) && Enabled(y, st) && st.action.PruneOldTokens? && f in y.past.issued
    ensures FinalStretch(Next(y, clients, st), y.past.issued[f])
  {
    var z, chain := Next(y, clients, st), y.past.issued[f];
    assert FamilyOk(y, clients, f);
    forall i, k | 0 <= i < k < |chain| && chain[i] in z.db.tokens
      ensures chain[k] in z.db.tokens && z.db.tokens[chain[i]].createdAt <= z.db.tokens[chain[k]].createdAt
    {
      assert RowOk(y, f, i);
      assert !TokenPrunable(y.db.tokens[chain[i]], st.action.cutoff, st.now);
    }
  }

  lemma PruneLess(y: System, clients: Clients, st: Step)
    requires st.action.PruneOldTokens?
    ensures var z := Next(y, clients, st); OnlyLess(y.db, z.db) && z.past == y.past && MarksBacked(y, z.db)
  {}

  lemma PruneInv(y: System, clients: Clients, st: Step)
    requires Inv(y, clients) && Enabled(y, st) && st.action.PruneOldTokens?
    ensures Inv(Next(y, clients, st), clients)
  {
    forall f | f in y.past.issued
      ensures FinalStretch(Next(y, clients, st), y.past.issued[f])
    {
      PruneStretch(y, clients, st, f);
    }
    PruneLess(y, clients, st);
    InvLess(y, clients, Next(y, clients, st));
  }

  lemma InvNext(y: System, clients: Clients, st: Step)
    requires Inv(y, clients) && Enabled(y, st)
    ensures Inv(Next(y, clients, st), clients)
  {
    if st.action.LogIn? {
      LogInInv(y, clients, st);
    } else if st.action.RefreshWith? {
      if Rotates(y, clients, st) {
        RotateInv(y, clients, st);
      } else if IsReplay(y.db, st.action.call) {
        ReplayInv(y, clients, st);
      } else {
        RefusedInv(y, clients, st);
      }
    } else if st.action.PruneOldTokens? {
      PruneInv(y, clients, st);
    } else {
      RevokingLess(y, clients, st);
      QuietStep(y, clients, Next(y, clients, st));
    }
  }

  lemma {:induction false} InvRun(y: System, clients: Clients, steps: seq<Step>)
    requires Inv(y, clients) && Legal(y, clients, steps)
    ensures Inv(Run(y, clients, steps), clients)
    decreases |steps|
  {
    if steps == [] {
    } else {
      InvNext(y, clients, steps[0]);
      InvRun(Next(y, clients, steps[0]), clients, steps[1..]);
    }
  }

  lemma StartInv(clients: Clients)
    ensures Inv(START, clients)
  {}

  lemma Reached(clients: Clients, steps: seq<Step>)
    requires Legal(START, clients, steps)
    ensures Inv(Run(START, clients, steps), clients)
  {
    StartInv(clients);
    InvRun(START, clients, steps);
  }

  // --- Main result: one chain per family -----------------------------------------------------

  /** The row at place i of a chain of tokens: linked to the next one, and rotated exactly if there is a next one. */
  ghost predicate Linked(t: Token, chain: seq<string>, i: nat, f: string, owner: string)
    requires i < |chain|
  {
    && t.family == Some(f) && t.user == owner && t.scopes == ["openid", "offline_access"]
    && (t.reason == Some(Rotated) <==> i + 1 < |chain|)
    && t.replacedBy == (if i + 1 < |chain| then Some(chain[i + 1]) else None)
    && (t.revokedAt.None? ==> i + 1 == |chain|)
  }

  /**
   * After any run the rows of a family are exactly the final stretch, from some k on,
   * of the tokens issued to it, in order; each but the last was rotated into the next.
   */
  lemma ChainShape(clients: Clients, steps: seq<Step>, f: string) returns (k: nat)
    requires Legal(START, clients, steps) && f in Run(START, clients, steps).past.issued
    ensures var y := Run(START, clients, steps);
            var chain := y.past.issued[f];
            && k <= |chain| && f in y.past.owner
            && (forall i, m :: 0 <= i < m < |chain| ==> chain[i] != chain[m])
            && (forall id :: id in y.db.tokens && y.db.tokens[id].family == Some(f) <==> id in chain[k..])
            && (forall i :: k <= i < |chain| ==> Linked(y.db.tokens[chain[i]], chain, i, f, y.past.owner[f]))
  {
    Reached(clients, steps);
    k := ShapeOf(Run(START, clients, steps), clients, f);
  }

  lemma ShapeOf(y: System, clients: Clients, f: string) returns (k: nat)
    requires Inv(y, clients) && f in y.past.issued
    ensures var chain := y.past.issued[f];
            && k <= |chain| && f in y.past.owner
            && (forall i, m :: 0 <= i < m < |chain| ==> chain[i] != chain[m])
            && (forall id :: id in y.db.tokens && y.db.tokens[id].family == Some(f) <==> id in chain[k..])
            && (forall i :: k <= i < |chain| ==> Linked(y.db.tokens[chain[i]], chain, i, f, y.past.owner[f]))
  {
    assert FamilyOk(y, clients, f);
    var chain := y.past.issued[f];
    k := FirstKept(y, chain, |chain|);
    forall i | k <= i < |chain|
      ensures chain[i] in y.db.tokens && Linked(y.db.tokens[chain[i]], chain, i, f, y.past.owner[f])
    {
      assert chain[k] in y.db.tokens;
      LinkedAt(y, clients, f, i);
    }
    forall id
      ensures id in y.db.tokens && y.db.tokens[id].family == Some(f) <==> id in chain[k..]
    {
      if id in y.db.tokens && y.db.tokens[id].family == Some(f) {
        var i := Seat(y, clients, id);
        assert chain[k..][i - k] == id;
      }
    }
  }

  lemma LinkedAt(y: System, clients: Clients, f: string, i: nat)
    requires FamilyOk(y, clients, f) && i < |y.past.issued[f]| && y.past.issued[f][i] in y.db.tokens
    ensures Linked(y.db.tokens[y.past.issued[f][i]], y.past.issued[f], i, f, y.past.owner[f])
  {
    assert RowOk(y, f, i);
  }

  /** The first of the leading `n` places whose row is still there, or `n`. */
  lemma {:induction false} FirstKept(y: System, chain: seq<string>, n: nat) returns (k: nat)
    requires n <= |chain|
    ensures k <= n && (forall i :: 0 <= i < k ==> chain[i] !in y.db.tokens) && (k < n ==> chain[k] in y.db.tokens)
  {
    if n == 0 {
      k := 0;
    } else {
      k := FirstKept(y, chain, n - 1);
      if k == n - 1 && chain[k] !in y.db.tokens {
        k := n;
      }
    }
  }

  // --- Main result: what ends a family, ends it for good -----------------------------------------

  /** No token of the family can be exchanged any more. */
  ghost predicate Ended(y: System, f: string) {
    f in y.past.issued && Barred(y.db, f)
  }

  ghost predicate Barred(t: Tables, f: string) {
    || SessionGone(t, f)
    || forall id :: id in t.tokens && t.tokens[id].family == Some(f) ==> t.tokens[id].revokedAt.Some?
  }

  /** Every step either logs in, rotates one token, or only takes away. */
  lemma StepShape(y: System, clients: Clients, st: Step)
    requires Inv(y, clients) && Enabled(y, st)
    ensures st.action.LogIn? ==> LoggedIn(y, Next(y, clients, st), st.action.session, st.action.token)
    ensures Rotates(y, clients, st) ==>
              && FamilyOf(y, st.action.call.token).Some?
              && RotatedTo(y, clients, Next(y, clients, st), st.action.call.token, st.action.call.minted,
                           FamilyOf(y, st.action.call.token).value)
    ensures !st.action.LogIn? && !Rotates(y, clients, st) ==>
              OnlyLess(y.db, Next(y, clients, st).db) && Next(y, clients, st).past == y.past
  {
    if st.action.LogIn? {
      UnusedHash(y, clients, st.action.token);
      LogInEffect(y, clients, st);
    } else if Rotates(y, clients, st) {
      var seat := Seat(y, clients, st.action.call.token);
      UnusedHash(y, clients, st.action.call.minted);
      RotateEffect(y, clients, st, y.db.tokens[st.action.call.token].family.value);
    } else if st.action.RefreshWith? && IsReplay(y.db, st.action.call) {
      var seat := Seat(y, clients, st.action.call.token);
      ReplayEffect(y.db, st.action.call, y.db.tokens[st.action.call.token].family.value, st.now);
      ReplayNext(y, clients, st);
    } else if st.action.RefreshWith? {
      UnrevokedHasNoReason(y, clients);
      RefusedLess(y, clients, st);
    } else if st.action.PruneOldTokens? {
      PruneLess(y, clients, st);
    } else {
      RevokingLess(y, clients, st);
    }
  }

  lemma EndedLess(y: System, z: System, f: string)
    requires Ended(y, f) && OnlyLess(y.db, z.db) && z.past == y.past
    ensures Ended(z, f)
  {
    if !SessionGone(y.db, f) {
      forall id | id in z.db.tokens && z.db.tokens[id].family == Some(f)
        ensures z.db.tokens[id].revokedAt.Some?
      {
        assert Weakened(y.db.tokens[id], z.db.tokens[id]);
      }
    }
  }

  lemma EndedRotated(y: System, clients: Clients, z: System, x: string, m: string, g: string, f: string)
    requires Ended(y, f) && RotatedTo(y, clients, z, x, m, g)
    ensures Ended(z, f)
  {
    assert f != g;
  }

  lemma EndedLoggedIn(y: System, z: System, g: string, m: string, f: string)
    requires Ended(y, f) && LoggedIn(y, z, g, m)
    ensures Ended(z, f)
  {
    assert f != g;
  }

  lemma EndedNext(y: System, clients: Clients, st: Step, f: string)
    requires Inv(y, clients) && Enabled(y, st) && Ended(y, f)
    ensures Ended(Next(y, clients, st), f)
  {
    StepShape(y, clients, st);
    if st.action.LogIn? {
      EndedLoggedIn(y, Next(y, clients, st), st.action.session, st.action.token, f);
    } else if Rotates(y, clients, st) {
      EndedRotated(y, clients, Next(y, clients, st), st.action.call.token, st.action.call.minted,
                   FamilyOf(y, st.action.call.token).value, f);
    } else {
      EndedLess(y, Next(y, clients, st), f);
    }
  }

  lemma {:induction false} EndedForever(y: System, clients: Clients, steps: seq<Step>, f: string)
    requires Inv(y, clients) && Legal(y, clients, steps) && Ended(y, f)
    ensures Ended(Run(y, clients, steps), f)
    decreases |steps|
  {
    if steps == [] {
    } else {
      EndedNext(y, clients, steps[0], f);
      InvNext(y, clients, steps[0]);
      EndedForever(Next(y, clients, steps[0]), clients, steps[1..], f);
    }
  }

  lemma EndedRefuses(y: System, clients: Clients, f: string, call: RefreshCall, now: int)
    requires Inv(y, clients) && Ended(y, f) && call.token in y.past.issued[f]
    ensures ReplyTo(y, clients, call, now).Refused?
  {
    if call.token in y.db.tokens {
      assert FamilyOk(y, clients, f);
      var seat := Seat(y, clients, call.token);
    }
  }

  /** The calls meant to end a family: in its owner's name, or a replay of one of its rotated tokens. */
  ghost predicate Ends(y: System, a: Action, f: string) {
    && f in y.past.issued && f in y.past.owner
    && match a
       case LogOut(user, presented, _) =>
         presented.Some? && FamilyOf(y, presented.value) == Some(f) && user == y.past.owner[f]
       case RevokeIds(user, ids, _) => f in ids && user == y.past.owner[f]
       case RevokeAll(user, exclude, _) => exclude != Some(f) && user == y.past.owner[f]
       case AdminRevoke(user) => user == y.past.owner[f]
       case PasswordReset(user) => user == y.past.owner[f]
       case RefreshWith(call) => IsReplay(y.db, call) && FamilyOf(y, call.token) == Some(f)
       case _ => false
  }

  /** Rows and session of a family all belong to one user. */
  ghost predicate Owned(t: Tables, user: string, f: string) {
    && (forall id :: id in t.tokens && t.tokens[id].family == Some(f) ==> t.tokens[id].user == user)
    && (f in t.sessions ==> t.sessions[f].user == user)
  }

  lemma LogoutBars(t: Tables, user: string, presented: string, address: Option<string>, f: string, now: int)
    requires Owned(t, user, f) && presented in t.tokens && t.tokens[presented].family == Some(f)
    ensures Barred(Logout(t, user, Some(presented), address, now), f)
  {}

  lemma RevokeIdsBars(t: Tables, user: string, ids: set<string>, reason: string, f: string, now: int)
    requires Owned(t, user, f) && f in ids
    ensures Barred(RevokeSessionsByIds(t, user, ids, reason, now), f)
  {}

  lemma RevokeAllBars(t: Tables, user: string, exclude: Option<string>, reason: string, f: string, now: int)
    requires Owned(t, user, f) && exclude != Some(f)
    ensures Barred(RevokeAllSessions(t, user, exclude, reason, now), f)
  {
    if f in LiveSessions(t, user, exclude) {
      RevokeIdsBars(t, user, LiveSessions(t, user, exclude), reason, f, now);
    }
  }

  lemma AdminBars(t: Tables, user: string, f: string, now: int)
    requires Owned(t, user, f)
    ensures Barred(RevokeUserSessions(t, user, now), f)
  {}

  lemma ResetBars(t: Tables, user: string, f: string, now: int)
    requires Owned(t, user, f)
    ensures Barred(ResetPassword(t, user, now), f)
  {}

  lemma EndsEnds(y: System, clients: Clients, st: Step, f: string)
    requires Inv(y, clients) && Enabled(y, st) && Ends(y, st.action, f)
    ensures Ended(Next(y, clients, st), f)
  {
    OneOwner(y, clients, f);
    var t, now := y.db, st.now;
    match st.action
    case LogOut(user, presented, address) => LogoutBars(t, user, presented.value, address, f, now);
    case RevokeIds(user, ids, reason) => RevokeIdsBars(t, user, ids, reason, f, now);
    case RevokeAll(user, exclude, reason) => RevokeAllBars(t, user, exclude, reason, f, now);
    case AdminRevoke(user) => AdminBars(t, user, f, now);
    case PasswordReset(user) => ResetBars(t, user, f, now);
    case RefreshWith(call) =>
      ReplayEffect(t, call, f, now);
      ReplayNext(y, clients, st);
      ReplayedKills(y, clients, Next(y, clients, st), call.token, f);
  }

  /** After logout, revocation, a password reset or a detected replay, no token of the family ever works again. */
  lemma EndedForGood(clients: Clients, before: seq<Step>, st: Step, after: seq<Step>, f: string, call: RefreshCall,
                     now: int)
    requires Legal(START, clients, before + [st] + after)
    requires Ends(Run(START, clients, before), st.action, f)
    requires var z := Run(START, clients, before + [st] + after); f in z.past.issued && call.token in z.past.issued[f]
    ensures ReplyTo(Run(START, clients, before + [st] + after), clients, call, now).Refused?
  {
    Split(START, clients, before + [st], after);
    Split(START, clients, before, [st]);
    var y := Run(START, clients, before);
    Reached(clients, before);
    Reached(clients, before + [st]);
    Reached(clients, before + [st] + after);
    assert [st][1..] == [];
    EndsEnds(y, clients, st, f);
    EndedForever(Run(START, clients, before + [st]), clients, after, f);
    EndedRefuses(Run(START, clients, before + [st] + after), clients, f, call, now);
  }

  lemma {:induction false} KilledForever(y: System, clients: Clients, steps: seq<Step>, f: string)
    requires Inv(y, clients) && Legal(y, clients, steps) && f in y.past.issued && Killed(y, f)
    ensures Killed(Run(y, clients, steps), f)
    decreases |steps|
  {
    if steps == [] {
    } else {
      var z := Next(y, clients, steps[0]);
      StepShape(y, clients, steps[0]);
      KilledNext(y, clients, steps[0], f);
      InvNext(y, clients, steps[0]);
      KilledForever(z, clients, steps[1..], f);
    }
  }

  lemma KilledRotated(y: System, clients: Clients, z: System, x: string, m: string, g: string, f: string)
    requires f in y.past.issued && Killed(y, f) && RotatedTo(y, clients, z, x, m, g)
    ensures f in z.past.issued && Killed(z, f)
  {
    assert f != g;
  }

  lemma KilledLoggedIn(y: System, z: System, g: string, m: string, f: string)
    requires f in y.past.issued && Killed(y, f) && LoggedIn(y, z, g, m)
    ensures f in z.past.issued && Killed(z, f)
  {
    assert f != g;
  }

  lemma KilledNext(y: System, clients: Clients, st: Step, f: string)
    requires Inv(y, clients) && Enabled(y, st) && f in y.past.issued && Killed(y, f)
    ensures f in Next(y, clients, st).past.issued && Killed(Next(y, clients, st), f)
  {
    StepShape(y, clients, st);
    if st.action.LogIn? {
      KilledLoggedIn(y, Next(y, clients, st), st.action.session, st.action.token, f);
    } else if Rotates(y, clients, st) {
      KilledRotated(y, clients, Next(y, clients, st), st.action.call.token, st.action.call.minted,
                    FamilyOf(y, st.action.call.token).value, f);
    } else {
      KilledStays(y, Next(y, clients, st), f);
    }
  }

  /** A detected replay revokes every row of the family and its session, and so they stay. */
  lemma ReplayKillsFamily(clients: Clients, before: seq<Step>, call: RefreshCall, at: int, after: seq<Step>)
    requires Legal(START, clients, before + [Step(at, RefreshWith(call))] + after)
    requires IsReplay(Run(START, clients, before).db, call)
    ensures FamilyOf(Run(START, clients, before), call.token).Some?
    ensures Killed(Run(START, clients, before + [Step(at, RefreshWith(call))] + after),
                   FamilyOf(Run(START, clients, before), call.token).value)
  {
    var st := Step(at, RefreshWith(call));
    Split(START, clients, before + [st], after);
    Split(START, clients, before, [st]);
    var y := Run(START, clients, before);
    Reached(clients, before);
    Reached(clients, before + [st]);
    assert [st][1..] == [];
    var seat := Seat(y, clients, call.token);
    var f := y.db.tokens[call.token].family.value;
    ReplayEffect(y.db, call, f, at);
    ReplayNext(y, clients, st);
    ReplayedKills(y, clients, Next(y, clients, st), call.token, f);
    KilledForever(Run(START, clients, before + [st]), clients, after, f);
  }

  /**
   * Whatever a token was revoked for, once it is presented again no token of its family is
   * left unrevoked; the session row is ended by it only if the token had been rotated.
   */
  lemma RevokedTokenPresented(clients: Clients, steps: seq<Step>, call: RefreshCall, at: int, f: string)
    requires Legal(START, clients, steps + [Step(at, RefreshWith(call))])
    requires FamilyOf(Run(START, clients, steps), call.token) == Some(f) && call.subject.Some?
    requires Run(START, clients, steps).db.tokens[call.token].revokedAt.Some?
    ensures var y, z := Run(START, clients, steps), Run(START, clients, steps + [Step(at, RefreshWith(call))]);
            && (forall id :: id in z.db.tokens && z.db.tokens[id].family == Some(f) ==> z.db.tokens[id].revokedAt.Some?)
            && (SessionGone(z.db, f) <==> y.db.tokens[call.token].reason == Some(Rotated) || SessionGone(y.db, f))
  {
    var st := Step(at, RefreshWith(call));
    var y := Run(START, clients, steps);
    if y.db.tokens[call.token].reason == Some(Rotated) {
      assert steps + [st] + [] == steps + [st];
      ReplayKillsFamily(clients, steps, call, at, []);
    } else {
      Split(START, clients, steps, [st]);
      Reached(clients, steps);
      LastRevokedAllRevoked(y, clients, call.token, f);
      assert [st][1..] == [];
      assert Next(y, clients, st).db == y.db;
    }
  }

  /** A revoked token that was not rotated is the last of its family, and the others were. */
  lemma LastRevokedAllRevoked(y: System, clients: Clients, x: string, f: string)
    requires Inv(y, clients) && FamilyOf(y, x) == Some(f)
    requires y.db.tokens[x].revokedAt.Some? && y.db.tokens[x].reason != Some(Rotated)
    ensures forall id :: id in y.db.tokens && y.db.tokens[id].family == Some(f) ==> y.db.tokens[id].revokedAt.Some?
  {
    var i := Seat(y, clients, x);
    assert RowOk(y, f, i);
    forall id | id in y.db.tokens && y.db.tokens[id].family == Some(f) ensures y.db.tokens[id].revokedAt.Some? {
      var k := Seat(y, clients, id);
      assert RowOk(y, f, k);
    }
  }

  // --- Main result: which token works ---------------------------------------------------------------

  /**
   * The newest token of a family, in the hands of its owner, before its deadline, in a live session, from an
   * allowed origin.
   */
  ghost predicate Usable(y: System, clients: Clients, call: RefreshCall, now: int, f: string) {
    && f in y.past.issued && f in y.past.owner && y.past.issued[f] != []
    && call.token == y.past.issued[f][|y.past.issued[f]| - 1]
    && call.token in y.db.tokens && y.db.tokens[call.token].revokedAt.None? && now <= y.db.tokens[call.token].expiresAt
    && call.subject == Some(y.past.owner[f]) && call.userActive && !SessionGone(y.db, f)
    && FromAllowedOrigin(clients, call)
  }

  /** A request that names an active client and has an origin comes from one that the client lists, or lists as `*`. */
  predicate FromAllowedOrigin(clients: Clients, call: RefreshCall) {
    call.requested.Some? && call.origin.Some? ==>
      && call.requested.value in clients.origins
      && var listed := clients.origins[call.requested.value]; call.origin.value in listed || "*" in listed
  }

  /** A refresh yields a token if and only if it presents the usable token of some family. */
  lemma IssuedExactly(clients: Clients, steps: seq<Step>, call: RefreshCall, now: int)
    requires Legal(START, clients, steps)
    ensures var y := Run(START, clients, steps);
            ReplyTo(y, clients, call, now).Issued? <==> exists f :: Usable(y, clients, call, now, f)
  {
    Reached(clients, steps);
    var y := Run(START, clients, steps);
    if call.token in y.db.tokens {
      var i := Seat(y, clients, call.token);
      var f := y.db.tokens[call.token].family.value;
      IssuedInFamily(y, clients, call, now, f, i);
      forall g | Usable(y, clients, call, now, g) ensures g == f {
        assert FamilyOk(y, clients, g) && RowOk(y, g, |y.past.issued[g]| - 1);
      }
    }
  }

  lemma IssuedInFamily(y: System, clients: Clients, call: RefreshCall, now: int, f: string, i: nat)
    requires FamilyOk(y, clients, f) && i < |y.past.issued[f]| && y.past.issued[f][i] == call.token
    requires call.token in y.db.tokens && y.db.tokens[call.token].family == Some(f)
    ensures ReplyTo(y, clients, call, now).Issued? <==> Usable(y, clients, call, now, f)
  {
    assert RowOk(y, f, i);
  }

  /**
   * The promise fails for the session: a token revoked by a password reset comes back, and the session row stays
   * alive.
   */
  lemma SessionSurvives(clients: Clients)
    ensures var steps := [Step(0, LogIn("u", "c", "s", "t", "ip", 10)), Step(1, PasswordReset("u")),
                          Step(2, RefreshWith(RefreshCall(Some("u"), "t", true, None, None, "t1", 10)))];
            var y := Run(START, clients, steps);
            && Legal(START, clients, steps) && "t" in y.db.tokens && y.db.tokens["t"].revokedAt == Some(1)
            && !SessionGone(y.db, "s")
  {
    var a, b := Step(0, LogIn("u", "c", "s", "t", "ip", 10)), Step(1, PasswordReset("u"));
    var c := Step(2, RefreshWith(RefreshCall(Some("u"), "t", true, None, None, "t1", 10)));
    var y1 := Next(START, clients, a);
    assert y1.db.tokens.Keys == {"t"} && "s" in y1.db.sessions;
    var y2 := Next(y1, clients, b);
    assert y2.db.tokens["t"].revokedAt == Some(1) && y2.db.sessions == y1.db.sessions;
    var y3 := Next(y2, clients, c);
    assert y3.db == y2.db;
    ThreeSteps(clients, a, b, c);
  }

  lemma ThreeSteps(clients: Clients, a: Step, b: Step, c: Step)
    requires Enabled(START, a) && Enabled(Next(START, clients, a), b)
    requires Enabled(Next(Next(START, clients, a), clients, b), c)
    ensures Legal(START, clients, [a, b, c])
    ensures Run(START, clients, [a, b, c]) == Next(Next(Next(START, clients, a), clients, b), clients, c)
  {
    var y1 := Next(START, clients, a);
    var y2 := Next(y1, clients, b);
    assert [c][1..] == [] && [b, c][1..] == [c] && [a, b, c][1..] == [b, c];
    assert Legal(y2, clients, [c]) && Run(y2, clients, [c]) == Next(y2, clients, c);
    assert Legal(y1, clients, [b, c]) && Run(y1, clients, [b, c]) == Run(y2, clients, [c]);
  }

  // --- Main result: a token is exchanged at most once ----------------------------------------------

  function Exchanges(y: System, clients: Clients, steps: seq<Step>, id: string): nat
    decreases |steps|
  {
    if steps == [] then 0
    else
      var a := steps[0].action;
      (if a.RefreshWith? && a.call.token == id && ReplyTo(y, clients, a.call, steps[0].now).Issued? then 1 else 0)
      + Exchanges(Next(y, clients, steps[0]), clients, steps[1..], id)
  }

  ghost predicate Spent(y: System, id: string) {
    id in y.past.home && (id in y.db.tokens ==> y.db.tokens[id].revokedAt.Some?)
  }

  lemma SpentNext(y: System, clients: Clients, st: Step, id: string)
    requires Inv(y, clients) && Enabled(y, st)
    requires Spent(y, id) || (Rotates(y, clients, st) && st.action.call.token == id)
    ensures Spent(Next(y, clients, st), id)
  {
    StepShape(y, clients, st);
    if Rotates(y, clients, st) {
      var seat := Seat(y, clients, st.action.call.token);
    }
    if !st.action.LogIn? && !Rotates(y, clients, st) && id in Next(y, clients, st).db.tokens {
      assert Weakened(y.db.tokens[id], Next(y, clients, st).db.tokens[id]);
    }
  }

  lemma {:induction false} SpentNoMore(y: System, clients: Clients, steps: seq<Step>, id: string)
    requires Inv(y, clients) && Legal(y, clients, steps) && Spent(y, id)
    ensures Exchanges(y, clients, steps, id) == 0
    decreases |steps|
  {
    if steps == [] {
    } else {
      SpentNext(y, clients, steps[0], id);
      InvNext(y, clients, steps[0]);
      SpentNoMore(Next(y, clients, steps[0]), clients, steps[1..], id);
    }
  }

  lemma {:induction false} ExchangedAtMostOnceFrom(y: System, clients: Clients, steps: seq<Step>, id: string)
    requires Inv(y, clients) && Legal(y, clients, steps)
    ensures Exchanges(y, clients, steps, id) <= 1
    decreases |steps|
  {
    if steps == [] {
    } else {
      InvNext(y, clients, steps[0]);
      if Rotates(y, clients, steps[0]) && steps[0].action.call.token == id {
        SpentNext(y, clients, steps[0], id);
        SpentNoMore(Next(y, clients, steps[0]), clients, steps[1..], id);
      } else {
        ExchangedAtMostOnceFrom(Next(y, clients, steps[0]), clients, steps[1..], id);
      }
    }
  }

  lemma ExchangedAtMostOnce(clients: Clients, steps: seq<Step>, id: string)
    requires Legal(START, clients, steps)
    ensures Exchanges(START, clients, steps, id) <= 1
  {
    StartInv(clients);
    ExchangedAtMostOnceFrom(START, clients, steps, id);
  }

  // --- Main result: the bound client changes at most once --------------------------------------------

  lemma {:induction false} AudienceSticks(clients: Clients, bound: seq<string>, i: nat, k: nat)
    requires i <= k < |bound| && HasAudience(clients, bound[i])
    requires forall j :: 0 <= j < |bound| - 1 ==> Rebound(clients, bound[j], bound[j + 1])
    ensures forall j :: i <= j <= k ==> bound[j] == bound[i]
    decreases k
  {
    if i == k {
    } else {
      AudienceSticks(clients, bound, i, k - 1);
      assert Rebound(clients, bound[k - 1], bound[k - 1 + 1]);
    }
  }

  /**
   * Over the whole chain, pruned rows included: one change at most, from the internal client to one with an
   * audience.
   */
  lemma ClientChangesAtMostOnce(clients: Clients, steps: seq<Step>, f: string, i: nat, k: nat)
    requires Legal(START, clients, steps) && f in Run(START, clients, steps).past.issued
    requires f in Run(START, clients, steps).past.bound
    requires var bound := Run(START, clients, steps).past.bound[f];
             i <= k < |bound| - 1 && bound[i] != bound[i + 1] && bound[k] != bound[k + 1]
    ensures i == k
    ensures var bound := Run(START, clients, steps).past.bound[f];
            bound[i] == clients.internal && !HasAudience(clients, bound[i]) && HasAudience(clients, bound[i + 1])
  {
    Reached(clients, steps);
    var y := Run(START, clients, steps);
    assert FamilyOk(y, clients, f);
    var bound := y.past.bound[f];
    assert Rebound(clients, bound[i], bound[i + 1]);
    if i < k {
      AudienceSticks(clients, bound, i + 1, k + 1);
    }
  }

  // --- Whose rows a call touches ----------------------------------------------------------------------

  function Actor(a: Action): Option<string> {
    match a
    case LogOut(user, _, _) => Some(user)
    case RevokeIds(user, _, _) => Some(user)
    case RevokeAll(user, _, _) => Some(user)
    case AdminRevoke(user) => Some(user)
    case PasswordReset(user) => Some(user)
    case _ => None
  }

  /** The family's rows and session are as they were. */
  ghost predicate Untouched(t: Tables, u: Tables, f: string) {
    && (forall id :: id in t.tokens && t.tokens[id].family == Some(f) ==>
          id in u.tokens && u.tokens[id] == t.tokens[id])
    && (f in t.sessions ==> f in u.sessions && u.sessions[f] == t.sessions[f])
  }

  lemma RevocationFrame(t: Tables, w: TokenWhere, x: SessionWhere, a: Option<Reason>, b: Option<Reason>, now: int,
                        owner: string, f: string)
    requires Owned(t, owner, f) && w.user != owner && x.user != owner
    ensures Untouched(t, Tables(RevokeTokens(t.tokens, w, a, now), RevokeSessions(t.sessions, x, b, now)), f)
    ensures Untouched(t, t.(tokens := RevokeTokens(t.tokens, w, a, now)), f)
    ensures Untouched(t, t.(sessions := RevokeSessions(t.sessions, x, b, now)), f)
  {}

  lemma OthersUntouchedBy(t: Tables, y: System, clients: Clients, st: Step, owner: string, f: string)
    requires t == y.db && Owned(t, owner, f) && Actor(st.action).Some? && Actor(st.action).value != owner
    ensures Untouched(t, Next(y, clients, st).db, f)
  {
    var now := st.now;
    match st.action
    case LogOut(user, presented, address) =>
      if presented.Some? && presented.value in t.tokens && t.tokens[presented.value].family.Some? {
        var family := t.tokens[presented.value].family.value;
        RevocationFrame(t, TokensOfFamily(user, family), OneSession(user, family), Some(LoggedOut), Some(LoggedOut),
                        now, owner, f);
      } else {
        RevocationFrame(t, TokenOfHash(user, OrElse(presented, "")), SessionsAt(user, address), Some(LoggedOut),
                        Some(LoggedOut), now, owner, f);
      }
    case RevokeIds(user, ids, reason) =>
      RevocationFrame(t, TokensOfFamilies(user, ids), SomeSessions(user, ids), Some(Given(reason)),
                      Some(Given(reason)), now, owner, f);
    case RevokeAll(user, exclude, reason) =>
      var ids := LiveSessions(t, user, exclude);
      RevocationFrame(t, TokensOfFamilies(user, ids), SomeSessions(user, ids), Some(Given(reason)),
                      Some(Given(reason)), now, owner, f);
    case AdminRevoke(user) =>
      RevocationFrame(t, TokensOfUser(user), SessionsOfUser(user), None, None, now, owner, f);
    case PasswordReset(user) =>
      RevocationFrame(t, TokensOfUser(user), SessionsOfUser(user), None, None, now, owner, f);
  }

  /** A revocation in another user's name leaves the family as it was, even when one of its tokens is presented. */
  lemma OthersUntouched(clients: Clients, steps: seq<Step>, st: Step, f: string)
    requires Legal(START, clients, steps + [st]) && f in Run(START, clients, steps).past.issued
    requires f in Run(START, clients, steps).past.owner
    requires Actor(st.action).Some? && Actor(st.action).value != Run(START, clients, steps).past.owner[f]
    ensures Untouched(Run(START, clients, steps).db, Run(START, clients, steps + [st]).db, f)
  {
    Split(START, clients, steps, [st]);
    Reached(clients, steps);
    var y := Run(START, clients, steps);
    assert [st][1..] == [];
    OneOwner(y, clients, f);
    OthersUntouchedBy(y.db, y, clients, st, y.past.owner[f], f);
  }

  // --- Pruning ------------------------------------------------------------------------------------------

  /** A pruned token was old, and revoked or expired; and everything issued before it in its family is gone with it. */
  lemma PruneRemovesInitialStretch(clients: Clients, steps: seq<Step>, now: int, cutoff: int, f: string, i: nat, k: nat)
    requires Legal(START, clients, steps + [Step(now, PruneOldTokens(cutoff))])
    requires var y := Run(START, clients, steps);
             && f in y.past.issued && i <= k < |y.past.issued[f]|
             && y.past.issued[f][k] in y.db.tokens
             && y.past.issued[f][k] !in PruneTokens(y.db, cutoff, now).tokens
    ensures var y := Run(START, clients, steps);
            var gone := y.db.tokens[y.past.issued[f][k]];
            && gone.createdAt < cutoff && (gone.revokedAt.Some? || gone.expiresAt < now)
            && y.past.issued[f][i] !in PruneTokens(y.db, cutoff, now).tokens
  {
    var st := Step(now, PruneOldTokens(cutoff));
    Split(START, clients, steps, [st]);
    Reached(clients, steps);
    PruneStretch(Run(START, clients, steps), clients, st, f);
  }

  /**
   * Pruning old sessions locks out a usable token if and only if the session of its family is
   * prunable: created before the cutoff and past its own deadline, however new the token is.
   */
  lemma PruningLocksOutExactly(clients: Clients, steps: seq<Step>, cutoff: int, at: int, call: RefreshCall, now: int,
                               f: string)
    requires Legal(START, clients, steps + [Step(at, PruneOldSessions(cutoff))])
    requires Usable(Run(START, clients, steps), clients, call, now, f)
    ensures var session := Run(START, clients, steps).db.sessions[f];
            var reply := ReplyTo(Run(START, clients, steps + [Step(at, PruneOldSessions(cutoff))]), clients, call, now);
            && (reply.Issued? <==> session.createdAt >= cutoff || session.expiresAt >= at)
            && (reply.Issued? <==> !SessionPrunable(session, cutoff, at))
            && (!reply.Issued? ==> reply == Refused(SessionEnded))
  {
    var st := Step(at, PruneOldSessions(cutoff));
    LastStep(clients, steps, st);
    Reached(clients, steps);
    PrunedUsable(Run(START, clients, steps), clients, cutoff, at, call, now, f);
  }

  lemma PrunedUsable(y: System, clients: Clients, cutoff: int, at: int, call: RefreshCall, now: int, f: string)
    requires Inv(y, clients) && Usable(y, clients, call, now, f)
    ensures var reply := ReplyTo(Next(y, clients, Step(at, PruneOldSessions(cutoff))), clients, call, now);
            && (reply.Issued? <==> !SessionPrunable(y.db.sessions[f], cutoff, at))
            && (!reply.Issued? ==> reply == Refused(SessionEnded))
  {
    UsableRow(y, clients, call, now, f);
    PrunedReply(y.db, clients, cutoff, at, call, now, f);
  }

  lemma LastStep(clients: Clients, steps: seq<Step>, st: Step)
    requires Legal(START, clients, steps + [st])
    ensures Legal(START, clients, steps) && Enabled(Run(START, clients, steps), st)
    ensures Run(START, clients, steps + [st]) == Next(Run(START, clients, steps), clients, st)
  {
    Split(START, clients, steps, [st]);
    assert [st][1..] == [];
  }

  lemma PrunedReply(t: Tables, clients: Clients, cutoff: int, at: int, call: RefreshCall, now: int, f: string)
    requires call.token in t.tokens && t.tokens[call.token].family == Some(f)
    requires t.tokens[call.token].revokedAt.None? && now <= t.tokens[call.token].expiresAt
    requires call.subject == Some(t.tokens[call.token].user) && call.userActive && !OriginRefused(clients, call)
    requires !SessionGone(t, f)
    ensures var reply := Refresh(PruneSessions(t, cutoff, at), clients, call, now).1;
            && (reply.Issued? <==> !SessionPrunable(t.sessions[f], cutoff, at))
            && (!reply.Issued? ==> reply == Refused(SessionEnded))
  {
    SessionPruned(t, cutoff, at, f);
    RefreshHangsOnSession(PruneSessions(t, cutoff, at), clients, call, now, f);
  }

  lemma UsableRow(y: System, clients: Clients, call: RefreshCall, now: int, f: string)
    requires Inv(y, clients) && Usable(y, clients, call, now, f)
    ensures var t := y.db.tokens[call.token]; t.family == Some(f) && t.user == y.past.owner[f]
  {
    assert FamilyOk(y, clients, f) && RowOk(y, f, |y.past.issued[f]| - 1);
  }

  lemma SessionPruned(t: Tables, cutoff: int, now: int, f: string)
    requires !SessionGone(t, f)
    ensures SessionGone(PruneSessions(t, cutoff, now), f) <==> SessionPrunable(t.sessions[f], cutoff, now)
  {}

  lemma RefreshHangsOnSession(t: Tables, clients: Clients, call: RefreshCall, now: int, f: string)
    requires call.token in t.tokens && t.tokens[call.token].family == Some(f)
    requires t.tokens[call.token].revokedAt.None? && now <= t.tokens[call.token].expiresAt
    requires call.subject == Some(t.tokens[call.token].user) && call.userActive && !OriginRefused(clients, call)
    ensures Refresh(t, clients, call, now).1.Issued? <==> !SessionGone(t, f)
    ensures SessionGone(t, f) ==> Refresh(t, clients, call, now).1 == Refused(SessionEnded)
  {}

  /** Such a family can be in daily use, because rotation renews the tokens and not the session. */
  lemma PruningCanLockOut(clients: Clients)
    ensures var steps := [Step(0, LogIn("u", "c", "s", "t0", "ip", 10)),
                          Step(10, RefreshWith(RefreshCall(Some("u"), "t0", true, None, None, "t1", 10))),
                          Step(11, PruneOldSessions(1))];
            var y := Run(START, clients, steps);
            && Legal(START, clients, steps)
            && "t1" in y.db.tokens && y.db.tokens["t1"].revokedAt.None? && y.db.tokens["t1"].expiresAt == 20
            && ReplyTo(y, clients, RefreshCall(Some("u"), "t1", true, None, None, "t2", 10), 12)
                == Refused(SessionEnded)
  {
    var a := Step(0, LogIn("u", "c", "s", "t0", "ip", 10));
    var b := Step(10, RefreshWith(RefreshCall(Some("u"), "t0", true, None, None, "t1", 10)));
    var c := Step(11, PruneOldSessions(1));
    var y1 := Next(START, clients, a);
    assert y1.db.tokens.Keys == {"t0"};
    var y2 := Next(y1, clients, b);
    assert y2.db.tokens["t1"].revokedAt.None?;
    var y3 := Next(y2, clients, c);
    assert "s" !in y3.db.sessions;
    ThreeSteps(clients, a, b, c);
  }
}
