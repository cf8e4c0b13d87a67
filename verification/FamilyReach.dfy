/**
 * How far each call reaches: which rows of which families it changes and into what, which families
 * it leaves alone, for how long a token works, and what a refused refresh is told
 * (src/modules/auth/auth.service.ts).
 */
module FamilyReach {
  import opened Common
  import opened RefreshTokens
  import opened TokenFamilies

  // --- What the calls of a user revoke -----------------------------------------------------

  /** The call revokes the tokens of this family. */
  ghost predicate TakesTokens(y: System, a: Action, g: string)
    requires g in y.past.owner
  {
    match a
    case LogOut(user, presented, _) =>
      user == y.past.owner[g] && presented.Some? && presented.value in y.db.tokens
      && y.db.tokens[presented.value].family == Some(g)
    case RevokeIds(user, ids, _) => user == y.past.owner[g] && g in ids
    case RevokeAll(user, exclude, _) => user == y.past.owner[g] && exclude != Some(g) && !SessionGone(y.db, g)
    case PasswordReset(user) => user == y.past.owner[g]
    case _ => false
  }

  /** The call revokes the session of this family. */
  ghost predicate TakesSession(y: System, a: Action, g: string)
    requires g in y.past.owner
  {
    match a
    case LogOut(user, presented, address) =>
      user == y.past.owner[g]
      && if presented.Some? && presented.value in y.db.tokens then y.db.tokens[presented.value].family == Some(g)
         else address.Some? && g in y.db.sessions ==> y.db.sessions[g].ip == address.value
    case RevokeIds(user, ids, _) => user == y.past.owner[g] && g in ids
    case RevokeAll(user, exclude, _) => user == y.past.owner[g] && exclude != Some(g)
    case AdminRevoke(user) => user == y.past.owner[g]
    case _ => false
  }

  /** The reason the call writes, if it writes one. */
  function Because(a: Action): Option<Reason> {
    match a
    case LogOut(_, _, _) => Some(LoggedOut)
    case RevokeIds(_, _, reason) => Some(Given(reason))
    case RevokeAll(_, _, reason) => Some(Given(reason))
    case _ => None
  }

  /** A row after the call: revoked now and for its reason if it was live and the call takes it, otherwise as it was. */
  ghost predicate TokenAfter(t: Token, u: Token, taken: bool, why: Option<Reason>, now: int) {
    if taken && t.revokedAt.None? then u == t.(revokedAt := Some(now), reason := why) else u == t
  }

  ghost predicate SessionAfter(t: Session, u: Session, taken: bool, why: Option<Reason>, now: int) {
    if taken && t.revokedAt.None?
    then u == t.(revokedAt := Some(now), reason := if why.Some? then why else t.reason)
    else u == t
  }

  /** Exactly what a logout, a revocation or a reset in some user's name does to every family. */
  lemma RevokesExactly(clients: Clients, steps: seq<Step>, st: Step, g: string)
    requires Legal(START, clients, steps + [st]) && Actor(st.action).Some?
    requires g in Run(START, clients, steps).past.issued
    ensures g in Run(START, clients, steps).past.owner
    ensures var y, z := Run(START, clients, steps), Run(START, clients, steps + [st]);
            && z.db.tokens.Keys == y.db.tokens.Keys && z.db.sessions.Keys == y.db.sessions.Keys
            && (forall id :: id in y.db.tokens && y.db.tokens[id].family == Some(g) ==>
                  TokenAfter(y.db.tokens[id], z.db.tokens[id], TakesTokens(y, st.action, g), Because(st.action),
                             st.now))
            && (g in y.db.sessions ==>
                  SessionAfter(y.db.sessions[g], z.db.sessions[g], TakesSession(y, st.action, g),
                               Because(st.action), st.now))
  {
    LastStep(clients, steps, st);
    Reached(clients, steps);
    var y := Run(START, clients, steps);
    OneOwner(y, clients, g);
    UnrevokedHasNoReason(y, clients);
    AllInFamilies(y, clients);
    RowsAfter(y, clients, st, g);
    SessionsAfter(y, clients, st, g);
  }

  lemma AllInFamilies(y: System, clients: Clients)
    requires Inv(y, clients)
    ensures forall id :: id in y.db.tokens ==> y.db.tokens[id].family.Some?
  {
    forall id | id in y.db.tokens ensures y.db.tokens[id].family.Some? {
      assert TokenListed(y, id);
    }
  }

  ghost predicate UnrevokedUnexplained(t: Tables) {
    forall id :: id in t.tokens && t.tokens[id].revokedAt.None? ==> t.tokens[id].reason.None?
  }

  lemma RowsAfter(y: System, clients: Clients, st: Step, g: string)
    requires Actor(st.action).Some? && g in y.past.owner && Owned(y.db, y.past.owner[g], g)
    requires UnrevokedUnexplained(y.db) && forall id :: id in y.db.tokens ==> y.db.tokens[id].family.Some?
    ensures var z := Next(y, clients, st);
            && z.db.tokens.Keys == y.db.tokens.Keys
            && (forall id :: id in y.db.tokens && y.db.tokens[id].family == Some(g) ==>
                  TokenAfter(y.db.tokens[id], z.db.tokens[id], TakesTokens(y, st.action, g), Because(st.action),
                             st.now))
  {
    match st.action
    case RevokeAll(user, exclude, reason) =>
      assert g in LiveSessions(y.db, user, exclude) <==>
        user == y.past.owner[g] && exclude != Some(g) && !SessionGone(y.db, g);
    case _ =>
  }

  lemma SessionsAfter(y: System, clients: Clients, st: Step, g: string)
    requires Actor(st.action).Some? && g in y.past.owner && Owned(y.db, y.past.owner[g], g)
    requires forall id :: id in y.db.tokens ==> y.db.tokens[id].family.Some?
    ensures var z := Next(y, clients, st);
            && z.db.sessions.Keys == y.db.sessions.Keys
            && (g in y.db.sessions ==>
                  SessionAfter(y.db.sessions[g], z.db.sessions[g], TakesSession(y, st.action, g),
                               Because(st.action), st.now))
  {
    match st.action
    case RevokeAll(user, exclude, reason) =>
      assert g in y.db.sessions ==> (g in LiveSessions(y.db, user, exclude) <==>
                                     user == y.past.owner[g] && exclude != Some(g) && !SessionGone(y.db, g));
    case _ =>
  }

  // --- A replay ----------------------------------------------------------------------------------

  /** The token was issued to the family and another one was issued after it. */
  ghost predicate Outdated(y: System, token: string, f: string) {
    && f in y.past.issued && token in y.db.tokens
    && exists i :: 0 <= i < |y.past.issued[f]| - 1 && y.past.issued[f][i] == token
  }

  lemma OutdatedIsRotated(y: System, clients: Clients, token: string, f: string)
    requires Inv(y, clients) && Outdated(y, token, f)
    ensures var t := y.db.tokens[token]; t.family == Some(f) && t.revokedAt.Some? && t.reason == Some(Rotated)
  {
    assert FamilyOk(y, clients, f);
    var i :| 0 <= i < |y.past.issued[f]| - 1 && y.past.issued[f][i] == token;
    assert RowOk(y, f, i);
  }

  /** An outdated token presented for the first time ends its family and is marked; presented again it does nothing. */
  lemma ReplayExactly(clients: Clients, steps: seq<Step>, call: RefreshCall, at: int, f: string)
    requires Legal(START, clients, steps + [Step(at, RefreshWith(call))])
    requires call.subject.Some? && Outdated(Run(START, clients, steps), call.token, f)
    ensures var y, z := Run(START, clients, steps), Run(START, clients, steps + [Step(at, RefreshWith(call))]);
            && ReplyTo(y, clients, call, at) == Refused(TokenReused)
            && (y.db.tokens[call.token].reusedAt.Some? ==> z.db == y.db)
            && (y.db.tokens[call.token].reusedAt.None? ==> ReplayedAt(y.db, z.db, call.token, f, at))
  {
    var st, y := Step(at, RefreshWith(call)), Run(START, clients, steps);
    LastStep(clients, steps, st);
    Reached(clients, steps);
    OutdatedIsRotated(y, clients, call.token, f);
    OneOwner(y, clients, f);
    UnrevokedHasNoReason(y, clients);
    ReplayNext(y, clients, st);
    FirstReplay(y.db, call, f, at);
  }

  ghost predicate ReplayedAt(t: Tables, u: Tables, token: string, f: string, at: int)
    requires token in t.tokens
  {
    && u.tokens.Keys == t.tokens.Keys && u.sessions.Keys == t.sessions.Keys
    && u.tokens[token] == t.tokens[token].(reusedAt := Some(at))
    && (forall id :: id in t.tokens && id != token ==>
          TokenAfter(t.tokens[id], u.tokens[id], t.tokens[id].family == Some(f), Some(ReuseDetected), at))
    && (forall g :: g in t.sessions ==>
          SessionAfter(t.sessions[g], u.sessions[g], g == f, Some(ReuseDetected), at))
  }

  lemma FirstReplay(t: Tables, call: RefreshCall, f: string, at: int)
    requires call.token in t.tokens && t.tokens[call.token].family == Some(f)
    requires t.tokens[call.token].revokedAt.Some? && Owned(t, t.tokens[call.token].user, f) && UnrevokedUnexplained(t)
    ensures t.tokens[call.token].reusedAt.Some? ==> Replay(t, call, at) == t
    ensures t.tokens[call.token].reusedAt.None? ==> ReplayedAt(t, Replay(t, call, at), call.token, f, at)
  {}

  // --- The families a call is not about ------------------------------------------------------------

  ghost predicate About(y: System, a: Action, g: string)
    requires g in y.past.owner
  {
    match a
    case LogIn(_, _, _, _, _, _) => false
    case RefreshWith(call) => FamilyOf(y, call.token) == Some(g)
    case PruneOldTokens(_) => true
    case PruneOldSessions(_) => true
    case _ => TakesTokens(y, a, g) || TakesSession(y, a, g)
  }

  /** A call leaves every family it is not about as it was, also those of the same user. */
  lemma OtherFamiliesUntouched(clients: Clients, steps: seq<Step>, st: Step, g: string)
    requires Legal(START, clients, steps + [st])
    requires g in Run(START, clients, steps).past.issued && g in Run(START, clients, steps).past.owner
    requires !About(Run(START, clients, steps), st.action, g)
    ensures var y, z := Run(START, clients, steps), Run(START, clients, steps + [st]);
            && Untouched(y.db, z.db, g) && g in z.past.issued && z.past.issued[g] == y.past.issued[g]
            && g in z.past.owner && z.past.owner[g] == y.past.owner[g]
  {
    var y := Run(START, clients, steps);
    LastStep(clients, steps, st);
    Reached(clients, steps);
    if Actor(st.action).Some? {
      RevokesExactly(clients, steps, st, g);
      assert Next(y, clients, st).past == y.past;
    } else if st.action.RefreshWith? {
      RefreshElsewhere(y, clients, st, g);
    } else {
      StepShape(y, clients, st);
    }
  }

  lemma RefreshElsewhere(y: System, clients: Clients, st: Step, g: string)
    requires Inv(y, clients) && Enabled(y, st) && st.action.RefreshWith? && g in y.past.issued && g in y.past.owner
    requires FamilyOf(y, st.action.call.token) != Some(g)
    ensures var z := Next(y, clients, st);
            && Untouched(y.db, z.db, g) && g in z.past.issued && z.past.issued[g] == y.past.issued[g]
            && g in z.past.owner && z.past.owner[g] == y.past.owner[g]
  {
    var call, z := st.action.call, Next(y, clients, st);
    StepShape(y, clients, st);
    if Rotates(y, clients, st) {
      RotatedElsewhere(y, clients, z, call.token, call.minted, FamilyOf(y, call.token).value, g);
    } else if IsReplay(y.db, call) {
      ReplayElsewhere(y, clients, call, st.now, g);
      ReplayNext(y, clients, st);
    } else {
      RefusedElsewhere(y.db, clients, call, st.now);
      RefusedNext(y, clients, st);
    }
  }

  lemma RotatedElsewhere(y: System, clients: Clients, z: System, x: string, m: string, f: string, g: string)
    requires RotatedTo(y, clients, z, x, m, f) && f != g && g in y.past.issued && g in y.past.owner
    ensures Untouched(y.db, z.db, g) && g in z.past.issued && z.past.issued[g] == y.past.issued[g]
    ensures g in z.past.owner && z.past.owner[g] == y.past.owner[g]
  {}

  lemma ReplayElsewhere(y: System, clients: Clients, call: RefreshCall, now: int, g: string)
    requires Inv(y, clients) && IsReplay(y.db, call) && FamilyOf(y, call.token) != Some(g)
    ensures Untouched(y.db, Replay(y.db, call, now), g)
  {
    var i := Seat(y, clients, call.token);
    var f := y.db.tokens[call.token].family.value;
    OneOwner(y, clients, f);
    UnrevokedHasNoReason(y, clients);
    FirstReplay(y.db, call, f, now);
    if y.db.tokens[call.token].reusedAt.None? {
      ReplayedElsewhere(y.db, Replay(y.db, call, now), call.token, f, now, g);
    }
  }

  lemma ReplayedElsewhere(t: Tables, u: Tables, token: string, f: string, at: int, g: string)
    requires token in t.tokens && t.tokens[token].family == Some(f) && ReplayedAt(t, u, token, f, at) && f != g
    ensures Untouched(t, u, g)
  {}

  lemma RefusedNext(y: System, clients: Clients, st: Step)
    requires st.action.RefreshWith? && Refresh(y.db, clients, st.action.call, st.now).1.Refused?
    ensures Next(y, clients, st) == System(Refresh(y.db, clients, st.action.call, st.now).0, st.now, y.past)
  {}

  /** A refresh that is refused and is no replay changes at most the presented row. */
  lemma RefusedElsewhere(t: Tables, clients: Clients, call: RefreshCall, now: int)
    requires !IsReplay(t, call) && Refresh(t, clients, call, now).1.Refused?
    ensures var u := Refresh(t, clients, call, now).0;
            && u.sessions == t.sessions && u.tokens.Keys == t.tokens.Keys
            && forall id :: id in t.tokens && id != call.token ==> u.tokens[id] == t.tokens[id]
  {}

  /** So a token that worked in such a family still works. */
  lemma StillUsable(clients: Clients, steps: seq<Step>, st: Step, g: string, call: RefreshCall, now: int)
    requires Legal(START, clients, steps + [st]) && Usable(Run(START, clients, steps), clients, call, now, g)
    requires !About(Run(START, clients, steps), st.action, g)
    ensures Usable(Run(START, clients, steps + [st]), clients, call, now, g)
    ensures ReplyTo(Run(START, clients, steps + [st]), clients, call, now).Issued?
  {
    OtherFamiliesUntouched(clients, steps, st, g);
    LastStep(clients, steps, st);
    Reached(clients, steps);
    UsableKept(Run(START, clients, steps), clients, Run(START, clients, steps + [st]), call, now, g);
    IssuedExactly(clients, steps + [st], call, now);
  }

  lemma UsableKept(y: System, clients: Clients, z: System, call: RefreshCall, now: int, g: string)
    requires Inv(y, clients) && Usable(y, clients, call, now, g) && Untouched(y.db, z.db, g)
    requires g in z.past.issued && z.past.issued[g] == y.past.issued[g]
    requires g in z.past.owner && z.past.owner[g] == y.past.owner[g]
    ensures Usable(z, clients, call, now, g)
  {
    UsableRow(y, clients, call, now, g);
  }

  // --- How long a token works ------------------------------------------------------------------------

  /** A token given out at a login works for its owner through its lifetime, to the millisecond. */
  lemma LoginTokenLife(clients: Clients, steps: seq<Step>, st: Step, call: RefreshCall, now: int)
    requires Legal(START, clients, steps + [st]) && st.action.LogIn?
    requires call.token == st.action.token && call.subject == Some(st.action.user) && call.userActive
    requires FromAllowedOrigin(clients, call)
    ensures ReplyTo(Run(START, clients, steps + [st]), clients, call, now).Issued? <==> now <= st.now + st.action.ttl
    ensures now > st.now + st.action.ttl ==>
              ReplyTo(Run(START, clients, steps + [st]), clients, call, now) == Refused(TokenRevoked)
  {
    LastStep(clients, steps, st);
    LiveRowReply(Run(START, clients, steps + [st]).db, clients, call, now, st.action.session);
  }

  /** The answer to the owner of a live row in a live session hangs on the deadline alone. */
  lemma LiveRowReply(t: Tables, clients: Clients, call: RefreshCall, now: int, f: string)
    requires call.token in t.tokens && t.tokens[call.token].family == Some(f) && !SessionGone(t, f)
    requires t.tokens[call.token].revokedAt.None? && call.subject == Some(t.tokens[call.token].user)
    requires call.userActive && FromAllowedOrigin(clients, call)
    ensures var reply := Refresh(t, clients, call, now).1;
            && (reply.Issued? <==> now <= t.tokens[call.token].expiresAt)
            && (now > t.tokens[call.token].expiresAt ==> reply == Refused(TokenRevoked))
  {}

  /** And so does one given out by a refresh, counted from that refresh. */
  lemma RefreshedTokenLife(clients: Clients, steps: seq<Step>, st: Step, call: RefreshCall, now: int)
    requires Legal(START, clients, steps + [st]) && st.action.RefreshWith?
    requires ReplyTo(Run(START, clients, steps), clients, st.action.call, st.now).Issued?
    requires call.token == st.action.call.minted && call.subject == st.action.call.subject && call.userActive
    requires FromAllowedOrigin(clients, call)
    ensures ReplyTo(Run(START, clients, steps + [st]), clients, call, now).Issued?
            <==> now <= st.now + st.action.call.ttl
    ensures now > st.now + st.action.call.ttl ==>
              ReplyTo(Run(START, clients, steps + [st]), clients, call, now) == Refused(TokenRevoked)
  {
    LastStep(clients, steps, st);
    Reached(clients, steps);
    var y := Run(START, clients, steps);
    AllInFamilies(y, clients);
    UnusedHash(y, clients, call.token);
    SuccessorRow(y.db, clients, st.action.call, st.now);
    LiveRowReply(Run(START, clients, steps + [st]).db, clients, call, now, FamilyOf(y, st.action.call.token).value);
  }

  lemma SuccessorRow(t: Tables, clients: Clients, call: RefreshCall, now: int)
    requires Refresh(t, clients, call, now).1.Issued? && call.minted !in t.tokens && t.tokens[call.token].family.Some?
    ensures var u, f := Refresh(t, clients, call, now).0, t.tokens[call.token].family.value;
            && call.minted in u.tokens && u.tokens[call.minted].family == Some(f) && !SessionGone(u, f)
            && u.tokens[call.minted].revokedAt.None? && call.subject == Some(u.tokens[call.minted].user)
            && u.tokens[call.minted].expiresAt == now + call.ttl
  {}

  /** The session row is pruned only when it is both old and past the lifetime it was given at login. */
  lemma SessionLife(clients: Clients, steps: seq<Step>, st: Step, cutoff: int, at: int)
    requires Legal(START, clients, steps + [st]) && st.action.LogIn?
    ensures var z, f := Run(START, clients, steps + [st]), st.action.session;
            && f in z.db.sessions && z.db.sessions[f].ip == st.action.ip && z.db.sessions[f].client == st.action.client
            && (f !in PruneSessions(z.db, cutoff, at).sessions <==> st.now < cutoff && st.now + st.action.ttl < at)
  {
    LastStep(clients, steps, st);
  }

  /** Pruning takes exactly the rows that are old and of no more use. */
  lemma PrunedExactly(t: Tables, cutoff: int, now: int)
    ensures forall id :: id in t.tokens ==>
              (id !in PruneTokens(t, cutoff, now).tokens
               <==> t.tokens[id].createdAt < cutoff && (t.tokens[id].revokedAt.Some? || t.tokens[id].expiresAt < now))
    ensures forall id :: id in t.sessions ==>
              (id !in PruneSessions(t, cutoff, now).sessions
               <==> t.sessions[id].createdAt < cutoff
                    && (t.sessions[id].revokedAt.Some? || t.sessions[id].expiresAt < now))
  {}

  // --- What the caller is told ----------------------------------------------------------------------------

  /**
   * The next token goes to the named client exactly when that one has an audience, and the bound one is the internal
   * client and has none; otherwise it stays with the bound one.
   */
  ghost predicate Renamed(clients: Clients, bound: string, requested: Option<string>, client: string) {
    && (client == bound || (requested == Some(client) && bound == clients.internal))
    && (requested.Some? && bound == clients.internal ==>
          (client == requested.value
           <==> requested.value == bound
                || (Audience(clients, requested.value) != "" && Audience(clients, bound) == "")))
  }

  lemma RebindsExactly(clients: Clients, steps: seq<Step>, call: RefreshCall, now: int, f: string)
    requires Legal(START, clients, steps) && Usable(Run(START, clients, steps), clients, call, now, f)
    ensures var y := Run(START, clients, steps);
            var reply := ReplyTo(y, clients, call, now);
            && f in y.past.bound && y.past.bound[f] != [] && reply.Issued? && reply.token == call.minted
            && Renamed(clients, y.past.bound[f][|y.past.bound[f]| - 1], call.requested, reply.client)
  {
    Reached(clients, steps);
    var y := Run(START, clients, steps);
    BoundToLast(y, clients, call, now, f);
    NamedClient(y.db, clients, call, now);
  }

  lemma BoundToLast(y: System, clients: Clients, call: RefreshCall, now: int, f: string)
    requires Inv(y, clients) && Usable(y, clients, call, now, f)
    ensures f in y.past.bound && y.past.bound[f] != [] && ReplyTo(y, clients, call, now).Issued?
    ensures y.db.tokens[call.token].client == y.past.bound[f][|y.past.bound[f]| - 1]
  {
    UsableRow(y, clients, call, now, f);
    assert FamilyOk(y, clients, f) && RowOk(y, f, |y.past.issued[f]| - 1);
    IssuedInFamily(y, clients, call, now, f, |y.past.issued[f]| - 1);
  }

  lemma NamedClient(t: Tables, clients: Clients, call: RefreshCall, now: int)
    requires Refresh(t, clients, call, now).1.Issued?
    ensures var reply := Refresh(t, clients, call, now).1;
            reply.token == call.minted && Renamed(clients, t.tokens[call.token].client, call.requested, reply.client)
  {}

  function Audience(clients: Clients, client: string): string {
    if client in clients.audience then clients.audience[client] else ""
  }

  /** Why a token that has a row is refused, in terms of its place in the family. */
  lemma RefusalExactly(clients: Clients, steps: seq<Step>, call: RefreshCall, now: int, f: string)
    requires Legal(START, clients, steps) && FamilyOf(Run(START, clients, steps), call.token) == Some(f)
    ensures f in Run(START, clients, steps).past.owner
    ensures var y := Run(START, clients, steps);
            var t, reply, owner := y.db.tokens[call.token], ReplyTo(y, clients, call, now), y.past.owner[f];
            var live := !Outdated(y, call.token, f) && t.revokedAt.None? && now <= t.expiresAt && call.subject.Some?;
            && (reply == Refused(TokenReused) <==> call.subject.Some? && Outdated(y, call.token, f))
            && (reply == Refused(TokenRevoked)
                <==> call.subject.Some? && !Outdated(y, call.token, f) && (t.revokedAt.Some? || now > t.expiresAt))
            && (reply == Refused(TokenInvalid)
                <==> call.subject.None? || (live && call.subject != Some(owner)))
            && (live && call.subject == Some(owner) ==>
                  && (reply == Refused(AccountInactive) <==> !call.userActive)
                  && (reply == Refused(SessionEnded) <==> call.userActive && SessionGone(y.db, f))
                  && (reply == Refused(InvalidOrigin)
                      <==> call.userActive && !SessionGone(y.db, f) && !FromAllowedOrigin(clients, call)))
  {
    Reached(clients, steps);
    var y := Run(START, clients, steps);
    OneOwner(y, clients, f);
    InFamily(y, clients, call.token, f);
    RefusalOfRow(y.db, clients, call, now, f, Outdated(y, call.token, f));
  }

  lemma InFamily(y: System, clients: Clients, token: string, f: string)
    requires Inv(y, clients) && FamilyOf(y, token) == Some(f)
    ensures f in y.past.owner && y.db.tokens[token].user == y.past.owner[f]
    ensures var t := y.db.tokens[token];
            Outdated(y, token, f) <==> t.revokedAt.Some? && t.reason == Some(Rotated)
  {
    OneOwner(y, clients, f);
    var i := Seat(y, clients, token);
    if Outdated(y, token, f) {
      OutdatedIsRotated(y, clients, token, f);
    }
  }

  lemma RefusalOfRow(t: Tables, clients: Clients, call: RefreshCall, now: int, f: string, outdated: bool)
    requires call.token in t.tokens && t.tokens[call.token].family == Some(f)
    requires outdated <==> t.tokens[call.token].revokedAt.Some? && t.tokens[call.token].reason == Some(Rotated)
    ensures var row, reply := t.tokens[call.token], Refresh(t, clients, call, now).1;
            var live := !outdated && row.revokedAt.None? && now <= row.expiresAt && call.subject.Some?;
            && (reply == Refused(TokenReused) <==> call.subject.Some? && outdated)
            && (reply == Refused(TokenRevoked)
                <==> call.subject.Some? && !outdated && (row.revokedAt.Some? || now > row.expiresAt))
            && (reply == Refused(TokenInvalid) <==> call.subject.None? || (live && call.subject != Some(row.user)))
            && (live && call.subject == Some(row.user) ==>
                  && (reply == Refused(AccountInactive) <==> !call.userActive)
                  && (reply == Refused(SessionEnded) <==> call.userActive && SessionGone(t, f))
                  && (reply == Refused(InvalidOrigin)
                      <==> call.userActive && !SessionGone(t, f) && !FromAllowedOrigin(clients, call)))
  {}

  /**
   * What a refusal other than for reuse leaves: a live token whose session is over is revoked for that, and from then
   * on refused as revoked; any other refusal changes nothing.
   */
  lemma RefusalLeaves(t: Tables, clients: Clients, call: RefreshCall, now: int, again: RefreshCall, later: int)
    requires Refresh(t, clients, call, now).1.Refused? && Refresh(t, clients, call, now).1 != Refused(TokenReused)
    requires again.token == call.token && again.subject.Some?
    ensures var (u, reply) := Refresh(t, clients, call, now);
            && (reply != Refused(SessionEnded) ==> u == t)
            && (reply == Refused(SessionEnded) ==>
                  && call.token in t.tokens && u.sessions == t.sessions
                  && u.tokens == t.tokens[call.token := t.tokens[call.token].(revokedAt := Some(now),
                                                                             reason := Some(SessionRevoked))]
                  && Refresh(u, clients, again, later) == (u, Refused(TokenRevoked)))
  {}

  /** A password reset and an administrator's revocation write no reason: the column stays as it is. */
  lemma ReasonsStay(t: Tables, user: string, now: int)
    ensures forall id :: id in t.tokens ==> ResetPassword(t, user, now).tokens[id].reason == t.tokens[id].reason
    ensures forall id :: id in t.sessions ==>
              RevokeUserSessions(t, user, now).sessions[id].reason == t.sessions[id].reason
  {}

  /** A token without a row, never issued or pruned, is refused as revoked. */
  lemma UnknownRefused(y: System, clients: Clients, call: RefreshCall, now: int)
    requires call.token !in y.db.tokens
    ensures ReplyTo(y, clients, call, now) == Refused(if call.subject.Some? then TokenRevoked else TokenInvalid)
    ensures Refresh(y.db, clients, call, now).0 == y.db
  {}
}
