/**
 * Refresh tokens and login sessions (src/modules/auth/auth.service.ts, with the
 * administrator's revocation of src/modules/admin/admin.service.ts and the pruning
 * of src/services/retentionPruning.service.ts).
 *
 * A token row is found by the hash of the token, which also stands for its id;
 * `None` is a null column.  Each service call is one step on the two tables.
 */
module RefreshTokens {
  import opened Common

  datatype Reason = Rotated | ReuseDetected | LoggedOut | SessionRevoked | Given(text: string)

  datatype Token = Token(user: string, client: string, family: Option<string>, scopes: seq<string>,
                         createdAt: int, expiresAt: int, revokedAt: Option<int>, reason: Option<Reason>,
                         replacedBy: Option<string>, reusedAt: Option<int>)

  datatype Session = Session(user: string, client: string, ip: string, createdAt: int, expiresAt: int,
                             revokedAt: Option<int>, reason: Option<Reason>)

  datatype Tables = Tables(tokens: map<string, Token>, sessions: map<string, Session>)

  /**
   * `audience` lists the clients that have one of their own; an empty string counts as none.
   * `origins` are the browser origins a client allows.
   */
  datatype Clients = Clients(internal: string, audience: map<string, string>, origins: map<string, set<string>>)

  predicate HasAudience(clients: Clients, client: string) {
    client in clients.audience && clients.audience[client] != ""
  }

  /** Without an origin header there is nothing to check. */
  predicate OriginAllowed(clients: Clients, client: string, origin: Option<string>) {
    origin.Some? ==>
      client in clients.origins && (origin.value in clients.origins[client] || "*" in clients.origins[client])
  }

  const SCOPES := ["openid", "offline_access"]

  // --- updateMany ---------------------------------------------------------------

  datatype TokenWhere =
    | TokensOfFamily(user: string, family: string)
    | TokensOfFamilies(user: string, families: set<string>)
    | TokensOfUser(user: string)
    | TokenOfHash(user: string, hash: string)

  predicate Picks(w: TokenWhere, id: string, t: Token) {
    && t.revokedAt.None? && t.user == w.user
    && match w
       case TokensOfFamily(_, family) => t.family == Some(family)
       case TokensOfFamilies(_, families) => t.family.Some? && t.family.value in families
       case TokensOfUser(_) => true
       case TokenOfHash(_, hash) => id == hash
  }

  /** `reason` None: the update does not write the reason column. */
  function RevokeTokens(tokens: map<string, Token>, w: TokenWhere, reason: Option<Reason>,
                        now: int): map<string, Token> {
    map id | id in tokens ::
      if Picks(w, id, tokens[id])
      then tokens[id].(revokedAt := Some(now), reason := if reason.Some? then reason else tokens[id].reason)
      else tokens[id]
  }

  datatype SessionWhere =
    | OneSession(user: string, id: string)
    | SomeSessions(user: string, ids: set<string>)
    | SessionsOfUser(user: string)
    | SessionsAt(user: string, ip: Option<string>)

  /** An undefined address drops out of the filter. */
  predicate PicksSession(w: SessionWhere, id: string, s: Session) {
    && s.revokedAt.None? && s.user == w.user
    && match w
       case OneSession(_, one) => id == one
       case SomeSessions(_, ids) => id in ids
       case SessionsOfUser(_) => true
       case SessionsAt(_, ip) => ip.None? || s.ip == ip.value
  }

  function RevokeSessions(sessions: map<string, Session>, w: SessionWhere, reason: Option<Reason>,
                          now: int): map<string, Session> {
    map id | id in sessions ::
      if PicksSession(w, id, sessions[id])
      then sessions[id].(revokedAt := Some(now), reason := if reason.Some? then reason else sessions[id].reason)
      else sessions[id]
  }

  /** What an update would touch: the counts it reports are the sizes of these. */
  function PickedTokens(tokens: map<string, Token>, w: TokenWhere): set<string> {
    set id | id in tokens && Picks(w, id, tokens[id])
  }

  function PickedSessions(sessions: map<string, Session>, w: SessionWhere): set<string> {
    set id | id in sessions && PicksSession(w, id, sessions[id])
  }

  // --- The service calls -----------------------------------------------------------

  function Login(t: Tables, user: string, client: string, session: string, token: string, ip: string, ttl: int,
                 now: int): Tables {
    Tables(t.tokens[token := Token(user, client, Some(session), SCOPES, now, now + ttl, None, None, None, None)],
           t.sessions[session := Session(user, client, ip, now, now + ttl, None, None)])
  }

  function RevokeSessionFamily(t: Tables, user: string, family: string, reason: Reason, now: int): Tables {
    Tables(RevokeTokens(t.tokens, TokensOfFamily(user, family), Some(reason), now),
           RevokeSessions(t.sessions, OneSession(user, family), Some(reason), now))
  }

  datatype Code = TokenInvalid | TokenRevoked | TokenReused | AccountInactive | SessionEnded | InvalidOrigin

  datatype Reply = Issued(token: string, client: string) | Refused(code: Code)

  /**
   * `subject` is the verified subject, or None when the signature check fails;
   * `requested` is the active client the request named, if there is one, and `origin`
   * its origin header; `minted` is the hash of the token to be signed.
   */
  datatype RefreshCall = RefreshCall(subject: Option<string>, token: string, userActive: bool,
                                     requested: Option<string>, origin: Option<string>, minted: string, ttl: int)

  predicate OriginRefused(clients: Clients, call: RefreshCall) {
    call.requested.Some? && !OriginAllowed(clients, call.requested.value, call.origin)
  }

  /** The client the next token is bound to. */
  function Rebind(clients: Clients, bound: string, requested: Option<string>): string {
    if requested.Some? && HasAudience(clients, requested.value) && !HasAudience(clients, bound)
       && bound == clients.internal
    then requested.value
    else bound
  }

  predicate SessionGone(t: Tables, session: string) {
    session !in t.sessions || t.sessions[session].revokedAt.Some?
  }

  function Successor(clients: Clients, stored: Token, call: RefreshCall, now: int): Token {
    Token(stored.user, Rebind(clients, stored.client, call.requested), stored.family, stored.scopes,
          now, now + call.ttl, None, None, None, None)
  }

  function Rotate(t: Tables, clients: Clients, call: RefreshCall, now: int): Tables
    requires call.token in t.tokens
  {
    var stored := t.tokens[call.token];
    var created := t.tokens[call.minted := Successor(clients, stored, call, now)];
    t.(tokens := created[call.token := stored.(revokedAt := Some(now), reason := Some(Rotated),
                                               replacedBy := Some(call.minted))])
  }

  /** A rotated token came back: mark it once and end its family. */
  function Replay(t: Tables, call: RefreshCall, now: int): Tables
    requires call.token in t.tokens
  {
    var stored := t.tokens[call.token];
    if stored.reusedAt.Some? then t
    else
      var marked := t.(tokens := t.tokens[call.token := stored.(reusedAt := Some(now))]);
      if stored.family.None? then marked
      else RevokeSessionFamily(marked, stored.user, stored.family.value, ReuseDetected, now)
  }

  function Refresh(t: Tables, clients: Clients, call: RefreshCall, now: int): (r: (Tables, Reply)) {
    if call.subject.None? then (t, Refused(TokenInvalid))
    else if call.token !in t.tokens then (t, Refused(TokenRevoked))
    else
      var stored := t.tokens[call.token];
      if stored.revokedAt.Some? && stored.reason == Some(Rotated) then (Replay(t, call, now), Refused(TokenReused))
      else if stored.revokedAt.Some? || stored.expiresAt < now then (t, Refused(TokenRevoked))
      else if stored.user != call.subject.value then (t, Refused(TokenInvalid))
      else if !call.userActive then (t, Refused(AccountInactive))
      else if stored.family.Some? && SessionGone(t, stored.family.value) then
        (t.(tokens := t.tokens[call.token := stored.(revokedAt := Some(now), reason := Some(SessionRevoked))]),
         Refused(SessionEnded))
      else if OriginRefused(clients, call) then (t, Refused(InvalidOrigin))
      else (Rotate(t, clients, call, now), Issued(call.minted, Rebind(clients, stored.client, call.requested)))
  }

  function Logout(t: Tables, user: string, token: Option<string>, ip: Option<string>, now: int): Tables {
    if token.Some? && token.value in t.tokens && t.tokens[token.value].family.Some? then
      RevokeSessionFamily(t, user, t.tokens[token.value].family.value, LoggedOut, now)
    else
      Tables(if token.Some? then RevokeTokens(t.tokens, TokenOfHash(user, token.value), Some(LoggedOut), now)
             else t.tokens,
             RevokeSessions(t.sessions, SessionsAt(user, ip), Some(LoggedOut), now))
  }

  function RevokeSessionsByIds(t: Tables, user: string, ids: set<string>, reason: string, now: int): Tables {
    Tables(RevokeTokens(t.tokens, TokensOfFamilies(user, ids), Some(Given(reason)), now),
           RevokeSessions(t.sessions, SomeSessions(user, ids), Some(Given(reason)), now))
  }

  function LiveSessions(t: Tables, user: string, exclude: Option<string>): set<string> {
    set id | id in t.sessions && t.sessions[id].user == user && t.sessions[id].revokedAt.None? && Some(id) != exclude
  }

  function RevokeAllSessions(t: Tables, user: string, exclude: Option<string>, reason: string, now: int): Tables {
    RevokeSessionsByIds(t, user, LiveSessions(t, user, exclude), reason, now)
  }

  /** The administrator's revocation touches sessions only. */
  function RevokeUserSessions(t: Tables, user: string, now: int): Tables {
    t.(sessions := RevokeSessions(t.sessions, SessionsOfUser(user), None, now))
  }

  /** A password reset touches tokens only, and writes no reason. */
  function ResetPassword(t: Tables, user: string, now: int): Tables {
    t.(tokens := RevokeTokens(t.tokens, TokensOfUser(user), None, now))
  }

  predicate TokenPrunable(t: Token, cutoff: int, now: int) {
    t.createdAt < cutoff && (t.revokedAt.Some? || t.expiresAt < now)
  }

  predicate SessionPrunable(s: Session, cutoff: int, now: int) {
    s.createdAt < cutoff && (s.revokedAt.Some? || s.expiresAt < now)
  }

  function PruneTokens(t: Tables, cutoff: int, now: int): Tables {
    t.(tokens := map id | id in t.tokens && !TokenPrunable(t.tokens[id], cutoff, now) :: t.tokens[id])
  }

  function PruneSessions(t: Tables, cutoff: int, now: int): Tables {
    t.(sessions := map id | id in t.sessions && !SessionPrunable(t.sessions[id], cutoff, now) :: t.sessions[id])
  }

  // --- The service -----------------------------------------------------------------

  class AuthService {
    var tokens: map<string, Token>
    var sessions: map<string, Session>
    const clients: Clients

    function View(): Tables
      reads this
    {
      Tables(tokens, sessions)
    }

    constructor (clients: Clients)
      ensures this.clients == clients && View() == Tables(map[], map[])
    {
      this.clients := clients;
      tokens, sessions := map[], map[];
    }

    method LoginUser(user: string, client: Option<string>, session: string, token: string, ip: string, ttl: int,
                     now: int)
      modifies this
      ensures View() == Login(old(View()), user, OrElse(client, clients.internal), session, token, ip, ttl, now)
    {
      var bound := OrElse(client, clients.internal);
      sessions := sessions[session := Session(user, bound, ip, now, now + ttl, None, None)];
      tokens := tokens[token := Token(user, bound, Some(session), SCOPES, now, now + ttl, None, None, None, None)];
    }

    method RevokeFamily(user: string, family: string, reason: Reason, now: int)
      modifies this
      ensures View() == RevokeSessionFamily(old(View()), user, family, reason, now)
      ensures forall id :: id in tokens ==>
                && id in old(tokens)
                && var t := old(tokens)[id];
                && tokens[id] == if t.user == user && t.family == Some(family) && t.revokedAt == None
                                 then t.(revokedAt := Some(now), reason := Some(reason))
                                 else t
    {
      tokens := RevokeTokens(tokens, TokensOfFamily(user, family), Some(reason), now);
      sessions := RevokeSessions(sessions, OneSession(user, family), Some(reason), now);
    }

    method RefreshTokens(call: RefreshCall, now: int) returns (reply: Reply)
      modifies this
      ensures (View(), reply) == Refresh(old(View()), clients, call, now)
    {
      if call.subject.None? {
        return Refused(TokenInvalid);
      }
      if call.token !in tokens {
        return Refused(TokenRevoked);
      }
      var stored := tokens[call.token];
      if stored.revokedAt.Some? || stored.expiresAt < now {
        if stored.revokedAt.Some? && stored.reason == Some(Rotated) {
          if stored.reusedAt.None? {
            tokens := tokens[call.token := stored.(reusedAt := Some(now))];
            if stored.family.Some? {
              RevokeFamily(stored.user, stored.family.value, ReuseDetected, now);
            }
          }
          return Refused(TokenReused);
        }
        return Refused(TokenRevoked);
      }
      if stored.user != call.subject.value {
        return Refused(TokenInvalid);
      }
      if !call.userActive {
        return Refused(AccountInactive);
      }
      if stored.family.Some? {
        var id := stored.family.value;
        if id !in sessions || sessions[id].revokedAt.Some? {
          tokens := tokens[call.token := stored.(revokedAt := Some(now), reason := Some(SessionRevoked))];
          return Refused(SessionEnded);
        }
      }
      var effective := stored.client;
      if call.requested.Some? {
        if call.origin.Some? {
          var origin, client := call.origin.value, call.requested.value;
          if client !in clients.origins || (origin !in clients.origins[client] && "*" !in clients.origins[client]) {
            return Refused(InvalidOrigin);
          }
        }
        if HasAudience(clients, call.requested.value) && !HasAudience(clients, stored.client) {
          if stored.client == clients.internal {
            effective := call.requested.value;
          }
        }
      }
      tokens := tokens[call.minted := Token(stored.user, effective, stored.family, stored.scopes, now, now + call.ttl,
                                           None, None, None, None)];
      tokens := tokens[call.token := stored.(revokedAt := Some(now), reason := Some(Rotated),
                                             replacedBy := Some(call.minted))];
      return Issued(call.minted, effective);
    }

    method LogoutUser(user: string, token: Option<string>, ip: Option<string>, now: int)
      modifies this
      ensures View() == Logout(old(View()), user, token, ip, now)
    {
      var familyRevoked := false;
      if token.Some? {
        if token.value in tokens && tokens[token.value].family.Some? {
          RevokeFamily(user, tokens[token.value].family.value, LoggedOut, now);
          familyRevoked := true;
        } else {
          tokens := RevokeTokens(tokens, TokenOfHash(user, token.value), Some(LoggedOut), now);
        }
      }
      if !familyRevoked {
        sessions := RevokeSessions(sessions, SessionsAt(user, ip), Some(LoggedOut), now);
      }
    }

    method RevokeByIds(user: string, ids: set<string>, reason: string, now: int)
        returns (revokedSessions: nat, revokedTokens: nat)
      modifies this
      ensures revokedSessions == |PickedSessions(old(sessions), SomeSessions(user, ids))|
      ensures revokedTokens == |PickedTokens(old(tokens), TokensOfFamilies(user, ids))|
      ensures View() == RevokeSessionsByIds(old(View()), user, ids, reason, now)
    {
      if ids == {} {
        NothingPicked(View(), user, reason, now);
        return 0, 0;
      }
      revokedSessions := |PickedSessions(sessions, SomeSessions(user, ids))|;
      revokedTokens := |PickedTokens(tokens, TokensOfFamilies(user, ids))|;
      sessions := RevokeSessions(sessions, SomeSessions(user, ids), Some(Given(reason)), now);
      tokens := RevokeTokens(tokens, TokensOfFamilies(user, ids), Some(Given(reason)), now);
    }

    /** The sessions revoked are the live ones but the excluded one. */
    method RevokeAll(user: string, exclude: Option<string>, reason: string, now: int)
        returns (revokedSessions: nat, revokedTokens: nat)
      modifies this
      ensures revokedSessions == |LiveSessions(old(View()), user, exclude)|
      ensures revokedTokens
           == |PickedTokens(old(tokens), TokensOfFamilies(user, LiveSessions(old(View()), user, exclude)))|
      ensures View() == RevokeAllSessions(old(View()), user, exclude, reason, now)
    {
      var live := set id | id in sessions && sessions[id].user == user && sessions[id].revokedAt.None?
          && Some(id) != exclude;
      assert PickedSessions(sessions, SomeSessions(user, live)) == live;
      revokedSessions, revokedTokens := RevokeByIds(user, live, reason, now);
    }

    method ResetPasswordTokens(user: string, now: int)
      modifies this
      ensures View() == ResetPassword(old(View()), user, now)
    {
      tokens := RevokeTokens(tokens, TokensOfUser(user), None, now);
    }

    method AdminRevokeUserSessions(user: string, now: int) returns (revokedCount: nat)
      modifies this
      ensures revokedCount == |LiveSessions(old(View()), user, None)|
      ensures View() == RevokeUserSessions(old(View()), user, now)
    {
      assert PickedSessions(sessions, SessionsOfUser(user)) == LiveSessions(View(), user, None);
      revokedCount := |PickedSessions(sessions, SessionsOfUser(user))|;
      sessions := RevokeSessions(sessions, SessionsOfUser(user), None, now);
    }
  }

  /** The early return on an empty id list changes nothing the updates would have changed. */
  lemma NothingPicked(t: Tables, user: string, reason: string, now: int)
    ensures RevokeSessionsByIds(t, user, {}, reason, now) == t
    ensures PickedSessions(t.sessions, SomeSessions(user, {})) == {}
    ensures PickedTokens(t.tokens, TokensOfFamilies(user, {})) == {}
  {}
}
