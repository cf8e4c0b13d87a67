/**
 * Single-use, PKCE-bound mobile authorization codes (src/modules/auth/mobileAuthCode.service.ts).
 * An exchange is three database steps, and any number of exchanges interleave.
 */
module MobileAuthCode {
  import opened Common
  import C = CredentialEncryption

  const TTL_MS := 60000

  datatype Session = Session(accessToken: string, refreshToken: string, expiresIn: int)

  /** The library functions the code relies on; `show` and `read` are JSON text and back. */
  datatype Tools = Tools(
    sha: string -> string,
    s256: string -> string,
    cipher: C.Cipher,
    show: Session -> string,
    read: string -> Option<Session>)

  ghost predicate Faithful(t: Tools) {
    && C.Sound(t.cipher) && C.Authentic(t.cipher)
    && (forall x :: t.read(t.show(x)) == Some(x))
  }

  datatype Row = Row(
    clientDbId: string,
    redirectUri: string,
    codeChallenge: string,
    payload: C.Payload,
    expiresAt: int,
    consumedAt: Option<int>)

  datatype Client = Client(id: string, active: bool)

  datatype Options = Options(code: string, codeVerifier: string, clientId: string, redirectUri: string)

  datatype Error = CodeInvalid | CodeReused | CodeExpired | PkceFailed

  /** One exchange: the row it read, when it read it, and how far it got. */
  datatype Request =
    | Looked(opts: Options, row: Row, at: int)
    | Checked(opts: Options, row: Row, at: int)
    | Won(opts: Options, row: Row, at: int, session: Option<Session>)
    | Refused(opts: Options, error: Error)

  predicate VerifyPkceS256(t: Tools, codeVerifier: string, codeChallenge: string) {
    43 <= |codeVerifier| <= 128 && t.s256(codeVerifier) == codeChallenge
  }

  function Issue(t: Tools, rows: map<string, Row>, code: string, row: Row): map<string, Row> {
    if t.sha(code) in rows then rows else rows[t.sha(code) := row]
  }

  /** `findUnique` and the checks that need nothing but the row. */
  function Look(t: Tools, rows: map<string, Row>, opts: Options, at: int): Request {
    if t.sha(opts.code) !in rows then Refused(opts, CodeInvalid)
    else
      var row := rows[t.sha(opts.code)];
      if row.consumedAt.Some? then Refused(opts, CodeReused)
      else if row.expiresAt < at then Refused(opts, CodeExpired)
      else Looked(opts, row, at)
  }

  predicate IsActive(clients: map<string, Client>, clientId: string, dbId: string) {
    clientId in clients && clients[clientId].active && clients[clientId].id == dbId
  }

  /** The client read, the redirect URI and the PKCE proof. */
  function Check(t: Tools, clients: map<string, Client>, r: Request): Request {
    if !r.Looked? then r
    else if !IsActive(clients, r.opts.clientId, r.row.clientDbId) then Refused(r.opts, CodeInvalid)
    else if r.opts.redirectUri != r.row.redirectUri then Refused(r.opts, CodeInvalid)
    else if !VerifyPkceS256(t, r.opts.codeVerifier, r.row.codeChallenge) then Refused(r.opts, PkceFailed)
    else Checked(r.opts, r.row, r.at)
  }

  function Open(t: Tools, cfg: C.Config, payload: C.Payload): Option<Session> {
    match C.Decrypt(cfg, t.cipher, payload)
    case None => None
    case Some(text) => t.read(text)
  }

  /** `updateMany` where `consumedAt` is null, and the payload for the one that changed the row. */
  function Take(t: Tools, rows: map<string, Row>, r: Request, cfg: C.Config, now: int): (map<string, Row>, Request) {
    var h := t.sha(r.opts.code);
    if !r.Checked? then (rows, r)
    else if h !in rows || rows[h].consumedAt.Some? then (rows, Refused(r.opts, CodeReused))
    else (rows[h := rows[h].(consumedAt := Some(now))], Won(r.opts, r.row, r.at, Open(t, cfg, r.row.payload)))
  }

  /** One exchange with nothing in between. */
  function Exchange(t: Tools, rows: map<string, Row>, clients: map<string, Client>,
                    opts: Options, cfg: C.Config, at: int, now: int): (map<string, Row>, Request) {
    Take(t, rows, Check(t, clients, Look(t, rows, opts, at)), cfg, now)
  }

  // --- The service --------------------------------------------------------------------

  class Codes {
    const t: Tools
    var rows: map<string, Row>
    var clients: map<string, Client>

    constructor (t: Tools)
      ensures this.t == t && rows == map[] && clients == map[]
    {
      this.t := t;
      rows, clients := map[], map[];
    }

    /** False when the unique index on the hash rejects the row. */
    method IssueMobileAuthCode(code: string, clientDbId: string, redirectUri: string, codeChallenge: string,
                               session: Session, cfg: C.Config, nonce: string, now: int) returns (ok: bool)
      modifies this`rows
      ensures ok == (t.sha(code) !in old(rows))
      ensures rows == Issue(t, old(rows), code, RowOf(t, Step.Issued(code, clientDbId, redirectUri, codeChallenge,
                                                                     session, cfg, nonce, now)))
    {
      var encrypted := C.Encrypt(cfg, t.cipher, t.show(session), nonce);
      var codeHash := t.sha(code);
      if codeHash in rows {
        return false;
      }
      rows := rows[codeHash := Row(clientDbId, redirectUri, codeChallenge, encrypted, now + TTL_MS, None)];
      ok := true;
    }

    method ExchangeMobileAuthCode(opts: Options, cfg: C.Config, at: int, now: int)
        returns (session: Option<Session>, error: Option<Error>)
      modifies this`rows
      ensures var (after, r) := Exchange(t, old(rows), clients, opts, cfg, at, now);
              && rows == after
              && (if r.Won? then session == r.session && error == None
                  else r.Refused? && session == None && error == Some(r.error))
    {
      session := None;
      var codeHash := t.sha(opts.code);
      if codeHash !in rows {
        return None, Some(CodeInvalid);
      }
      var row := rows[codeHash];
      if row.consumedAt.Some? {
        return None, Some(CodeReused);
      }
      if row.expiresAt < at {
        return None, Some(CodeExpired);
      }
      if opts.clientId !in clients || !clients[opts.clientId].active || clients[opts.clientId].id != row.clientDbId {
        return None, Some(CodeInvalid);
      }
      if opts.redirectUri != row.redirectUri {
        return None, Some(CodeInvalid);
      }
      if !VerifyPkceS256(t, opts.codeVerifier, row.codeChallenge) {
        return None, Some(PkceFailed);
      }
      rows := rows[codeHash := row.(consumedAt := Some(now))];
      return Open(t, cfg, row.payload), None;
    }
  }

  // --- Runs ------------------------------------------------------------------------------

  datatype Step =
    | Issued(code: string, clientDbId: string, redirectUri: string, codeChallenge: string,
             session: Session, cfg: C.Config, nonce: string, now: int)
    | Looks(q: nat, opts: Options, now: int)
    | Checks(q: nat)
    | Takes(q: nat, cfg: C.Config, now: int)
    | SetClient(clientId: string, client: Client)

  datatype State = State(rows: map<string, Row>, clients: map<string, Client>, requests: map<nat, Request>)

  function RowOf(t: Tools, step: Step): Row
    requires step.Issued?
  {
    Row(step.clientDbId, step.redirectUri, step.codeChallenge,
        C.Encrypt(step.cfg, t.cipher, t.show(step.session), step.nonce), step.now + TTL_MS, None)
  }

  function Next(t: Tools, s: State, step: Step): State {
    match step
    case Issued(code, _, _, _, _, _, _, _) => s.(rows := Issue(t, s.rows, code, RowOf(t, step)))
    case Looks(q, opts, now) =>
      if q in s.requests then s else s.(requests := s.requests[q := Look(t, s.rows, opts, now)])
    case Checks(q) =>
      if q !in s.requests then s else s.(requests := s.requests[q := Check(t, s.clients, s.requests[q])])
    case Takes(q, cfg, now) =>
      if q !in s.requests then s
      else var (rows, r) := Take(t, s.rows, s.requests[q], cfg, now);
           State(rows, s.clients, s.requests[q := r])
    case SetClient(clientId, client) => s.(clients := s.clients[clientId := client])
  }

  /** The state after a run, starting with empty tables. */
  function Run(t: Tools, steps: seq<Step>): State {
    if steps == [] then State(map[], map[], map[])
    else Next(t, Run(t, steps[..|steps| - 1]), steps[|steps| - 1])
  }

  // --- What the run is evidence for ----------------------------------------------------------

  /** Some earlier step stored this row, up to its consumption, under this hash. */
  ghost predicate Stored(t: Tools, steps: seq<Step>, h: string, row: Row) {
    exists i :: 0 <= i < |steps| && IsIssue(t, steps[i], h, row)
  }

  predicate IsIssue(t: Tools, step: Step, h: string, row: Row) {
    step.Issued? && t.sha(step.code) == h && RowOf(t, step) == row.(consumedAt := None)
  }

  ghost predicate WasLooked(steps: seq<Step>, q: nat, opts: Options, at: int) {
    exists i :: 0 <= i < |steps| && steps[i] == Looks(q, opts, at)
  }

  /** The client the request names was active, and the one the row is for, when the request checked. */
  ghost predicate WasChecked(t: Tools, steps: seq<Step>, q: nat, clientId: string, dbId: string) {
    exists i :: 0 <= i < |steps| && steps[i] == Checks(q)
                && var clients := Run(t, steps[..i]).clients;
                && clientId in clients && clients[clientId].active && clients[clientId].id == dbId
  }

  ghost predicate WasTaken(t: Tools, steps: seq<Step>, q: nat, r: Request)
    requires r.Won?
  {
    exists i :: 0 <= i < |steps| && steps[i].Takes? && steps[i].q == q
                && r.session == Open(t, steps[i].cfg, r.row.payload)
  }

  ghost predicate Backed(t: Tools, steps: seq<Step>, q: nat, r: Request) {
    && (!r.Refused? ==>
          && Stored(t, steps, t.sha(r.opts.code), r.row) && WasLooked(steps, q, r.opts, r.at)
          && r.row.consumedAt == None && r.at <= r.row.expiresAt)
    && (r.Checked? || r.Won? ==>
          && WasChecked(t, steps, q, r.opts.clientId, r.row.clientDbId)
          && r.opts.redirectUri == r.row.redirectUri
          && VerifyPkceS256(t, r.opts.codeVerifier, r.row.codeChallenge))
    && (r.Won? ==> WasTaken(t, steps, q, r))
  }

  lemma BackedLater(t: Tools, steps: seq<Step>, step: Step, q: nat, r: Request)
    requires Backed(t, steps, q, r)
    ensures Backed(t, steps + [step], q, r)
  {
    var more := steps + [step];
    assert forall i :: 0 <= i < |steps| ==> more[i] == steps[i] && more[..i] == steps[..i];
    if !r.Refused? {
      StoredLater(t, steps, step, t.sha(r.opts.code), r.row);
      var i :| 0 <= i < |steps| && steps[i] == Looks(q, r.opts, r.at);
      assert more[i] == Looks(q, r.opts, r.at);
    }
    if r.Checked? || r.Won? {
      var i :| 0 <= i < |steps| && steps[i] == Checks(q)
               && IsActive(Run(t, steps[..i]).clients, r.opts.clientId, r.row.clientDbId);
      assert more[i] == Checks(q);
    }
    if r.Won? {
      var i :| 0 <= i < |steps| && steps[i].Takes? && steps[i].q == q
               && r.session == Open(t, steps[i].cfg, r.row.payload);
      assert more[i].Takes?;
    }
  }

  lemma StoredLater(t: Tools, steps: seq<Step>, step: Step, h: string, row: Row)
    requires Stored(t, steps, h, row)
    ensures Stored(t, steps + [step], h, row)
  {
    var i :| 0 <= i < |steps| && IsIssue(t, steps[i], h, row);
    assert IsIssue(t, (steps + [step])[i], h, row);
  }

  /** Every row was stored by some step. */
  ghost predicate RowsStored(t: Tools, steps: seq<Step>, rows: map<string, Row>) {
    forall h :: h in rows ==> Stored(t, steps, h, rows[h])
  }

  ghost predicate AllBacked(t: Tools, steps: seq<Step>, requests: map<nat, Request>) {
    forall q :: q in requests ==> Backed(t, steps, q, requests[q])
  }

  lemma {:induction false} RowsStoredAlways(t: Tools, steps: seq<Step>)
    ensures RowsStored(t, steps, Run(t, steps).rows)
  {
    if steps == [] {
    } else {
      var was, step := steps[..|steps| - 1], steps[|steps| - 1];
      assert steps == was + [step];
      RowsStoredAlways(t, was);
      var s, z := Run(t, was), Run(t, steps);
      forall h | h in z.rows ensures Stored(t, steps, h, z.rows[h]) {
        if h in s.rows {
          StoredLater(t, was, step, h, s.rows[h]);
          SameRow(t, s, step, h);
          var i :| 0 <= i < |steps| && IsIssue(t, steps[i], h, s.rows[h]);
          assert IsIssue(t, steps[i], h, z.rows[h]);
        } else {
          NewRow(t, s, step, h);
          assert IsIssue(t, steps[|steps| - 1], h, z.rows[h]);
        }
      }
    }
  }

  /** A step leaves a stored row as it is, but for consuming it once. */
  lemma SameRow(t: Tools, s: State, step: Step, h: string)
    requires h in s.rows
    ensures h in Next(t, s, step).rows
    ensures var row := Next(t, s, step).rows[h];
            && row.(consumedAt := None) == s.rows[h].(consumedAt := None)
            && (s.rows[h].consumedAt.Some? ==> row == s.rows[h])
  {}

  lemma NewRow(t: Tools, s: State, step: Step, h: string)
    requires h !in s.rows && h in Next(t, s, step).rows
    ensures IsIssue(t, step, h, Next(t, s, step).rows[h]) && Next(t, s, step).rows[h].consumedAt == None
  {}

  lemma {:induction false} AllBackedAlways(t: Tools, steps: seq<Step>)
    ensures AllBacked(t, steps, Run(t, steps).requests)
  {
    if steps == [] {
    } else {
      var was, step := steps[..|steps| - 1], steps[|steps| - 1];
      assert steps == was + [step];
      AllBackedAlways(t, was);
      RowsStoredAlways(t, was);
      var s, z := Run(t, was), Run(t, steps);
      forall q | q in z.requests ensures Backed(t, steps, q, z.requests[q]) {
        if q in s.requests {
          BackedLater(t, was, step, q, s.requests[q]);
        }
        match step {
          case Looks(p, opts, now) =>
            if q == p && q !in s.requests {
              LookBacked(t, was, step, s);
            }
          case Checks(p) =>
            if q == p {
              CheckBacked(t, was, step, s);
            }
          case Takes(p, _, _) =>
            if q == p {
              TakeBacked(t, was, step, s);
            }
          case _ =>
        }
      }
    }
  }

  lemma LookBacked(t: Tools, was: seq<Step>, step: Step, s: State)
    requires step.Looks? && step.q !in s.requests && RowsStored(t, was, s.rows)
    ensures Backed(t, was + [step], step.q, Look(t, s.rows, step.opts, step.now))
  {
    var r := Look(t, s.rows, step.opts, step.now);
    if r.Looked? {
      StoredLater(t, was, step, t.sha(r.opts.code), r.row);
      assert (was + [step])[|was|] == Looks(step.q, r.opts, r.at);
    }
  }

  lemma CheckBacked(t: Tools, was: seq<Step>, step: Step, s: State)
    requires step.Checks? && step.q in s.requests && s == Run(t, was)
    requires Backed(t, was + [step], step.q, s.requests[step.q])
    ensures Backed(t, was + [step], step.q, Check(t, s.clients, s.requests[step.q]))
  {
    var more := was + [step];
    assert more[..|was|] == was && more[|was|] == Checks(step.q);
  }

  lemma TakeBacked(t: Tools, was: seq<Step>, step: Step, s: State)
    requires step.Takes? && step.q in s.requests
    requires Backed(t, was + [step], step.q, s.requests[step.q])
    ensures Backed(t, was + [step], step.q, Take(t, s.rows, s.requests[step.q], step.cfg, step.now).1)
  {
    assert (was + [step])[|was|] == step;
  }

  // --- One winner -------------------------------------------------------------------------

  ghost predicate WinnerOf(t: Tools, s: State, q: nat, h: string) {
    q in s.requests && s.requests[q].Won? && t.sha(s.requests[q].opts.code) == h
  }

  /** A consumed row has a winner, a winner's row is consumed, and no row has two winners. */
  ghost predicate Settled(t: Tools, s: State) {
    && (forall h :: h in s.rows && s.rows[h].consumedAt.Some? ==> exists q :: WinnerOf(t, s, q, h))
    && (forall q, h :: WinnerOf(t, s, q, h) ==> h in s.rows && s.rows[h].consumedAt.Some?)
    && (forall p, q, h :: WinnerOf(t, s, p, h) && WinnerOf(t, s, q, h) ==> p == q)
  }

  lemma {:induction false} SettledAlways(t: Tools, steps: seq<Step>)
    ensures Settled(t, Run(t, steps))
  {
    if steps == [] {
    } else {
      SettledAlways(t, steps[..|steps| - 1]);
      SettledNext(t, Run(t, steps[..|steps| - 1]), steps[|steps| - 1]);
    }
  }

  /** What one step can do: make at most one request the winner of a row that was still free. */
  lemma StepWins(t: Tools, s: State, step: Step, q: nat, h: string)
    ensures WinnerOf(t, s, q, h) ==> WinnerOf(t, Next(t, s, step), q, h)
    ensures WinnerOf(t, Next(t, s, step), q, h) && !WinnerOf(t, s, q, h) ==>
              && step.Takes? && step.q == q
              && h in s.rows && s.rows[h].consumedAt == None && Next(t, s, step).rows[h].consumedAt.Some?
  {}

  lemma StepConsumes(t: Tools, s: State, step: Step, h: string)
    requires h in Next(t, s, step).rows && Next(t, s, step).rows[h].consumedAt.Some?
    requires !(h in s.rows && s.rows[h].consumedAt.Some?)
    ensures step.Takes? && WinnerOf(t, Next(t, s, step), step.q, h)
  {}

  lemma SettledNext(t: Tools, s: State, step: Step)
    requires Settled(t, s)
    ensures Settled(t, Next(t, s, step))
  {
    var z := Next(t, s, step);
    forall h | h in z.rows && z.rows[h].consumedAt.Some? ensures exists q :: WinnerOf(t, z, q, h) {
      if h in s.rows && s.rows[h].consumedAt.Some? {
        var q :| WinnerOf(t, s, q, h);
        StepWins(t, s, step, q, h);
      } else {
        StepConsumes(t, s, step, h);
      }
    }
    forall q, h | WinnerOf(t, z, q, h) ensures h in z.rows && z.rows[h].consumedAt.Some? {
      StepWins(t, s, step, q, h);
      if h in s.rows {
        SameRow(t, s, step, h);
      }
    }
    forall p, q, h | WinnerOf(t, z, p, h) && WinnerOf(t, z, q, h) ensures p == q {
      StepWins(t, s, step, p, h);
      StepWins(t, s, step, q, h);
    }
  }

  /** At most one exchange of a code returns, over every interleaving. */
  lemma OneWinner(t: Tools, steps: seq<Step>, p: nat, q: nat)
    requires var s := Run(t, steps);
             && p in s.requests && s.requests[p].Won? && q in s.requests && s.requests[q].Won?
             && s.requests[p].opts.code == s.requests[q].opts.code
    ensures p == q
  {
    SettledAlways(t, steps);
    var s := Run(t, steps);
    assert WinnerOf(t, s, p, t.sha(s.requests[p].opts.code));
    assert WinnerOf(t, s, q, t.sha(s.requests[p].opts.code));
  }

  /** A code is consumed exactly when one exchange of it returned: losers lose to a winner. */
  lemma ConsumedIffWon(t: Tools, steps: seq<Step>, h: string)
    requires h in Run(t, steps).rows
    ensures Run(t, steps).rows[h].consumedAt.Some? <==> exists q :: WinnerOf(t, Run(t, steps), q, h)
  {
    SettledAlways(t, steps);
  }

  /** Consumption is set at most once: a consumed row never changes again. */
  lemma {:induction false} ConsumedOnce(t: Tools, steps: seq<Step>, more: seq<Step>, h: string)
    requires h in Run(t, steps).rows && Run(t, steps).rows[h].consumedAt.Some?
    ensures h in Run(t, steps + more).rows && Run(t, steps + more).rows[h] == Run(t, steps).rows[h]
  {
    if more == [] {
      assert steps + more == steps;
    } else {
      var fewer := more[..|more| - 1];
      assert (steps + more)[..|steps + more| - 1] == steps + fewer;
      ConsumedOnce(t, steps, fewer, h);
      SameRow(t, Run(t, steps + fewer), more[|more| - 1], h);
    }
  }

  /** So once a code is consumed every later exchange of it that starts is refused as a reuse. */
  lemma ReuseRefused(t: Tools, steps: seq<Step>, more: seq<Step>, opts: Options, at: int)
    requires var h := t.sha(opts.code); h in Run(t, steps).rows && Run(t, steps).rows[h].consumedAt.Some?
    ensures Look(t, Run(t, steps + more).rows, opts, at) == Refused(opts, CodeReused)
  {
    ConsumedOnce(t, steps, more, t.sha(opts.code));
  }

  // --- Who the winner is ---------------------------------------------------------------------

  /**
   * The winner presented the issued code's hash within its lifetime, from the client the code
   * was issued to, with the same redirect URI and a verifier of 43 to 128 characters whose hash is the challenge.
   */
  ghost predicate Entitled(t: Tools, steps: seq<Step>, q: nat, r: Request, step: Step)
    requires r.Won?
  {
    && step.Issued? && t.sha(step.code) == t.sha(r.opts.code)
    && r.opts.redirectUri == step.redirectUri
    && 43 <= |r.opts.codeVerifier| <= 128 && t.s256(r.opts.codeVerifier) == step.codeChallenge
    && WasLooked(steps, q, r.opts, r.at) && r.at <= step.now + 60_000
    && WasChecked(t, steps, q, r.opts.clientId, step.clientDbId)
    && Delivered(steps, q, r, step)
  }

  /** It gets the session stored at issue if the key ring in use still has that key, and else nothing. */
  ghost predicate Delivered(steps: seq<Step>, q: nat, r: Request, step: Step)
    requires r.Won? && step.Issued?
  {
    exists i :: 0 <= i < |steps| && steps[i].Takes? && steps[i].q == q
                && r.session == if SameKey(steps[i].cfg, step.cfg) then Some(step.session) else None
  }

  predicate SameKey(cfg: C.Config, was: C.Config) {
    C.KeyFor(cfg, was.activeVersion) == C.KeyFor(was, was.activeVersion)
  }

  lemma OpensAsStored(t: Tools, cfg: C.Config, step: Step)
    requires Faithful(t) && step.Issued?
    ensures Open(t, cfg, RowOf(t, step).payload) == if SameKey(cfg, step.cfg) then Some(step.session) else None
  {
    C.SurvivesRotation(step.cfg, cfg, t.cipher, t.show(step.session), step.nonce);
  }

  lemma WinnerIsEntitled(t: Tools, steps: seq<Step>, q: nat)
    requires Faithful(t) && q in Run(t, steps).requests && Run(t, steps).requests[q].Won?
    ensures exists i :: 0 <= i < |steps| && Entitled(t, steps, q, Run(t, steps).requests[q], steps[i])
  {
    AllBackedAlways(t, steps);
    var r := Run(t, steps).requests[q];
    assert Backed(t, steps, q, r);
    var i :| 0 <= i < |steps| && IsIssue(t, steps[i], t.sha(r.opts.code), r.row);
    assert r.row == RowOf(t, steps[i]);
    var k :| 0 <= k < |steps| && steps[k].Takes? && steps[k].q == q
             && r.session == Open(t, steps[k].cfg, r.row.payload);
    OpensAsStored(t, steps[k].cfg, steps[i]);
    assert Delivered(steps, q, r, steps[i]);
    assert Entitled(t, steps, q, r, steps[i]);
  }

  // --- One exchange alone ------------------------------------------------------------------------

  /** The client is active and the one the code is for, and the redirect URI is the same. */
  predicate Matches(clients: map<string, Client>, opts: Options, row: Row) {
    && opts.clientId in clients && clients[opts.clientId] == Client(row.clientDbId, true)
    && opts.redirectUri == row.redirectUri
  }

  /** Proof of possession, section 4.6 of RFC 7636. */
  predicate Proves(t: Tools, verifier: string, challenge: string) {
    |verifier| >= 43 && |verifier| <= 128 && challenge == t.s256(verifier)
  }

  /** With nothing in between, an exchange returns exactly when everything it is asked for matches. */
  lemma ExchangeAlone(t: Tools, rows: map<string, Row>, clients: map<string, Client>,
                      opts: Options, cfg: C.Config, at: int, now: int)
    ensures var (after, r) := Exchange(t, rows, clients, opts, cfg, at, now);
            var h := t.sha(opts.code);
            && (r.Won? <==> && h in rows && rows[h].consumedAt == None && at <= rows[h].expiresAt
                            && Matches(clients, opts, rows[h])
                            && Proves(t, opts.codeVerifier, rows[h].codeChallenge))
            && (!r.Won? ==> after == rows)
            && (r.Won? ==> forall other: Options, c, a, n :: other.code == opts.code ==>
                             Exchange(t, after, clients, other, c, a, n) == (after, Refused(other, CodeReused)))
  {}

  /** And when it does not return, the first thing that does not match decides the error. */
  lemma RefusedAlone(t: Tools, rows: map<string, Row>, clients: map<string, Client>,
                     opts: Options, cfg: C.Config, at: int, now: int)
    ensures var r, h := Exchange(t, rows, clients, opts, cfg, at, now).1, t.sha(opts.code);
            var live := h in rows && rows[h].consumedAt == None && at <= rows[h].expiresAt;
            && (r == Refused(opts, CodeReused) <==> h in rows && rows[h].consumedAt.Some?)
            && (r == Refused(opts, CodeExpired) <==> h in rows && rows[h].consumedAt == None && at > rows[h].expiresAt)
            && (r == Refused(opts, CodeInvalid) <==> h !in rows || (live && !Matches(clients, opts, rows[h])))
            && (r == Refused(opts, PkceFailed)
                <==> live && Matches(clients, opts, rows[h])
                     && !Proves(t, opts.codeVerifier, rows[h].codeChallenge))
  {}

  /**
   * From issue to exchange: a fresh code works for a minute, once, for its client and URI and with its verifier, and
   * gives the session it was issued for.
   */
  lemma IssueThenExchange(t: Tools, rows: map<string, Row>, clients: map<string, Client>, issue: Step,
                          opts: Options, cfg: C.Config, at: int, now: int)
    requires Faithful(t) && issue.Issued? && opts.code == issue.code && t.sha(issue.code) !in rows
    requires SameKey(cfg, issue.cfg)
    ensures var (after, r) := Exchange(t, Issue(t, rows, issue.code, RowOf(t, issue)), clients, opts, cfg, at, now);
            && (r.Won? <==> && at <= issue.now + 60_000
                            && opts.clientId in clients && clients[opts.clientId] == Client(issue.clientDbId, true)
                            && opts.redirectUri == issue.redirectUri
                            && Proves(t, opts.codeVerifier, issue.codeChallenge))
            && (r.Won? ==> r.session == Some(issue.session))
  {
    OpensAsStored(t, cfg, issue);
  }

  /**
   * The code is consumed either way; its session comes out if and only if the key ring still finds the key it
   * was sealed with.
   */
  lemma DeliveredExactly(t: Tools, rows: map<string, Row>, clients: map<string, Client>,
                         opts: Options, cfg: C.Config, at: int, now: int, issue: Step)
    requires Faithful(t) && issue.Issued? && t.sha(opts.code) in rows && rows[t.sha(opts.code)] == RowOf(t, issue)
    requires Exchange(t, rows, clients, opts, cfg, at, now).1.Won?
    ensures var (after, r) := Exchange(t, rows, clients, opts, cfg, at, now);
            && after[t.sha(opts.code)].consumedAt == Some(now)
            && (r.session == Some(issue.session) <==> SameKey(cfg, issue.cfg))
            && (!SameKey(cfg, issue.cfg) ==> r.session == None)
  {
    OpensAsStored(t, cfg, issue);
  }

  /** Replacing the active key under a version that no list entry names loses it, unless the two are one key. */
  lemma KeyCanBeLost(was: C.Config, cfg: C.Config)
    requires cfg.activeVersion == was.activeVersion
    requires !C.ListsUsable(OrElse(was.entries, []), was.activeVersion)
    requires !C.ListsUsable(OrElse(cfg.entries, []), was.activeVersion)
    ensures SameKey(cfg, was) <==> cfg.normalize(cfg.activeKey) == was.normalize(was.activeKey)
  {
    C.UnlistedActive(was);
    C.UnlistedActive(cfg);
  }

  /** The deadline is only compared when the row is read: an exchange that read in time may consume later. */
  lemma ConsumesAfterExpiry(t: Tools, issue: Step, opts: Options, late: nat)
    requires issue.Issued? && opts.code == issue.code && opts.redirectUri == issue.redirectUri
    requires Proves(t, opts.codeVerifier, issue.codeChallenge)
    ensures var s := Run(t, [SetClient(opts.clientId, Client(issue.clientDbId, true)), issue,
                             Looks(0, opts, issue.now), Checks(0), Takes(0, issue.cfg, issue.now + TTL_MS + late)]);
            && 0 in s.requests && s.requests[0].Won? && t.sha(opts.code) in s.rows
            && s.rows[t.sha(opts.code)].consumedAt == Some(s.requests[0].row.expiresAt + late)
            && s.requests[0].row.expiresAt == issue.now + 60_000
  {
    var a, b, c, d, e := SetClient(opts.clientId, Client(issue.clientDbId, true)), issue,
      Looks(0, opts, issue.now), Checks(0), Takes(0, issue.cfg, issue.now + TTL_MS + late);
    assert [a, b, c, d, e][..4] == [a, b, c, d] && [a, b, c, d][..3] == [a, b, c];
    assert [a, b, c][..2] == [a, b] && [a, b][..1] == [a] && [a][..0] == [];
    var s1 := Run(t, [a]);
    var s2 := Run(t, [a, b]);
    assert s1 == Next(t, Run(t, []), a) && s2 == Next(t, s1, b);
    var s3 := Run(t, [a, b, c]);
    var s4 := Run(t, [a, b, c, d]);
    assert s3 == Next(t, s2, c) && s4 == Next(t, s3, d);
    assert Run(t, [a, b, c, d, e]) == Next(t, s4, e);
  }
}
