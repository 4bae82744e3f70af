/** The sign-in half of the BFF: /bff/login, /bff/callback and the sweep of pending logins,
    as one state machine over the shared pending-login store.  Each handler is cut into its
    atomic steps and any number of them interleave, in any order, with the clock.

    Assumed of backendkit: RandomToken never repeats, Put refuses when the store is full
    or unreachable, Take removes what it returns, and LoginBinding.Verify never accepts an
    empty nonce.  S256 is any function (RFC 7636 section 4.2). */
module LoginProtocol {

  import opened Options

  type Token = string
  type Rid = nat

  datatype Config = Config(capacity: Option<nat>, pendingTTL: nat, s256: Token -> Token)

  datatype Pending = Pending(verifier: Token, nonce: Token, returnTo: string, created: int)

  datatype Phase =
    // handleLogin
    | AtLimiter
    | AtPut(state: Token, pending: Pending)
    | AtRedirect(state: Token, pending: Pending)
    // handleCallback
    | AtQuery
    | AtTake
    | AtVerify(pending: Pending)
    | AtExchange(pending: Pending)
    | AtStore(pending: Pending, access: Token)
    | AtCookie(pending: Pending, minted: Minted)
    | Answered(status: int)

  datatype Req =
    | Login(returnTo: string, phase: Phase)
    | Callback(error: string, state: Token, code: string, nonce: Token, phase: Phase)

  /** A pending login, and the login request that drew its tokens, and when. */
  datatype Draw = Draw(rid: Rid, pending: Pending, at: int)
  /** The callback a login went to, and when. */
  datatype Taken = Taken(rid: Rid, at: int)
  datatype Redirect = Redirect(rid: Rid, state: Token, challenge: Token, nonce: Token)
  /** A request to the token endpoint, and what came back. */
  datatype Exchange = Exchange(rid: Rid, state: Token, code: string, verifier: Token, reply: Choice)
  datatype Minted = Minted(rid: Rid, state: Token, sid: Token, access: Token)
  /** The session cookie, on the redirect back into the application. */
  datatype Cookie = Cookie(rid: Rid, minted: Minted, location: string)

  /** What happened so far; no handler reads it. */
  datatype Log = Log(
    drawn: map<Token, Draw>,        // the logins prepared, by state
    begun: set<Token>,              // states whose Put succeeded
    taken: map<Token, Taken>,       // successful takes
    expired: map<Token, int>,       // states dropped because they were too old, and when
    redirects: seq<Redirect>,       // redirects to the issuer
    exchanges: seq<Exchange>,       // requests to the token endpoint
    minted: seq<Minted>,            // sessions created
    cookies: seq<Cookie>,           // session cookies set
    used: set<Token>)               // every token RandomToken returned

  datatype State = State(clock: int, pending: map<Token, Pending>, reqs: map<Rid, Req>, log: Log)

  const INIT := State(0, map[], map[], Log(map[], {}, map[], map[], [], [], [], [], {}))

  datatype Choice =
    | Proceed
    | Refuse                                              // limiter, store or issuer says no
    | Random(state: Token, verifier: Token, nonce: Token) // handleLogin's three tokens
    | TooOld                                              // Take finds an expired login and drops it
    | Reply(code: int, access: Token)                     // the token endpoint's answer
    | Session(sid: Token)                                 // the new session's id

  datatype Action =
    | Tick(now: int)
    | Sweep
    | Arrive(rid: Rid, req: Req)
    | Advance(rid: Rid, choice: Choice)

  predicate IsOld(cfg: Config, s: State, state: Token) {
    state in s.pending && s.clock - s.pending[state].created >= cfg.pendingTTL
  }

  predicate Full(cfg: Config, s: State) {
    cfg.capacity.Some? && |s.pending| >= cfg.capacity.value
  }

  function Goto(s: State, rid: Rid, phase: Phase): State
    requires rid in s.reqs
  {
    s.(reqs := s.reqs[rid := s.reqs[rid].(phase := phase)])
  }

  // ---- handleLogin -------------------------------------------------------------------

  predicate LoginEnabled(cfg: Config, s: State, r: Req, c: Choice)
    requires r.Login?
  {
    match r.phase
    case AtLimiter =>
      || c.Refuse?
      || (c.Random? && {c.state, c.verifier, c.nonce} !! s.log.used && c.nonce != ""
          && c.state != c.verifier && c.state != c.nonce && c.verifier != c.nonce)
    case AtPut(_, _) => c.Refuse? || (c.Proceed? && !Full(cfg, s))
    case AtRedirect(_, _) => c.Proceed?
    case _ => false
  }

  function LoginStep(cfg: Config, s: State, rid: Rid, c: Choice): State
    requires rid in s.reqs && s.reqs[rid].Login? && LoginEnabled(cfg, s, s.reqs[rid], c)
  {
    match s.reqs[rid].phase
    case AtLimiter =>
      if c.Refuse? then Goto(s, rid, Answered(429))
      else
        var p := Pending(c.verifier, c.nonce, s.reqs[rid].returnTo, s.clock);
        Goto(s.(log := s.log.(used := s.log.used + {c.state, c.verifier, c.nonce},
                              drawn := s.log.drawn[c.state := Draw(rid, p, s.clock)])),
             rid, AtPut(c.state, p))
    case AtPut(state, p) =>
      if c.Refuse? then Goto(s, rid, Answered(503))
      else
        Goto(s.(pending := s.pending[state := p], log := s.log.(begun := s.log.begun + {state})),
             rid, AtRedirect(state, p))
    case AtRedirect(state, p) =>
      Goto(s.(log := s.log.(redirects := s.log.redirects + [Redirect(rid, state, cfg.s256(p.verifier), p.nonce)])),
           rid, Answered(302))
  }

  // ---- handleCallback ----------------------------------------------------------------

  predicate CallbackEnabled(cfg: Config, s: State, r: Req, c: Choice)
    requires r.Callback?
  {
    match r.phase
    case AtQuery => c.Proceed?
    case AtTake =>
      || c.Refuse?
      || (c.TooOld? && IsOld(cfg, s, r.state))
      || (c.Proceed? && r.state in s.pending && !IsOld(cfg, s, r.state))
    case AtVerify(_) => c.Proceed?
    case AtExchange(_) => c.Refuse? || c.Reply?
    case AtStore(_, _) => c.Session? && c.sid !in s.log.used
    case AtCookie(_, _) => c.Proceed?
    case _ => false
  }

  /** oauthClient.token: an answer other than 200, or without an access token, is an error. */
  function Granted(c: Choice): Token {
    if c.Reply? && c.code == 200 then c.access else ""
  }

  function TakeStep(s: State, rid: Rid, c: Choice): State
    requires rid in s.reqs && s.reqs[rid].Callback? && (c.Proceed? ==> s.reqs[rid].state in s.pending)
  {
    var r := s.reqs[rid];
    match c
    case TooOld =>
      Goto(s.(pending := s.pending - {r.state}, log := s.log.(expired := s.log.expired[r.state := s.clock])),
           rid, Answered(400))
    case Proceed =>
      // the state is spent before the code is looked at
      var p := s.pending[r.state];
      Goto(s.(pending := s.pending - {r.state},
              log := s.log.(taken := s.log.taken[r.state := Taken(rid, s.clock)])),
           rid, if r.code == "" then Answered(400) else AtVerify(p))
    case _ => Goto(s, rid, Answered(400))
  }

  function CallbackStep(cfg: Config, s: State, rid: Rid, c: Choice): State
    requires rid in s.reqs && s.reqs[rid].Callback? && CallbackEnabled(cfg, s, s.reqs[rid], c)
  {
    var r := s.reqs[rid];
    match r.phase
    case AtQuery => Goto(s, rid, if r.error != "" then Answered(400) else AtTake)
    case AtTake => TakeStep(s, rid, c)
    case AtVerify(p) => Goto(s, rid, if r.nonce != "" && r.nonce == p.nonce then AtExchange(p) else Answered(400))
    case AtExchange(p) =>
      var access := Granted(c);
      Goto(s.(log := s.log.(exchanges := s.log.exchanges + [Exchange(rid, r.state, r.code, p.verifier, c)])),
           rid, if access != "" then AtStore(p, access) else Answered(502))
    case AtStore(p, access) =>
      var m := Minted(rid, r.state, c.sid, access);
      Goto(s.(log := s.log.(minted := s.log.minted + [m], used := s.log.used + {c.sid})), rid, AtCookie(p, m))
    case AtCookie(p, m) =>
      Goto(s.(log := s.log.(cookies := s.log.cookies + [Cookie(rid, m, p.returnTo)])), rid, Answered(302))
  }

  // ---- runs --------------------------------------------------------------------------

  predicate Enabled(cfg: Config, s: State, a: Action) {
    match a
    case Tick(now) => s.clock <= now
    case Sweep => true
    case Arrive(rid, req) => rid !in s.reqs && req.phase == if req.Login? then AtLimiter else AtQuery
    case Advance(rid, c) =>
      && rid in s.reqs
      && if s.reqs[rid].Login? then LoginEnabled(cfg, s, s.reqs[rid], c) else CallbackEnabled(cfg, s, s.reqs[rid], c)
  }

  function SweepPending(cfg: Config, s: State): State {
    var stale := set state | state in s.pending && IsOld(cfg, s, state);
    s.(pending := s.pending - stale, log := s.log.(expired := s.log.expired + map state | state in stale :: s.clock))
  }

  function Next(cfg: Config, s: State, a: Action): State
    requires Enabled(cfg, s, a)
  {
    match a
    case Tick(now) => s.(clock := now)
    case Sweep => SweepPending(cfg, s)
    case Arrive(rid, req) => s.(reqs := s.reqs[rid := req])
    case Advance(rid, c) => if s.reqs[rid].Login? then LoginStep(cfg, s, rid, c) else CallbackStep(cfg, s, rid, c)
  }

  ghost predicate Leads(cfg: Config, s: State, acts: seq<Action>, t: State)
    decreases |acts|
  {
    if acts == [] then s == t
    else Enabled(cfg, s, acts[0]) && Leads(cfg, Next(cfg, s, acts[0]), acts[1..], t)
  }

  ghost predicate Reached(cfg: Config, s: State) {
    exists acts :: Leads(cfg, INIT, acts, s)
  }
}
