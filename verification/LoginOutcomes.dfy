/** How sign-ins end: the status of every finished login and callback, exactly, and the times at
    which logins are taken and dropped. */
module LoginOutcomes {
  import opened Options
  import opened LoginProtocol
  import opened LoginSafety

  // ---- what a request did ---------------------------------------------------------------

  ghost predicate Drew(log: Log, rid: Rid) {
    exists state :: state in log.drawn && log.drawn[state].rid == rid
  }

  ghost predicate Began(log: Log, rid: Rid) {
    exists state :: state in log.begun && state in log.drawn && log.drawn[state].rid == rid
  }

  ghost predicate WasRedirected(log: Log, rid: Rid) {
    exists d :: d in log.redirects && d.rid == rid
  }

  ghost predicate Took(log: Log, rid: Rid) {
    exists state :: state in log.taken && log.taken[state].rid == rid
  }

  ghost predicate Exchanged(log: Log, rid: Rid) {
    exists e :: e in log.exchanges && e.rid == rid
  }

  /** The token endpoint answered 200 with an access token. */
  predicate Yields(reply: Choice) {
    reply.Reply? && reply.code == 200 && reply.access != ""
  }

  ghost predicate WasGranted(log: Log, rid: Rid) {
    exists e :: e in log.exchanges && e.rid == rid && Yields(e.reply)
  }

  ghost predicate GotCookie(log: Log, rid: Rid) {
    exists c :: c in log.cookies && c.rid == rid
  }

  /** The browser shows the nonce cookie of the login behind the state it presents, and a code. */
  predicate Presents(log: Log, r: Req)
    requires r.Callback?
  {
    r.code != "" && r.nonce != "" && r.state in log.drawn && r.nonce == log.drawn[r.state].pending.nonce
  }

  // ---- the invariant --------------------------------------------------------------------

  ghost predicate LoginOutcome(log: Log, rid: Rid, r: Req)
    requires r.Login?
  {
    match r.phase
    case AtLimiter => !Drew(log, rid)
    case AtPut(_, _) => Drew(log, rid) && !Began(log, rid)
    case AtRedirect(_, _) => Began(log, rid) && !WasRedirected(log, rid)
    case Answered(status) =>
      if !Drew(log, rid) then status == 429
      else if !Began(log, rid) then status == 503
      else status == 302 && WasRedirected(log, rid)
    case _ => false
  }

  ghost predicate CallbackOutcome(log: Log, rid: Rid, r: Req)
    requires r.Callback?
  {
    match r.phase
    case AtQuery => !Took(log, rid)
    case AtTake => r.error == "" && !Took(log, rid)
    case AtVerify(_) => r.error == "" && Took(log, rid) && r.code != "" && !Exchanged(log, rid)
    case AtExchange(_) => r.error == "" && Took(log, rid) && Presents(log, r) && !Exchanged(log, rid)
    case AtStore(_, _) | AtCookie(_, _) =>
      r.error == "" && Took(log, rid) && Presents(log, r) && WasGranted(log, rid) && !GotCookie(log, rid)
    case Answered(status) =>
      && (Took(log, rid) ==> r.error == "")
      && (Exchanged(log, rid) <==> Took(log, rid) && Presents(log, r))
      && (GotCookie(log, rid) <==> WasGranted(log, rid))
      && status == if GotCookie(log, rid) then 302 else if Exchanged(log, rid) then 502 else 400
    case _ => false
  }

  ghost predicate OutcomeOk(log: Log, rid: Rid, r: Req) {
    if r.Login? then LoginOutcome(log, rid, r) else CallbackOutcome(log, rid, r)
  }

  /** Every record belongs to a request of its kind. */
  ghost predicate Attributed(s: State) {
    && (forall state | state in s.log.drawn ::
          s.log.drawn[state].rid in s.reqs && s.reqs[s.log.drawn[state].rid].Login?)
    && (forall state | state in s.log.taken ::
          && s.log.taken[state].rid in s.reqs && s.reqs[s.log.taken[state].rid].Callback?
          && s.reqs[s.log.taken[state].rid].state == state)
  }

  ghost predicate Outcomes(s: State) {
    Attributed(s) && forall rid | rid in s.reqs :: OutcomeOk(s.log, rid, s.reqs[rid])
  }

  /** Nobody but rid gets a record in this step. */
  ghost predicate OnlyFor(a: Log, b: Log, rid: Rid) {
    && a.drawn.Keys <= b.drawn.Keys && a.begun <= b.begun && a.taken.Keys <= b.taken.Keys
    && (forall state | state in b.drawn && state !in a.drawn :: b.drawn[state].rid == rid)
    && (forall state | state in a.drawn :: b.drawn[state] == a.drawn[state])
    && (forall state | state in b.begun && state !in a.begun :: state in a.drawn && a.drawn[state].rid == rid)
    && (forall state | state in b.taken && state !in a.taken :: b.taken[state].rid == rid)
    && (forall state | state in a.taken :: b.taken[state] == a.taken[state])
    && (a.redirects <= b.redirects && forall d | d in b.redirects :: d in a.redirects || d.rid == rid)
    && (a.exchanges <= b.exchanges && forall e | e in b.exchanges :: e in a.exchanges || e.rid == rid)
    && (a.cookies <= b.cookies && forall c | c in b.cookies :: c in a.cookies || c.rid == rid)
  }

  ghost predicate AlikeFor(a: Log, b: Log, rid: Rid) {
    && Drew(a, rid) == Drew(b, rid) && Began(a, rid) == Began(b, rid) && WasRedirected(a, rid) == WasRedirected(b, rid)
    && Took(a, rid) == Took(b, rid) && Exchanged(a, rid) == Exchanged(b, rid)
    && WasGranted(a, rid) == WasGranted(b, rid) && GotCookie(a, rid) == GotCookie(b, rid)
  }

  lemma OthersAlike(a: Log, b: Log, rid: Rid, i: Rid)
    requires OnlyFor(a, b, rid) && i != rid
    ensures AlikeFor(a, b, i)
  {
    assert Drew(a, i) == Drew(b, i) && Began(a, i) == Began(b, i) && Took(a, i) == Took(b, i);
    assert forall d: Redirect | d.rid == i :: d in a.redirects <==> d in b.redirects;
    assert forall e: Exchange | e.rid == i :: e in a.exchanges <==> e in b.exchanges;
    assert forall c: Cookie | c.rid == i :: c in a.cookies <==> c in b.cookies;
  }

  /** A login's step appends at most one record, of the kind its phase says. */
  lemma LoginAppends(cfg: Config, s: State, rid: Rid, r: Req, c: Choice, t: State)
    requires Enabled(cfg, s, Advance(rid, c)) && r == s.reqs[rid] && r.Login? && t == LoginStep(cfg, s, rid, c)
    ensures t.log.taken == s.log.taken && t.log.exchanges == s.log.exchanges && t.log.cookies == s.log.cookies
    ensures t.log.begun == s.log.begun + if r.phase.AtPut? && c.Proceed? then {r.phase.state} else {}
    ensures t.log.redirects == s.log.redirects
            || exists d: Redirect :: d.rid == rid && t.log.redirects == s.log.redirects + [d]
    ensures if r.phase.AtLimiter? && c.Random?
            then c.state in t.log.drawn && t.log.drawn == s.log.drawn[c.state := t.log.drawn[c.state]]
                 && t.log.drawn[c.state].rid == rid
            else t.log.drawn == s.log.drawn
  {
  }

  lemma LoginRecords(cfg: Config, s: State, rid: Rid, r: Req, c: Choice, t: State)
    requires DrawsOk(s) && ReqOk(s.log, rid, r)
    requires Enabled(cfg, s, Advance(rid, c)) && r == s.reqs[rid] && r.Login? && t == LoginStep(cfg, s, rid, c)
    ensures OnlyFor(s.log, t.log, rid)
  {
    LoginAppends(cfg, s, rid, r, c, t);
    if r.phase.AtLimiter? && c.Random? { NewState(s, c); }
  }

  lemma NewState(s: State, c: Choice)
    requires DrawsOk(s) && c.Random? && c.state !in s.log.used
    ensures c.state !in s.log.drawn
  {
    assert c.state in s.log.drawn ==> DrawOk(s.log, c.state);
  }

  lemma TakeRecords(s: State, rid: Rid, c: Choice, t: State)
    requires Conserved(s) && rid in s.reqs && s.reqs[rid].Callback? && (c.Proceed? ==> s.reqs[rid].state in s.pending)
    requires t == TakeStep(s, rid, c)
    ensures OnlyFor(s.log, t.log, rid)
  {
  }

  lemma CallbackRecords(cfg: Config, s: State, rid: Rid, r: Req, c: Choice, t: State)
    requires Conserved(s) && Enabled(cfg, s, Advance(rid, c)) && r == s.reqs[rid] && r.Callback?
    requires t == CallbackStep(cfg, s, rid, c)
    ensures OnlyFor(s.log, t.log, rid)
  {
    if r.phase.AtTake? {
      TakeRecords(s, rid, c, t);
    } else {
      LaterRecords(cfg, s, rid, r, c, t);
    }
  }

  /** After the take a callback only appends, each time at most one record. */
  lemma LaterAppends(cfg: Config, s: State, rid: Rid, r: Req, c: Choice, t: State)
    requires Enabled(cfg, s, Advance(rid, c)) && r == s.reqs[rid] && r.Callback? && !r.phase.AtTake?
    requires t == CallbackStep(cfg, s, rid, c)
    ensures t.log.exchanges == s.log.exchanges
            || exists e: Exchange :: e.rid == rid && t.log.exchanges == s.log.exchanges + [e]
    ensures t.log.cookies == s.log.cookies
            || exists k: Cookie :: k.rid == rid && t.log.cookies == s.log.cookies + [k]
  {
  }

  lemma LaterKeeps(cfg: Config, s: State, rid: Rid, r: Req, c: Choice, t: State)
    requires Enabled(cfg, s, Advance(rid, c)) && r == s.reqs[rid] && r.Callback? && !r.phase.AtTake?
    requires t == CallbackStep(cfg, s, rid, c)
    ensures t.log.drawn == s.log.drawn && t.log.begun == s.log.begun && t.log.taken == s.log.taken
    ensures t.log.redirects == s.log.redirects
  {
  }

  lemma LaterRecords(cfg: Config, s: State, rid: Rid, r: Req, c: Choice, t: State)
    requires Enabled(cfg, s, Advance(rid, c)) && r == s.reqs[rid] && r.Callback? && !r.phase.AtTake?
    requires t == CallbackStep(cfg, s, rid, c)
    ensures OnlyFor(s.log, t.log, rid)
  {
    LaterAppends(cfg, s, rid, r, c, t);
    LaterKeeps(cfg, s, rid, r, c, t);
  }

  // ---- every step keeps it ---------------------------------------------------------------

  lemma LoginMoves(cfg: Config, s: State, rid: Rid, r: Req, c: Choice, t: State)
    requires Inv(cfg, s) && Enabled(cfg, s, Advance(rid, c)) && r == s.reqs[rid] && r.Login?
    requires LoginOutcome(s.log, rid, r) && t == Next(cfg, s, Advance(rid, c))
    ensures LoginOutcome(t.log, rid, t.reqs[rid])
  {
    assert ReqOk(s.log, rid, r);
    match r.phase {
      case AtLimiter => if c.Random? { DrawMoves(cfg, s, rid, r, c, t); }
      case AtPut(state, _) => assert c.Proceed? ==> state in t.log.begun && t.log.drawn[state].rid == rid;
      case AtRedirect(_, _) => assert t.log.redirects[|s.log.redirects|].rid == rid;
    }
  }

  lemma DrawMoves(cfg: Config, s: State, rid: Rid, r: Req, c: Choice, t: State)
    requires Inv(cfg, s) && Enabled(cfg, s, Advance(rid, c)) && r == s.reqs[rid] && r.Login?
    requires r.phase.AtLimiter? && c.Random? && !Drew(s.log, rid) && t == Next(cfg, s, Advance(rid, c))
    ensures Drew(t.log, rid) && !Began(t.log, rid)
  {
    DrawIsNew(s, t, rid, c);
    assert t.log.drawn[c.state].rid == rid;
    assert forall state | state in t.log.drawn && t.log.drawn[state].rid == rid :: state == c.state;
  }

  lemma TakeMoves(s: State, rid: Rid, r: Req, c: Choice, t: State)
    requires rid in s.reqs && r == s.reqs[rid] && r.Callback? && r.phase.AtTake?
    requires (c.Proceed? ==> r.state in s.pending && r.state !in s.log.taken) && t == TakeStep(s, rid, c)
    requires CallbackOutcome(s.log, rid, r) && !Exchanged(s.log, rid) && !GotCookie(s.log, rid)
    ensures CallbackOutcome(t.log, rid, t.reqs[rid])
  {
    assert t.log.exchanges == s.log.exchanges && t.log.cookies == s.log.cookies && t.log.drawn == s.log.drawn;
    if c.Proceed? {
      assert t.log.taken[r.state].rid == rid;
    } else {
      assert t.log.taken == s.log.taken;
    }
  }

  lemma ExchangeMoves(cfg: Config, s: State, rid: Rid, r: Req, c: Choice, t: State)
    requires Enabled(cfg, s, Advance(rid, c)) && r == s.reqs[rid] && r.Callback? && r.phase.AtExchange?
    requires t == CallbackStep(cfg, s, rid, c) && CallbackOutcome(s.log, rid, r) && !GotCookie(s.log, rid)
    ensures CallbackOutcome(t.log, rid, t.reqs[rid])
  {
    var e := Exchange(rid, r.state, r.code, r.phase.pending.verifier, c);
    assert t.log.exchanges == s.log.exchanges + [e] && t.log.exchanges[|s.log.exchanges|] == e;
    assert t.log.taken == s.log.taken && t.log.cookies == s.log.cookies && t.log.drawn == s.log.drawn;
    assert Exchanged(t.log, rid) && (WasGranted(t.log, rid) <==> Yields(c));
  }

  /** A callback gets its cookie in the step that ends it, and only after a grant. */
  lemma CallbackMoves(cfg: Config, s: State, rid: Rid, r: Req, c: Choice, t: State)
    requires Inv(cfg, s) && Enabled(cfg, s, Advance(rid, c)) && r == s.reqs[rid] && r.Callback?
    requires CallbackOutcome(s.log, rid, r) && t == CallbackStep(cfg, s, rid, c)
    ensures CallbackOutcome(t.log, rid, t.reqs[rid])
  {
    NothingAhead(cfg, s, rid, r);
    match r.phase {
      case AtTake => TakeMoves(s, rid, r, c, t);
      case AtExchange(_) => ExchangeMoves(cfg, s, rid, r, c, t);
      case _ => LateMoves(cfg, s, rid, r, c, t);
    }
  }

  lemma LateMoves(cfg: Config, s: State, rid: Rid, r: Req, c: Choice, t: State)
    requires Enabled(cfg, s, Advance(rid, c)) && r == s.reqs[rid] && r.Callback?
    requires !r.phase.AtTake? && !r.phase.AtExchange? && ReqOk(s.log, rid, r)
    requires CallbackOutcome(s.log, rid, r) && t == CallbackStep(cfg, s, rid, c)
    requires r.phase.AtQuery? || r.phase.AtVerify? ==> !Exchanged(s.log, rid)
    requires !GotCookie(s.log, rid)
    ensures CallbackOutcome(t.log, rid, t.reqs[rid])
  {
    assert t.log.taken == s.log.taken && t.log.exchanges == s.log.exchanges && t.log.drawn == s.log.drawn;
    if r.phase.AtCookie? {
      assert t.log.cookies[|s.log.cookies|].rid == rid;
    } else {
      assert t.log.cookies == s.log.cookies;
    }
  }

  /** Records of a callback are as old as its phase says. */
  lemma NothingAhead(cfg: Config, s: State, rid: Rid, r: Req)
    requires Inv(cfg, s) && rid in s.reqs && r == s.reqs[rid] && r.Callback?
    ensures ReqOk(s.log, rid, r) && (r.phase.AtTake? && r.state in s.pending ==> r.state !in s.log.taken)
    ensures Exchanged(s.log, rid) ==> r.phase.AtStore? || r.phase.AtCookie? || r.phase.Answered?
    ensures GotCookie(s.log, rid) ==> r.phase.Answered?
  {
    if Exchanged(s.log, rid) {
      var e :| e in s.log.exchanges && e.rid == rid;
      assert ExchangeOk(s.log, s.reqs, e);
    }
    if GotCookie(s.log, rid) {
      var c :| c in s.log.cookies && c.rid == rid;
      assert CookieOk(s.log, s.reqs, c);
    }
  }

  /** The outcome of a request that does not move stays what it was. */
  lemma BystanderOutcome(cfg: Config, s: State, t: State, rid: Rid, i: Rid)
    requires Inv(cfg, s) && Outcomes(s) && OnlyFor(s.log, t.log, rid) && i != rid && i in s.reqs
    ensures OutcomeOk(t.log, i, s.reqs[i])
  {
    var r := s.reqs[i];
    OthersAlike(s.log, t.log, rid, i);
    assert OutcomeOk(s.log, i, r);
    if r.Callback? && Took(s.log, i) {
      assert r.state in s.log.taken && r.state in s.log.begun && BegunOk(s.log, s.reqs, r.state);
      assert r.state in s.log.drawn && r.state in t.log.drawn;
    }
  }

  lemma AdvanceOutcomes(cfg: Config, s: State, rid: Rid, r: Req, c: Choice, t: State)
    requires Inv(cfg, s) && Outcomes(s) && Enabled(cfg, s, Advance(rid, c)) && r == s.reqs[rid]
    requires t == Next(cfg, s, Advance(rid, c))
    ensures Outcomes(t)
  {
    assert OutcomeOk(s.log, rid, r);
    OwnOutcome(cfg, s, rid, r, c, t);
    AdvanceAttributes(cfg, s, rid, r, c, t);
    OutcomesCarryOver(cfg, s, rid, t);
  }

  lemma OwnOutcome(cfg: Config, s: State, rid: Rid, r: Req, c: Choice, t: State)
    requires Inv(cfg, s) && Enabled(cfg, s, Advance(rid, c)) && r == s.reqs[rid] && OutcomeOk(s.log, rid, r)
    requires t == Next(cfg, s, Advance(rid, c))
    ensures OnlyFor(s.log, t.log, rid) && rid in t.reqs && OutcomeOk(t.log, rid, t.reqs[rid])
  {
    OneMoves(cfg, s, rid, c, t);
    if r.Login? {
      assert ReqOk(s.log, rid, r);
      LoginRecords(cfg, s, rid, r, c, t);
      LoginMoves(cfg, s, rid, r, c, t);
    } else {
      CallbackRecords(cfg, s, rid, r, c, t);
      CallbackMoves(cfg, s, rid, r, c, t);
    }
  }

  lemma OutcomesCarryOver(cfg: Config, s: State, rid: Rid, t: State)
    requires Inv(cfg, s) && Outcomes(s) && OnlyFor(s.log, t.log, rid) && Attributed(t)
    requires rid in t.reqs && t.reqs == s.reqs[rid := t.reqs[rid]] && OutcomeOk(t.log, rid, t.reqs[rid])
    ensures Outcomes(t)
  {
    forall i | i in t.reqs ensures OutcomeOk(t.log, i, t.reqs[i]) {
      if i != rid { BystanderOutcome(cfg, s, t, rid, i); }
    }
  }

  /** Only the phase of the request that moves changes. */
  lemma OneMoves(cfg: Config, s: State, rid: Rid, c: Choice, t: State)
    requires Enabled(cfg, s, Advance(rid, c)) && t == Next(cfg, s, Advance(rid, c))
    ensures rid in t.reqs && t.reqs == s.reqs[rid := s.reqs[rid].(phase := t.reqs[rid].phase)] && t.clock == s.clock
  {
  }

  /** A login takes nothing; a callback prepares nothing and takes its own state only. */
  lemma KindsOfRecord(cfg: Config, s: State, rid: Rid, r: Req, c: Choice, t: State)
    requires Enabled(cfg, s, Advance(rid, c)) && r == s.reqs[rid] && t == Next(cfg, s, Advance(rid, c))
    ensures r.Login? ==> t.log.taken == s.log.taken && t.log.expired == s.log.expired
    ensures r.Callback? ==>
              t.log.drawn == s.log.drawn && t.log.taken.Keys <= s.log.taken.Keys + {r.state}
              && t.log.expired.Keys <= s.log.expired.Keys + {r.state}
  {
  }

  lemma AdvanceAttributes(cfg: Config, s: State, rid: Rid, r: Req, c: Choice, t: State)
    requires Attributed(s) && Enabled(cfg, s, Advance(rid, c)) && r == s.reqs[rid] && t == Next(cfg, s, Advance(rid, c))
    requires OnlyFor(s.log, t.log, rid)
    ensures Attributed(t) && t.reqs == s.reqs[rid := t.reqs[rid]]
  {
    OneMoves(cfg, s, rid, c, t);
    KindsOfRecord(cfg, s, rid, r, c, t);
    MovesKeepAttribution(s, rid, r, t);
  }

  lemma MovesKeepAttribution(s: State, rid: Rid, r: Req, t: State)
    requires Attributed(s) && rid in s.reqs && r == s.reqs[rid] && OnlyFor(s.log, t.log, rid)
    requires rid in t.reqs && t.reqs == s.reqs[rid := r.(phase := t.reqs[rid].phase)]
    requires r.Login? ==> t.log.taken == s.log.taken
    requires r.Callback? ==> t.log.drawn == s.log.drawn && t.log.taken.Keys <= s.log.taken.Keys + {r.state}
    ensures Attributed(t)
  {
  }

  lemma NewcomerOutcome(cfg: Config, s: State, rid: Rid, r: Req)
    requires Inv(cfg, s) && Attributed(s) && rid !in s.reqs && r.phase == if r.Login? then AtLimiter else AtQuery
    ensures OutcomeOk(s.log, rid, r)
  {
  }

  lemma QuietOutcomes(s: State, t: State)
    requires Outcomes(s) && t.reqs == s.reqs && t.log == s.log.(expired := t.log.expired)
    ensures Outcomes(t)
  {
    forall i | i in t.reqs ensures OutcomeOk(t.log, i, t.reqs[i]) {
      assert OutcomeOk(s.log, i, s.reqs[i]) && AlikeFor(s.log, t.log, i);
    }
  }

  lemma ArrivalOutcomes(cfg: Config, s: State, rid: Rid, r: Req, t: State)
    requires Inv(cfg, s) && Outcomes(s) && rid !in s.reqs && r.phase == if r.Login? then AtLimiter else AtQuery
    requires t == s.(reqs := s.reqs[rid := r])
    ensures Outcomes(t)
  {
    NewcomerOutcome(cfg, s, rid, r);
    forall i | i in t.reqs ensures OutcomeOk(t.log, i, t.reqs[i]) {
      assert i != rid ==> OutcomeOk(s.log, i, s.reqs[i]);
    }
  }

  lemma NextOutcomes(cfg: Config, s: State, a: Action, t: State)
    requires Inv(cfg, s) && Outcomes(s) && Enabled(cfg, s, a) && t == Next(cfg, s, a)
    ensures Outcomes(t)
  {
    match a {
      case Advance(rid, c) => AdvanceOutcomes(cfg, s, rid, s.reqs[rid], c, t);
      case Arrive(rid, req) => ArrivalOutcomes(cfg, s, rid, req, t);
      case _ => QuietOutcomes(s, t);
    }
  }

  // ---- the time a login may take -----------------------------------------------------------

  /** Logins are taken within their time to live, and dropped only after it. */
  predicate InTime(cfg: Config, log: Log, clock: int, state: Token) {
    && state in log.drawn && log.drawn[state].at <= clock
    && (state in log.taken ==> 0 <= log.taken[state].at - log.drawn[state].at < cfg.pendingTTL)
    && (state in log.expired ==> log.expired[state] - log.drawn[state].at >= cfg.pendingTTL)
  }

  ghost predicate Timed(cfg: Config, s: State) {
    && s.log.taken.Keys <= s.log.drawn.Keys && s.log.expired.Keys <= s.log.drawn.Keys
    && forall state | state in s.log.drawn :: InTime(cfg, s.log, s.clock, state)
  }

  /** The store has every login as it was prepared. */
  ghost predicate Dated(s: State) {
    forall state | state in s.pending :: state in s.log.drawn && s.pending[state].created == s.log.drawn[state].at
  }

  lemma StoreIsDated(cfg: Config, s: State)
    requires Inv(cfg, s)
    ensures Dated(s)
  {
    forall state | state in s.pending
      ensures state in s.log.drawn && s.pending[state].created == s.log.drawn[state].at
    {
      assert BegunAs(s.log, state, s.pending[state]) && DrawOk(s.log, state);
    }
  }

  lemma NextTimed(cfg: Config, s: State, a: Action, t: State)
    requires Inv(cfg, s) && Timed(cfg, s) && Enabled(cfg, s, a) && t == Next(cfg, s, a)
    ensures Timed(cfg, t)
  {
    StoreIsDated(cfg, s);
    if !a.Advance? {
      SystemTimed(cfg, s, a, t);
    } else if s.reqs[a.rid].Login? {
      if s.reqs[a.rid].phase.AtLimiter? && a.choice.Random? { DrawIsNew(s, t, a.rid, a.choice); }
      LoginTimed(cfg, s, a.rid, s.reqs[a.rid], a.choice, t);
    } else if s.reqs[a.rid].phase.AtTake? {
      TakeTimed(cfg, s, a.rid, s.reqs[a.rid], a.choice, t);
    } else {
      LaterTimed(cfg, s, a.rid, s.reqs[a.rid], a.choice, t);
    }
  }

  lemma SystemTimed(cfg: Config, s: State, a: Action, t: State)
    requires Dated(s) && Timed(cfg, s) && Enabled(cfg, s, a) && t == Next(cfg, s, a) && !a.Advance?
    ensures Timed(cfg, t)
  {
    forall state | state in t.log.drawn ensures InTime(cfg, t.log, t.clock, state) {
      assert InTime(cfg, s.log, s.clock, state);
    }
  }

  lemma TakeTimed(cfg: Config, s: State, rid: Rid, r: Req, c: Choice, t: State)
    requires Dated(s) && Timed(cfg, s) && Enabled(cfg, s, Advance(rid, c)) && r == s.reqs[rid] && r.Callback?
    requires r.phase.AtTake? && t == TakeStep(s, rid, c)
    ensures Timed(cfg, t)
  {
    forall state | state in t.log.drawn ensures InTime(cfg, t.log, t.clock, state) {
      assert InTime(cfg, s.log, s.clock, state);
    }
  }

  lemma LaterTimed(cfg: Config, s: State, rid: Rid, r: Req, c: Choice, t: State)
    requires Timed(cfg, s) && Enabled(cfg, s, Advance(rid, c)) && r == s.reqs[rid] && r.Callback?
    requires !r.phase.AtTake? && t == CallbackStep(cfg, s, rid, c)
    ensures Timed(cfg, t)
  {
    assert t.log.drawn == s.log.drawn && t.log.taken == s.log.taken && t.log.expired == s.log.expired;
    assert t.clock == s.clock;
    forall state | state in t.log.drawn ensures InTime(cfg, t.log, t.clock, state) {
      assert InTime(cfg, s.log, s.clock, state);
    }
  }

  lemma LoginTimed(cfg: Config, s: State, rid: Rid, r: Req, c: Choice, t: State)
    requires Timed(cfg, s) && Enabled(cfg, s, Advance(rid, c)) && r == s.reqs[rid] && r.Login?
    requires r.phase.AtLimiter? && c.Random? ==> c.state !in s.log.drawn
    requires t == LoginStep(cfg, s, rid, c)
    ensures Timed(cfg, t)
  {
    assert t.log.taken == s.log.taken && t.log.expired == s.log.expired && t.clock == s.clock;
    forall state | state in t.log.drawn ensures InTime(cfg, t.log, t.clock, state) {
      assert state in s.log.drawn ==> InTime(cfg, s.log, s.clock, state) && t.log.drawn[state] == s.log.drawn[state];
    }
  }

  lemma {:induction false} RunOutcomes(cfg: Config, s: State, acts: seq<Action>, t: State)
    requires Inv(cfg, s) && Outcomes(s) && Timed(cfg, s) && Leads(cfg, s, acts, t)
    ensures Inv(cfg, t) && Outcomes(t) && Timed(cfg, t)
    decreases |acts|
  {
    if acts != [] {
      var u := Next(cfg, s, acts[0]);
      NextKeeps(cfg, s, acts[0]);
      NextOutcomes(cfg, s, acts[0], u);
      NextTimed(cfg, s, acts[0], u);
      RunOutcomes(cfg, u, acts[1..], t);
    }
  }

  lemma ReachedOutcomes(cfg: Config, s: State)
    requires Reached(cfg, s)
    ensures Inv(cfg, s) && Outcomes(s) && Timed(cfg, s)
  {
    var acts :| Leads(cfg, INIT, acts, s);
    RunOutcomes(cfg, INIT, acts, s);
  }

  // ---- the theorems -------------------------------------------------------------------------

  /** In every reachable state a finished callback answered 302 exactly when it set its cookie; it
      did so exactly when it took its login, presented a code and that login's nonce, and the token
      endpoint granted a token; refused there, it answered 502, and 400 everywhere else. */
  lemma CallbackAnswersExactly(cfg: Config, s: State, rid: Rid)
    requires Reached(cfg, s) && rid in s.reqs && s.reqs[rid].Callback? && s.reqs[rid].phase.Answered?
    ensures s.reqs[rid].phase.status ==
            if !Took(s.log, rid) || !Presents(s.log, s.reqs[rid]) then 400
            else if WasGranted(s.log, rid) then 302 else 502
    ensures s.reqs[rid].phase.status == 302 <==> GotCookie(s.log, rid)
    ensures s.reqs[rid].phase.status != 400 <==> Exchanged(s.log, rid)
  {
    ReachedOutcomes(cfg, s);
    assert OutcomeOk(s.log, rid, s.reqs[rid]);
    NothingAhead(cfg, s, rid, s.reqs[rid]);
  }

  /** A callback that carries the issuer's error spends no login and never gets to the token
      endpoint. */
  lemma ErrorsSpendNothing(cfg: Config, s: State, rid: Rid)
    requires Reached(cfg, s) && rid in s.reqs && s.reqs[rid].Callback? && s.reqs[rid].error != ""
    ensures !Took(s.log, rid) && !Exchanged(s.log, rid) && !GotCookie(s.log, rid)
  {
    ReachedOutcomes(cfg, s);
    assert OutcomeOk(s.log, rid, s.reqs[rid]);
    NothingAhead(cfg, s, rid, s.reqs[rid]);
  }

  /** In every reachable state a finished /bff/login answered 302 exactly when the browser was
      redirected, which is when its login was put; 503 when it was prepared but not put, and 429
      when the limiter refused it before any token was drawn. */
  lemma LoginAnswersExactly(cfg: Config, s: State, rid: Rid)
    requires Reached(cfg, s) && rid in s.reqs && s.reqs[rid].Login? && s.reqs[rid].phase.Answered?
    ensures s.reqs[rid].phase.status ==
            if Began(s.log, rid) then 302 else if Drew(s.log, rid) then 503 else 429
    ensures s.reqs[rid].phase.status == 302 <==> WasRedirected(s.log, rid)
  {
    ReachedOutcomes(cfg, s);
    assert OutcomeOk(s.log, rid, s.reqs[rid]);
    if WasRedirected(s.log, rid) {
      var d :| d in s.log.redirects && d.rid == rid;
      assert RedirectOk(cfg, s.log, s.reqs, d);
    }
  }

  /** No login is taken, and so none reaches the token endpoint, once its time to live has passed
      since it was prepared; none is dropped before that. */
  lemma LoginsAreTakenInTime(cfg: Config, s: State, state: Token)
    requires Reached(cfg, s)
    ensures state in s.log.taken ==>
              state in s.log.drawn && 0 <= s.log.taken[state].at - s.log.drawn[state].at < cfg.pendingTTL
    ensures state in s.log.expired ==>
              state in s.log.drawn && s.log.expired[state] - s.log.drawn[state].at >= cfg.pendingTTL
    ensures forall e | e in s.log.exchanges && e.state == state :: state in s.log.taken
  {
    ReachedOutcomes(cfg, s);
    assert state in s.log.drawn ==> InTime(cfg, s.log, s.clock, state);
    forall e | e in s.log.exchanges && e.state == state ensures state in s.log.taken {
      assert ExchangeOk(s.log, s.reqs, e);
    }
  }

  lemma SweepDropsTheOld(cfg: Config, s: State, t: State, state: Token)
    requires Dated(s) && t == SweepPending(cfg, s)
    ensures state in s.pending ==> state in s.log.drawn
    ensures state in t.pending <==> state in s.pending && s.clock - s.log.drawn[state].at < cfg.pendingTTL
    ensures state in t.pending ==> t.pending[state] == s.pending[state]
  {
  }

  /** The sweep drops exactly the stored logins whose time has passed. */
  lemma SweepDropsTheExpired(cfg: Config, s: State, t: State, state: Token)
    requires Reached(cfg, s) && t == Next(cfg, s, Sweep)
    ensures state in s.pending ==> state in s.log.drawn
    ensures state in t.pending <==> state in s.pending && s.clock - s.log.drawn[state].at < cfg.pendingTTL
    ensures state in t.pending ==> t.pending[state] == s.pending[state]
  {
    ReachedOutcomes(cfg, s);
    StoreIsDated(cfg, s);
    SweepDropsTheOld(cfg, s, t, state);
  }

  // ---- signing in ---------------------------------------------------------------------------

  /** What a callback must bring to sign in. */
  predicate Acceptable(cfg: Config, s: State, r: Req)
    requires r.Callback?
  {
    && r.error == "" && r.code != "" && r.nonce != ""
    && r.state in s.pending && !IsOld(cfg, s, r.state) && r.nonce == s.pending[r.state].nonce
  }

  ghost predicate OwnRun(rid: Rid, acts: seq<Action>) {
    forall i | 0 <= i < |acts| :: acts[i].Advance? && acts[i].rid == rid
  }

  /** Left to itself, the request can end in a redirect: a login to the issuer, a callback with its
      cookie back to the application. */
  ghost predicate CanGetThrough(cfg: Config, s: State, rid: Rid) {
    exists acts, t :: OwnRun(rid, acts) && Leads(cfg, s, acts, t) && rid in t.reqs && t.reqs[rid].phase == Answered(302)
  }

  lemma Onward(cfg: Config, s: State, rid: Rid, c: Choice, t: State)
    requires Enabled(cfg, s, Advance(rid, c)) && t == Next(cfg, s, Advance(rid, c)) && CanGetThrough(cfg, t, rid)
    ensures CanGetThrough(cfg, s, rid)
  {
    var acts, u :| OwnRun(rid, acts) && Leads(cfg, t, acts, u) && rid in u.reqs && u.reqs[rid].phase == Answered(302);
    var all := [Advance(rid, c)] + acts;
    assert all[1..] == acts && OwnRun(rid, all) && Leads(cfg, s, all, u);
  }

  /** Whoever has the grant gets the cookie. */
  lemma StoresAndSetsTheCookie(cfg: Config, s: State, rid: Rid, sid: Token)
    requires rid in s.reqs && s.reqs[rid].Callback? && s.reqs[rid].phase.AtStore? && sid !in s.log.used
    ensures CanGetThrough(cfg, s, rid)
  {
    var u := Next(cfg, s, Advance(rid, Session(sid)));
    var t := Next(cfg, u, Advance(rid, Proceed));
    assert OwnRun(rid, []) && Leads(cfg, t, [], t) && t.reqs[rid].phase == Answered(302);
    Onward(cfg, u, rid, Proceed, t);
    Onward(cfg, s, rid, Session(sid), u);
  }

  lemma FromTheTake(cfg: Config, s: State, rid: Rid, r: Req, access: Token, sid: Token)
    requires rid in s.reqs && r == s.reqs[rid] && r.Callback? && r.phase.AtTake? && Acceptable(cfg, s, r)
    requires access != "" && sid !in s.log.used
    ensures CanGetThrough(cfg, s, rid)
  {
    var u := Next(cfg, s, Advance(rid, Proceed));
    var v := Next(cfg, u, Advance(rid, Proceed));
    var w := Next(cfg, v, Advance(rid, Reply(200, access)));
    StoresAndSetsTheCookie(cfg, w, rid, sid);
    Onward(cfg, v, rid, Reply(200, access), w);
    Onward(cfg, u, rid, Proceed, v);
    Onward(cfg, s, rid, Proceed, u);
  }

  lemma AnsweredIsFinal(cfg: Config, s: State, rid: Rid, acts: seq<Action>, t: State)
    requires OwnRun(rid, acts) && Leads(cfg, s, acts, t) && rid in s.reqs
    ensures s.reqs[rid].phase.Answered? ==> t == s
  {
  }

  lemma OnlyWithTheNonce(cfg: Config, s: State, rid: Rid, r: Req, acts: seq<Action>, t: State)
    requires rid in s.reqs && r == s.reqs[rid] && r.Callback? && r.phase.AtVerify?
    requires OwnRun(rid, acts) && Leads(cfg, s, acts, t) && rid in t.reqs && t.reqs[rid].phase == Answered(302)
    ensures r.nonce != "" && r.nonce == r.phase.pending.nonce
  {
    var u := Next(cfg, s, acts[0]);
    AnsweredIsFinal(cfg, u, rid, acts[1..], t);
  }

  lemma OnlyByTaking(cfg: Config, s: State, rid: Rid, r: Req, acts: seq<Action>, t: State)
    requires rid in s.reqs && r == s.reqs[rid] && r.Callback? && r.phase.AtTake? && r.error == ""
    requires OwnRun(rid, acts) && Leads(cfg, s, acts, t) && rid in t.reqs && t.reqs[rid].phase == Answered(302)
    ensures Acceptable(cfg, s, r)
  {
    var u := Next(cfg, s, acts[0]);
    AnsweredIsFinal(cfg, u, rid, acts[1..], t);
    if u.reqs[rid].phase.AtVerify? { OnlyWithTheNonce(cfg, u, rid, u.reqs[rid], acts[1..], t); }
  }

  /** From every state a new callback, left to itself, can sign in exactly when it carries no
      error, a code, the state of a stored login within its time, and that login's nonce. */
  lemma SignsInExactlyIf(cfg: Config, s: State, rid: Rid, access: Token, sid: Token)
    requires rid in s.reqs && s.reqs[rid].Callback? && s.reqs[rid].phase.AtQuery?
    requires access != "" && sid !in s.log.used
    ensures CanGetThrough(cfg, s, rid) <==> Acceptable(cfg, s, s.reqs[rid])
  {
    var r, u := s.reqs[rid], Next(cfg, s, Advance(rid, Proceed));
    if Acceptable(cfg, s, r) {
      FromTheTake(cfg, u, rid, u.reqs[rid], access, sid);
      Onward(cfg, s, rid, Proceed, u);
    }
    if CanGetThrough(cfg, s, rid) {
      var acts, t :| OwnRun(rid, acts) && Leads(cfg, s, acts, t) && rid in t.reqs && t.reqs[rid].phase == Answered(302);
      assert OwnRun(rid, acts[1..]) && acts[0] == Advance(rid, Proceed);
      AnsweredIsFinal(cfg, u, rid, acts[1..], t);
      if u.reqs[rid].phase.AtTake? { OnlyByTaking(cfg, u, rid, u.reqs[rid], acts[1..], t); }
    }
  }

  /** From every state a login that has drawn its tokens, left to itself, can send the browser to
      the issuer exactly when the store has room. */
  lemma RedirectsExactlyIf(cfg: Config, s: State, rid: Rid)
    requires rid in s.reqs && s.reqs[rid].Login? && s.reqs[rid].phase.AtPut?
    ensures CanGetThrough(cfg, s, rid) <==> cfg.capacity.None? || |s.pending| < cfg.capacity.value
  {
    if !Full(cfg, s) {
      var u := Next(cfg, s, Advance(rid, Proceed));
      var t := Next(cfg, u, Advance(rid, Proceed));
      assert OwnRun(rid, []) && Leads(cfg, t, [], t) && t.reqs[rid].phase == Answered(302);
      Onward(cfg, u, rid, Proceed, t);
      Onward(cfg, s, rid, Proceed, u);
    } else if CanGetThrough(cfg, s, rid) {
      var acts, t :| OwnRun(rid, acts) && Leads(cfg, s, acts, t) && rid in t.reqs && t.reqs[rid].phase == Answered(302);
      AnsweredIsFinal(cfg, Next(cfg, s, acts[0]), rid, acts[1..], t);
    }
  }
}
