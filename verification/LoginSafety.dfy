/** What every run of the sign-in protocol keeps. */
module LoginSafety {
  import opened Options
  import opened LoginProtocol

  // ---- one fact per request and per record ---------------------------------------------

  /** The login that was put under a state is exactly the one drawn for it. */
  predicate BegunAs(log: Log, state: Token, p: Pending) {
    state in log.begun && state in log.drawn && log.drawn[state].pending == p
  }

  /** This callback is the one that took the login, and its browser showed the login's nonce. */
  predicate Won(log: Log, rid: Rid, r: Req, p: Pending) {
    r.Callback? && BegunAs(log, r.state, p) && r.state in log.taken && log.taken[r.state].rid == rid
  }

  predicate ReqOk(log: Log, rid: Rid, r: Req) {
    match r.phase
    case AtLimiter => r.Login?
    case AtPut(state, p) =>
      && r.Login? && state !in log.begun && state in log.drawn && log.drawn[state].rid == rid
      && log.drawn[state].pending == p && r.returnTo == p.returnTo
    case AtRedirect(state, p) =>
      r.Login? && BegunAs(log, state, p) && log.drawn[state].rid == rid && r.returnTo == p.returnTo
    case AtQuery | AtTake => r.Callback?
    case AtVerify(p) => Won(log, rid, r, p)
    case AtExchange(p) => Won(log, rid, r, p) && r.nonce == p.nonce
    case AtStore(p, access) =>
      && Won(log, rid, r, p) && r.nonce == p.nonce && access != ""
      && Exchange(rid, r.state, r.code, p.verifier, Reply(200, access)) in log.exchanges
    case AtCookie(p, m) =>
      Won(log, rid, r, p) && r.nonce == p.nonce && m.rid == rid && m.state == r.state && m in log.minted
    case Answered(_) => true
  }

  predicate DrawOk(log: Log, state: Token) {
    && state in log.drawn && state in log.used
    && log.drawn[state].pending.nonce in log.used && log.drawn[state].pending.nonce != ""
    && log.drawn[state].pending.created == log.drawn[state].at
  }

  /** A stored login belongs to a request that was, or will be, sent to the issuer. */
  predicate BegunOk(log: Log, reqs: map<Rid, Req>, state: Token) {
    && state in log.drawn && log.drawn[state].rid in reqs
    && var r := reqs[log.drawn[state].rid];
       && r.Login? && r.returnTo == log.drawn[state].pending.returnTo
       && (r.phase == AtRedirect(state, log.drawn[state].pending) || r.phase == Answered(302))
  }

  predicate RedirectOk(cfg: Config, log: Log, reqs: map<Rid, Req>, d: Redirect) {
    && d.state in log.begun && d.state in log.drawn && log.drawn[d.state].rid == d.rid
    && d.challenge == cfg.s256(log.drawn[d.state].pending.verifier) && d.nonce == log.drawn[d.state].pending.nonce
    && d.rid in reqs && reqs[d.rid].Login? && reqs[d.rid].phase == Answered(302)
  }

  predicate ExchangeOk(log: Log, reqs: map<Rid, Req>, e: Exchange) {
    && e.rid in reqs && reqs[e.rid].Callback? && reqs[e.rid].state == e.state && reqs[e.rid].code == e.code
    && e.state in log.drawn && Won(log, e.rid, reqs[e.rid], log.drawn[e.state].pending)
    && reqs[e.rid].nonce == log.drawn[e.state].pending.nonce && e.verifier == log.drawn[e.state].pending.verifier
    && (reqs[e.rid].phase.AtStore? || reqs[e.rid].phase.AtCookie? || reqs[e.rid].phase.Answered?)
  }

  predicate MintedOk(log: Log, reqs: map<Rid, Req>, m: Minted) {
    && m.rid in reqs && reqs[m.rid].Callback? && reqs[m.rid].state == m.state && m.sid in log.used
    && m.state in log.drawn && Won(log, m.rid, reqs[m.rid], log.drawn[m.state].pending)
    && m.access != ""
    && Exchange(m.rid, m.state, reqs[m.rid].code, log.drawn[m.state].pending.verifier, Reply(200, m.access))
       in log.exchanges
    && (reqs[m.rid].phase.AtCookie? || reqs[m.rid].phase.Answered?)
  }

  predicate CookieOk(log: Log, reqs: map<Rid, Req>, c: Cookie) {
    && c.rid in reqs && reqs[c.rid].Callback? && reqs[c.rid].phase.Answered?
    && c.minted in log.minted && c.minted.rid == c.rid && c.minted.state == reqs[c.rid].state
    && c.minted.state in log.drawn && c.location == log.drawn[c.minted.state].pending.returnTo
  }

  // ---- the invariant -------------------------------------------------------------------

  /** Conservation: every login that was put is stored, was taken, or expired; never two of them. */
  ghost predicate Conserved(s: State) {
    && s.log.begun == s.pending.Keys + s.log.taken.Keys + s.log.expired.Keys
    && s.pending.Keys !! s.log.taken.Keys && s.pending.Keys !! s.log.expired.Keys
    && s.log.taken.Keys !! s.log.expired.Keys
    && (forall state | state in s.pending :: BegunAs(s.log, state, s.pending[state]))
  }

  ghost predicate DrawsOk(s: State) {
    && (forall state | state in s.log.drawn :: DrawOk(s.log, state))
    && (forall a, b | a in s.log.drawn && b in s.log.drawn ::
          s.log.drawn[a].pending.nonce == s.log.drawn[b].pending.nonce ==> a == b)
    && (forall state | state in s.log.begun :: BegunOk(s.log, s.reqs, state))
  }

  ghost predicate RecordsOk(cfg: Config, s: State) {
    && (forall d | d in s.log.redirects :: RedirectOk(cfg, s.log, s.reqs, d))
    && (forall e | e in s.log.exchanges :: ExchangeOk(s.log, s.reqs, e))
    && (forall m | m in s.log.minted :: MintedOk(s.log, s.reqs, m))
    && (forall c | c in s.log.cookies :: CookieOk(s.log, s.reqs, c))
  }

  /** Nothing happens twice for one state. */
  ghost predicate OnceEach(s: State) {
    && (forall i, j | 0 <= i < j < |s.log.exchanges| :: s.log.exchanges[i].state != s.log.exchanges[j].state)
    && (forall i, j | 0 <= i < j < |s.log.minted| :: s.log.minted[i].state != s.log.minted[j].state)
    && (forall i, j | 0 <= i < j < |s.log.minted| :: s.log.minted[i].sid != s.log.minted[j].sid)
    && (forall i, j | 0 <= i < j < |s.log.cookies| :: s.log.cookies[i].rid != s.log.cookies[j].rid)
  }

  ghost predicate ReqsOk(s: State) {
    forall rid | rid in s.reqs :: ReqOk(s.log, rid, s.reqs[rid])
  }

  predicate Bounded(cfg: Config, s: State) {
    cfg.capacity.Some? ==> |s.pending| <= cfg.capacity.value
  }

  ghost predicate Inv(cfg: Config, s: State) {
    && Conserved(s) && DrawsOk(s) && RecordsOk(cfg, s) && OnceEach(s)
    && ReqsOk(s) && Bounded(cfg, s)
  }

  // ---- what a step may change ----------------------------------------------------------

  ghost predicate Extends(a: Log, b: Log) {
    && a.drawn.Keys <= b.drawn.Keys && (forall k | k in a.drawn :: b.drawn[k] == a.drawn[k])
    && a.taken.Keys <= b.taken.Keys && (forall k | k in a.taken :: b.taken[k] == a.taken[k])
    && a.begun <= b.begun && a.used <= b.used
    && a.exchanges <= b.exchanges && a.minted <= b.minted
  }

  /** A handler never steps back behind what it has already recorded. */
  predicate Later(p: Phase, q: Phase) {
    && (p.AtStore? ==> q.AtCookie? || q.Answered?)
    && (p.AtCookie? ==> q.Answered?)
    && (p.AtRedirect? ==> q == Answered(302))
    && (p.Answered? ==> q == p)
  }

  ghost predicate Moves(s: State, t: State, rid: Rid) {
    && Extends(s.log, t.log) && rid in s.reqs && rid in t.reqs
    && t.reqs == s.reqs[rid := s.reqs[rid].(phase := t.reqs[rid].phase)]
    && Later(s.reqs[rid].phase, t.reqs[rid].phase)
  }

  lemma RecordsSurvive(cfg: Config, s: State, t: State, rid: Rid)
    requires RecordsOk(cfg, s) && Moves(s, t, rid)
    requires forall d | d in t.log.redirects :: d in s.log.redirects || RedirectOk(cfg, t.log, t.reqs, d)
    requires forall e | e in t.log.exchanges :: e in s.log.exchanges || ExchangeOk(t.log, t.reqs, e)
    requires forall m | m in t.log.minted :: m in s.log.minted || MintedOk(t.log, t.reqs, m)
    requires forall c | c in t.log.cookies :: c in s.log.cookies || CookieOk(t.log, t.reqs, c)
    ensures RecordsOk(cfg, t)
  {
    forall e | e in t.log.exchanges ensures ExchangeOk(t.log, t.reqs, e) {
      assert e in s.log.exchanges ==> ExchangeOk(s.log, s.reqs, e);
    }
    forall d | d in t.log.redirects ensures RedirectOk(cfg, t.log, t.reqs, d) {
      assert d in s.log.redirects ==> RedirectOk(cfg, s.log, s.reqs, d);
    }
    forall m | m in t.log.minted ensures MintedOk(t.log, t.reqs, m) {
      assert m in s.log.minted ==> MintedOk(s.log, s.reqs, m);
    }
    forall c | c in t.log.cookies ensures CookieOk(t.log, t.reqs, c) {
      assert c in s.log.cookies ==> CookieOk(s.log, s.reqs, c);
    }
  }

  lemma DrawsSurvive(s: State, t: State, rid: Rid)
    requires DrawsOk(s) && Moves(s, t, rid) && t.log.drawn == s.log.drawn
    requires forall state | state in t.log.begun :: state in s.log.begun || BegunOk(t.log, t.reqs, state)
    ensures DrawsOk(t)
  {
    forall state | state in t.log.drawn ensures DrawOk(t.log, state) {
      assert DrawOk(s.log, state);
    }
    forall state | state in t.log.begun ensures BegunOk(t.log, t.reqs, state) {
      assert state in s.log.begun ==> BegunOk(s.log, s.reqs, state);
    }
  }

  /** Other requests are not disturbed, as long as no login of theirs was put for them. */
  lemma RequestsSurvive(s: State, t: State, rid: Rid)
    requires Moves(s, t, rid) && ReqsOk(s) && ReqOk(t.log, rid, t.reqs[rid])
    requires forall state | state in t.log.begun && state !in s.log.begun ::
               state in s.log.drawn && s.log.drawn[state].rid == rid
    ensures ReqsOk(t)
  {
    forall i | i in t.reqs && i != rid ensures ReqOk(t.log, i, t.reqs[i]) {
      assert ReqOk(s.log, i, s.reqs[i]);
    }
  }

  /** Everything but the pending logins, for a step that puts and draws nothing. */
  lemma LogSurvives(cfg: Config, s: State, t: State, rid: Rid)
    requires DrawsOk(s) && RecordsOk(cfg, s) && ReqsOk(s) && Moves(s, t, rid)
    requires t.log.drawn == s.log.drawn && t.log.begun == s.log.begun && ReqOk(t.log, rid, t.reqs[rid])
    requires forall d | d in t.log.redirects :: d in s.log.redirects || RedirectOk(cfg, t.log, t.reqs, d)
    requires forall e | e in t.log.exchanges :: e in s.log.exchanges || ExchangeOk(t.log, t.reqs, e)
    requires forall m | m in t.log.minted :: m in s.log.minted || MintedOk(t.log, t.reqs, m)
    requires forall c | c in t.log.cookies :: c in s.log.cookies || CookieOk(t.log, t.reqs, c)
    ensures DrawsOk(t) && RecordsOk(cfg, t) && ReqsOk(t)
  {
    RecordsSurvive(cfg, s, t, rid);
    DrawsSurvive(s, t, rid);
    RequestsSurvive(s, t, rid);
  }

  // ---- no step breaks a record ------------------------------------------------------------

  lemma DrawIsNew(s: State, t: State, rid: Rid, c: Choice)
    requires DrawsOk(s) && rid in s.reqs && s.reqs[rid].Login? && s.reqs[rid].phase.AtLimiter?
    requires c.Random? && c.nonce != ""
    requires c.state !in s.log.used && c.nonce !in s.log.used
    requires t.log.drawn
             == s.log.drawn[c.state := Draw(rid, Pending(c.verifier, c.nonce, s.reqs[rid].returnTo, s.clock), s.clock)]
    requires t.log.begun == s.log.begun && t.log.used == s.log.used + {c.state, c.verifier, c.nonce}
    requires rid in t.reqs && t.reqs == s.reqs[rid := t.reqs[rid]]
    ensures c.state !in s.log.drawn && c.state !in s.log.begun && DrawsOk(t)
  {
    forall state | state in s.log.drawn ensures state != c.state && s.log.drawn[state].pending.nonce != c.nonce {
      assert DrawOk(s.log, state);
    }
    forall state | state in s.log.drawn ensures DrawOk(t.log, state) {
      assert DrawOk(s.log, state);
    }
    forall state | state in s.log.begun ensures state != c.state && BegunOk(t.log, t.reqs, state) {
      assert BegunOk(s.log, s.reqs, state);
    }
  }

  lemma DrawLog(cfg: Config, s: State, t: State, rid: Rid, c: Choice)
    requires DrawsOk(s) && RecordsOk(cfg, s) && ReqsOk(s)
    requires rid in s.reqs && s.reqs[rid].Login? && s.reqs[rid].phase.AtLimiter?
    requires c.Random? && LoginEnabled(cfg, s, s.reqs[rid], c) && t == LoginStep(cfg, s, rid, c)
    ensures DrawsOk(t) && RecordsOk(cfg, t) && ReqsOk(t)
  {
    DrawIsNew(s, t, rid, c);
    RecordsSurvive(cfg, s, t, rid);
    RequestsSurvive(s, t, rid);
  }

  lemma PutLog(cfg: Config, s: State, t: State, rid: Rid)
    requires DrawsOk(s) && RecordsOk(cfg, s) && ReqsOk(s)
    requires rid in s.reqs && s.reqs[rid].Login? && s.reqs[rid].phase.AtPut? && !Full(cfg, s)
    requires t == LoginStep(cfg, s, rid, Proceed)
    ensures DrawsOk(t) && RecordsOk(cfg, t) && ReqsOk(t)
  {
    assert ReqOk(s.log, rid, s.reqs[rid]);
    RecordsSurvive(cfg, s, t, rid);
    DrawsSurvive(s, t, rid);
    RequestsSurvive(s, t, rid);
  }

  lemma RedirectLog(cfg: Config, s: State, t: State, rid: Rid)
    requires DrawsOk(s) && RecordsOk(cfg, s) && ReqsOk(s)
    requires rid in s.reqs && s.reqs[rid].Login? && s.reqs[rid].phase.AtRedirect?
    requires t == LoginStep(cfg, s, rid, Proceed)
    ensures DrawsOk(t) && RecordsOk(cfg, t) && ReqsOk(t)
  {
    assert ReqOk(s.log, rid, s.reqs[rid]);
    LogSurvives(cfg, s, t, rid);
  }

  lemma TakeLog(cfg: Config, s: State, t: State, rid: Rid, c: Choice)
    requires DrawsOk(s) && RecordsOk(cfg, s) && ReqsOk(s) && Conserved(s)
    requires rid in s.reqs && s.reqs[rid].Callback? && s.reqs[rid].phase.AtTake? && s.reqs[rid].state in s.pending
    requires (c.Proceed? || c.TooOld?) && t == TakeStep(s, rid, c)
    ensures DrawsOk(t) && RecordsOk(cfg, t) && ReqsOk(t)
  {
    var state := s.reqs[rid].state;
    assert BegunAs(s.log, state, s.pending[state]) && state !in s.log.taken;
    LogSurvives(cfg, s, t, rid);
  }

  lemma ExchangeLog(cfg: Config, s: State, t: State, rid: Rid, c: Choice)
    requires DrawsOk(s) && RecordsOk(cfg, s) && ReqsOk(s)
    requires rid in s.reqs && s.reqs[rid].Callback? && s.reqs[rid].phase.AtExchange?
    requires CallbackEnabled(cfg, s, s.reqs[rid], c) && t == CallbackStep(cfg, s, rid, c)
    ensures DrawsOk(t) && RecordsOk(cfg, t) && ReqsOk(t)
  {
    var r := s.reqs[rid];
    assert ReqOk(s.log, rid, r);
    assert ExchangeOk(t.log, t.reqs, Exchange(rid, r.state, r.code, r.phase.pending.verifier, c));
    LogSurvives(cfg, s, t, rid);
  }

  lemma StoreLog(cfg: Config, s: State, t: State, rid: Rid, c: Choice)
    requires DrawsOk(s) && RecordsOk(cfg, s) && ReqsOk(s)
    requires rid in s.reqs && s.reqs[rid].Callback? && s.reqs[rid].phase.AtStore?
    requires CallbackEnabled(cfg, s, s.reqs[rid], c) && t == CallbackStep(cfg, s, rid, c)
    ensures DrawsOk(t) && RecordsOk(cfg, t) && ReqsOk(t)
  {
    assert ReqOk(s.log, rid, s.reqs[rid]);
    assert MintedOk(t.log, t.reqs, Minted(rid, s.reqs[rid].state, c.sid, s.reqs[rid].phase.access));
    LogSurvives(cfg, s, t, rid);
  }

  lemma CookieLog(cfg: Config, s: State, t: State, rid: Rid)
    requires DrawsOk(s) && RecordsOk(cfg, s) && ReqsOk(s)
    requires rid in s.reqs && s.reqs[rid].Callback? && s.reqs[rid].phase.AtCookie?
    requires t == CallbackStep(cfg, s, rid, Proceed)
    ensures DrawsOk(t) && RecordsOk(cfg, t) && ReqsOk(t)
  {
    assert ReqOk(s.log, rid, s.reqs[rid]);
    LogSurvives(cfg, s, t, rid);
  }

  /** A step that records nothing: a refusal, a check of the query or of the nonce. */
  lemma QuietLog(cfg: Config, s: State, t: State, rid: Rid, c: Choice)
    requires DrawsOk(s) && RecordsOk(cfg, s) && ReqsOk(s) && Enabled(cfg, s, Advance(rid, c))
    requires s.reqs[rid].phase.AtQuery? || s.reqs[rid].phase.AtVerify? || (c.Refuse? && !s.reqs[rid].phase.AtExchange?)
    requires t == Next(cfg, s, Advance(rid, c))
    ensures DrawsOk(t) && RecordsOk(cfg, t) && ReqsOk(t)
  {
    assert ReqOk(s.log, rid, s.reqs[rid]);
    assert t == Goto(s, rid, t.reqs[rid].phase);
    assert ReqOk(t.log, rid, t.reqs[rid]);
    assert Later(s.reqs[rid].phase, t.reqs[rid].phase);
    LogSurvives(cfg, s, t, rid);
  }

  lemma AdvanceLog(cfg: Config, s: State, t: State, rid: Rid, c: Choice)
    requires DrawsOk(s) && RecordsOk(cfg, s) && ReqsOk(s) && Conserved(s) && Enabled(cfg, s, Advance(rid, c))
    requires t == Next(cfg, s, Advance(rid, c))
    ensures DrawsOk(t) && RecordsOk(cfg, t) && ReqsOk(t)
  {
    assert ReqOk(s.log, rid, s.reqs[rid]);
    match s.reqs[rid].phase {
      case AtLimiter => if c.Refuse? { QuietLog(cfg, s, t, rid, c); } else { DrawLog(cfg, s, t, rid, c); }
      case AtPut(_, _) => if c.Refuse? { QuietLog(cfg, s, t, rid, c); } else { PutLog(cfg, s, t, rid); }
      case AtRedirect(_, _) => RedirectLog(cfg, s, t, rid);
      case AtTake => if c.Refuse? { QuietLog(cfg, s, t, rid, c); } else { TakeLog(cfg, s, t, rid, c); }
      case AtQuery | AtVerify(_) => QuietLog(cfg, s, t, rid, c);
      case AtExchange(_) => ExchangeLog(cfg, s, t, rid, c);
      case AtStore(_, _) => StoreLog(cfg, s, t, rid, c);
      case AtCookie(_, _) => CookieLog(cfg, s, t, rid);
      case Answered(_) =>
    }
  }

  /** Requests may be added and logins may expire without touching any record. */
  lemma SweepLog(cfg: Config, s: State, t: State)
    requires DrawsOk(s) && RecordsOk(cfg, s)
    requires t.log == s.log.(expired := t.log.expired)
    requires forall rid | rid in s.reqs :: rid in t.reqs && t.reqs[rid] == s.reqs[rid]
    ensures DrawsOk(t) && RecordsOk(cfg, t)
    ensures ReqsOk(s) ==> forall rid | rid in s.reqs :: ReqOk(t.log, rid, t.reqs[rid])
  {
    forall e | e in s.log.exchanges ensures ExchangeOk(t.log, t.reqs, e) { assert ExchangeOk(s.log, s.reqs, e); }
    forall m | m in s.log.minted ensures MintedOk(t.log, t.reqs, m) { assert MintedOk(s.log, s.reqs, m); }
    forall c | c in s.log.cookies ensures CookieOk(t.log, t.reqs, c) { assert CookieOk(s.log, s.reqs, c); }
    forall d | d in s.log.redirects ensures RedirectOk(cfg, t.log, t.reqs, d) {
      assert RedirectOk(cfg, s.log, s.reqs, d);
    }
    forall state | state in s.log.drawn ensures DrawOk(t.log, state) { assert DrawOk(s.log, state); }
    forall state | state in s.log.begun ensures BegunOk(t.log, t.reqs, state) { assert BegunOk(s.log, s.reqs, state); }
    if ReqsOk(s) {
      forall rid | rid in s.reqs ensures ReqOk(t.log, rid, t.reqs[rid]) { assert ReqOk(s.log, rid, s.reqs[rid]); }
    }
  }

  lemma NextLog(cfg: Config, s: State, a: Action)
    requires DrawsOk(s) && RecordsOk(cfg, s) && ReqsOk(s) && Conserved(s) && Enabled(cfg, s, a)
    ensures var t := Next(cfg, s, a); DrawsOk(t) && RecordsOk(cfg, t) && ReqsOk(t)
  {
    if a.Advance? { AdvanceLog(cfg, s, Next(cfg, s, a), a.rid, a.choice); } else { SweepLog(cfg, s, Next(cfg, s, a)); }
  }

  // ---- conservation -----------------------------------------------------------------------

  lemma PutConserves(s: State, t: State, state: Token, p: Pending)
    requires Conserved(s) && state !in s.log.begun && state in s.log.drawn && s.log.drawn[state].pending == p
    requires t.pending == s.pending[state := p] && t.log == s.log.(begun := s.log.begun + {state})
    ensures Conserved(t)
  {
    forall st | st in t.pending ensures BegunAs(t.log, st, t.pending[st]) {
      assert st != state ==> BegunAs(s.log, st, s.pending[st]);
    }
  }

  lemma ConservedByLog(s: State, t: State)
    requires Conserved(s) && t.pending == s.pending && t.log.begun == s.log.begun && t.log.drawn == s.log.drawn
    requires t.log.taken == s.log.taken && t.log.expired == s.log.expired
    ensures Conserved(t)
  {
    forall st | st in t.pending ensures BegunAs(t.log, st, t.pending[st]) {
      assert BegunAs(s.log, st, s.pending[st]);
    }
  }

  lemma TakeConserves(s: State, t: State, state: Token, c: Choice)
    requires Conserved(s) && state in s.pending && t.pending == s.pending - {state}
    requires t.log.begun == s.log.begun && t.log.drawn == s.log.drawn
    requires || (t.log.taken.Keys == s.log.taken.Keys + {state} && t.log.expired == s.log.expired)
             || (t.log.taken == s.log.taken && t.log.expired.Keys == s.log.expired.Keys + {state})
    ensures Conserved(t)
  {
    forall st | st in t.pending ensures BegunAs(t.log, st, t.pending[st]) {
      assert BegunAs(s.log, st, s.pending[st]);
    }
  }

  lemma Smaller<T>(a: set<T>, b: set<T>)
    requires a <= b
    ensures |a| <= |b|
  {
    assert b == a + (b - a);
  }

  lemma AdvanceConserves(cfg: Config, s: State, rid: Rid, r: Req, c: Choice, t: State)
    requires DrawsOk(s) && Conserved(s) && Enabled(cfg, s, Advance(rid, c)) && r == s.reqs[rid] && ReqOk(s.log, rid, r)
    requires t == Next(cfg, s, Advance(rid, c))
    ensures Conserved(t)
  {
    if r.phase.AtPut? && c.Proceed? {
      PutConserves(s, s.(pending := t.pending, log := t.log), r.phase.state, r.phase.pending);
    } else if r.phase.AtTake? && !c.Refuse? {
      TakeConserves(s, t, r.state, c);
    } else if r.phase.AtLimiter? && c.Random? {
      DrawIsNew(s, t, rid, c);
      DrawConserves(s, t, c.state);
    } else {
      ConservedByLog(s, t);
    }
  }

  lemma NextConserves(cfg: Config, s: State, a: Action)
    requires DrawsOk(s) && ReqsOk(s) && Conserved(s) && Enabled(cfg, s, a)
    ensures Conserved(Next(cfg, s, a))
  {
    var t := Next(cfg, s, a);
    match a {
      case Sweep =>
        forall st | st in t.pending ensures BegunAs(t.log, st, t.pending[st]) {
          assert BegunAs(s.log, st, s.pending[st]);
        }
      case Advance(rid, c) => AdvanceConserves(cfg, s, rid, s.reqs[rid], c, t);
      case _ => ConservedByLog(s, t);
    }
  }

  lemma DrawConserves(s: State, t: State, state: Token)
    requires Conserved(s) && state !in s.log.begun && t.pending == s.pending && t.log.begun == s.log.begun
    requires state in t.log.drawn && t.log.drawn == s.log.drawn[state := t.log.drawn[state]]
    requires t.log.taken == s.log.taken && t.log.expired == s.log.expired
    ensures Conserved(t)
  {
    forall st | st in t.pending ensures BegunAs(t.log, st, t.pending[st]) {
      assert BegunAs(s.log, st, s.pending[st]);
    }
  }

  lemma NextBounded(cfg: Config, s: State, a: Action)
    requires Bounded(cfg, s) && Enabled(cfg, s, a)
    ensures Bounded(cfg, Next(cfg, s, a))
  {
    var t := Next(cfg, s, a);
    assert |t.pending| == |t.pending.Keys| && |s.pending| == |s.pending.Keys|;
    if t.pending.Keys <= s.pending.Keys {
      Smaller(t.pending.Keys, s.pending.Keys);
    } else {
      assert a.Advance? && s.reqs[a.rid].phase.AtPut? && a.choice.Proceed?;
      assert t.pending.Keys == s.pending.Keys + {s.reqs[a.rid].phase.state};
    }
  }

  // ---- nothing happens twice ----------------------------------------------------------------

  /** A callback that is about to exchange is the first to exchange its state. */
  lemma ExchangedOnce(cfg: Config, s: State, rid: Rid)
    requires RecordsOk(cfg, s) && ReqsOk(s) && rid in s.reqs && s.reqs[rid].phase.AtExchange?
    ensures s.reqs[rid].Callback? && forall e | e in s.log.exchanges :: e.state != s.reqs[rid].state
  {
    assert ReqOk(s.log, rid, s.reqs[rid]);
    forall e | e in s.log.exchanges ensures e.state != s.reqs[rid].state {
      assert ExchangeOk(s.log, s.reqs, e);
    }
  }

  /** A callback that is about to store a session is the first to do so for its state. */
  lemma MintedOnce(cfg: Config, s: State, rid: Rid, sid: Token)
    requires RecordsOk(cfg, s) && ReqsOk(s) && rid in s.reqs && s.reqs[rid].phase.AtStore? && sid !in s.log.used
    ensures s.reqs[rid].Callback? && forall m | m in s.log.minted :: m.state != s.reqs[rid].state && m.sid != sid
  {
    assert ReqOk(s.log, rid, s.reqs[rid]);
    forall m | m in s.log.minted ensures m.state != s.reqs[rid].state && m.sid != sid {
      assert MintedOk(s.log, s.reqs, m);
    }
  }

  lemma CookieOnce(cfg: Config, s: State, rid: Rid)
    requires RecordsOk(cfg, s) && rid in s.reqs && s.reqs[rid].phase.AtCookie?
    ensures forall c | c in s.log.cookies :: c.rid != rid
  {
    forall c | c in s.log.cookies ensures c.rid != rid {
      assert CookieOk(s.log, s.reqs, c);
    }
  }

  ghost predicate SameOnce(a: Log, b: Log) {
    a.exchanges == b.exchanges && a.minted == b.minted && a.cookies == b.cookies
  }

  lemma QuietOnce(s: State, t: State)
    requires OnceEach(s) && SameOnce(s.log, t.log)
    ensures OnceEach(t)
  {
  }

  lemma LoginRepeatsNothing(cfg: Config, s: State, a: Action, t: State)
    requires Enabled(cfg, s, a) && t == Next(cfg, s, a)
    requires a.Advance? ==> s.reqs[a.rid].Login?
    ensures SameOnce(s.log, t.log)
  {
  }

  lemma OtherCallbacksRepeatNothing(cfg: Config, s: State, rid: Rid, c: Choice, t: State)
    requires Enabled(cfg, s, Advance(rid, c)) && s.reqs[rid].Callback? && t == CallbackStep(cfg, s, rid, c)
    requires !s.reqs[rid].phase.AtExchange? && !s.reqs[rid].phase.AtStore? && !s.reqs[rid].phase.AtCookie?
    ensures SameOnce(s.log, t.log)
  {
  }

  lemma CallbackOnce(cfg: Config, s: State, rid: Rid, c: Choice, t: State)
    requires OnceEach(s) && Enabled(cfg, s, Advance(rid, c)) && s.reqs[rid].Callback?
             && t == CallbackStep(cfg, s, rid, c)
    requires RecordsOk(cfg, s) && ReqsOk(s)
    ensures OnceEach(t)
  {
    match s.reqs[rid].phase {
      case AtExchange(_) => ExchangedOnce(cfg, s, rid);
      case AtStore(_, _) => MintedOnce(cfg, s, rid, c.sid);
      case AtCookie(_, _) => CookieOnce(cfg, s, rid);
      case _ =>
        OtherCallbacksRepeatNothing(cfg, s, rid, c, t);
        QuietOnce(s, t);
    }
  }

  lemma NextOnce(cfg: Config, s: State, a: Action)
    requires RecordsOk(cfg, s) && ReqsOk(s) && OnceEach(s) && Enabled(cfg, s, a)
    ensures OnceEach(Next(cfg, s, a))
  {
    var t := Next(cfg, s, a);
    if a.Advance? && s.reqs[a.rid].Callback? {
      CallbackOnce(cfg, s, a.rid, a.choice, t);
    } else {
      LoginRepeatsNothing(cfg, s, a, t);
      QuietOnce(s, t);
    }
  }

  lemma NextKeeps(cfg: Config, s: State, a: Action)
    requires Inv(cfg, s) && Enabled(cfg, s, a)
    ensures Inv(cfg, Next(cfg, s, a))
  {
    NextLog(cfg, s, a);
    NextConserves(cfg, s, a);
    NextBounded(cfg, s, a);
    NextOnce(cfg, s, a);
  }

  lemma RunKeeps(cfg: Config, s: State, acts: seq<Action>, t: State)
    requires Inv(cfg, s) && Leads(cfg, s, acts, t)
    ensures Inv(cfg, t)
    decreases |acts|
  {
    if acts != [] {
      NextKeeps(cfg, s, acts[0]);
      RunKeeps(cfg, Next(cfg, s, acts[0]), acts[1..], t);
    }
  }

  /** Every reachable state satisfies the invariant. */
  lemma ReachedKeeps(cfg: Config, s: State)
    requires Reached(cfg, s)
    ensures Inv(cfg, s)
  {
    var acts :| Leads(cfg, INIT, acts, s);
    RunKeeps(cfg, INIT, acts, s);
  }
}
