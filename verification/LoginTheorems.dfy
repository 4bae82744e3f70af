/** The main results about sign-in, over every run from the empty system. */
module LoginTheorems {
  import opened Options
  import opened LoginProtocol
  import opened LoginSafety

  /** Every login whose Put succeeded is stored, was taken once, or expired, and nothing else
      is counted; the store never exceeds its capacity. */
  lemma PendingLoginsAreConserved(cfg: Config, s: State)
    requires Reached(cfg, s)
    ensures |s.log.begun| == |s.pending| + |s.log.taken| + |s.log.expired|
    ensures s.log.begun == s.pending.Keys + s.log.taken.Keys + s.log.expired.Keys
    ensures cfg.capacity.Some? ==> |s.pending| <= cfg.capacity.value
  {
    ReachedKeeps(cfg, s);
    var kept := s.pending.Keys + s.log.taken.Keys;
    assert |s.pending| == |s.pending.Keys| && |s.log.taken| == |s.log.taken.Keys|;
    assert |s.log.expired| == |s.log.expired.Keys|;
    assert |kept| == |s.pending.Keys| + |s.log.taken.Keys|;
    assert |kept + s.log.expired.Keys| == |kept| + |s.log.expired.Keys|;
  }

  /** The browser is sent to the issuer only for a login whose Put succeeded, with the S256
      challenge of that login's verifier and that login's nonce cookie. */
  lemma RedirectsAreBacked(cfg: Config, s: State, d: Redirect)
    requires Reached(cfg, s) && d in s.log.redirects
    ensures d.state in s.log.begun && d.state in s.log.drawn && s.log.drawn[d.state].rid == d.rid
    ensures d.challenge == cfg.s256(s.log.drawn[d.state].pending.verifier)
    ensures d.nonce == s.log.drawn[d.state].pending.nonce
  {
    ReachedKeeps(cfg, s);
    assert RedirectOk(cfg, s.log, s.reqs, d);
  }

  /** A refused /bff/login (429 or 503) never put a login and never redirected. */
  lemma RefusedLoginsLeaveNoTrace(cfg: Config, s: State, rid: Rid)
    requires Reached(cfg, s) && rid in s.reqs && s.reqs[rid].Login?
    requires s.reqs[rid].phase == Answered(429) || s.reqs[rid].phase == Answered(503)
    ensures forall state | state in s.log.begun :: state in s.log.drawn && s.log.drawn[state].rid != rid
    ensures forall d | d in s.log.redirects :: d.rid != rid
  {
    ReachedKeeps(cfg, s);
    forall state | state in s.log.begun ensures state in s.log.drawn && s.log.drawn[state].rid != rid {
      assert BegunOk(s.log, s.reqs, state);
    }
    forall d | d in s.log.redirects ensures d.rid != rid {
      assert RedirectOk(cfg, s.log, s.reqs, d);
    }
  }

  function MintedStates(ms: seq<Minted>): (states: seq<Token>)
    ensures |states| == |ms| && forall i | 0 <= i < |ms| :: states[i] == ms[i].state
  {
    seq(|ms|, i requires 0 <= i < |ms| => ms[i].state)
  }

  function ExchangedStates(es: seq<Exchange>): (states: seq<Token>)
    ensures |states| == |es| && forall i | 0 <= i < |es| :: states[i] == es[i].state
  {
    seq(|es|, i requires 0 <= i < |es| => es[i].state)
  }

  lemma {:induction false} DistinctFit(states: seq<Token>, all: set<Token>)
    requires forall i, j | 0 <= i < j < |states| :: states[i] != states[j]
    requires forall i | 0 <= i < |states| :: states[i] in all
    ensures |states| <= |all|
  {
    if states != [] {
      var last := states[|states| - 1];
      DistinctFit(states[..|states| - 1], all - {last});
      assert |all - {last}| == |all| - 1;
    }
  }

  /** At most one session per login: the map from sessions to the logins that were put is
      injective, every session comes from the one exchange of its state, and each state
      reaches the token endpoint at most once. */
  lemma AtMostOneSessionPerLogin(cfg: Config, s: State)
    requires Reached(cfg, s)
    ensures forall i, j | 0 <= i < j < |s.log.minted| ::
              s.log.minted[i].state != s.log.minted[j].state && s.log.minted[i].sid != s.log.minted[j].sid
    ensures forall i, j | 0 <= i < j < |s.log.exchanges| :: s.log.exchanges[i].state != s.log.exchanges[j].state
    ensures forall m | m in s.log.minted :: m.state in s.log.begun && m.state in ExchangedStates(s.log.exchanges)
    ensures |s.log.minted| <= |s.log.exchanges| <= |s.log.taken| <= |s.log.begun|
  {
    ReachedKeeps(cfg, s);
    PendingLoginsAreConserved(cfg, s);
    var exchanged := ExchangedStates(s.log.exchanges);
    forall m | m in s.log.minted ensures m.state in s.log.begun && m.state in exchanged {
      SessionHasAnExchange(cfg, s, m);
    }
    forall i | 0 <= i < |exchanged| ensures exchanged[i] in s.log.taken.Keys {
      assert ExchangeOk(s.log, s.reqs, s.log.exchanges[i]);
    }
    DistinctFit(exchanged, s.log.taken.Keys);
    DistinctFit(MintedStates(s.log.minted), set state | state in exchanged);
    SetOfSeq(exchanged);
    assert |s.log.taken| == |s.log.taken.Keys|;
  }

  lemma SessionHasAnExchange(cfg: Config, s: State, m: Minted)
    requires RecordsOk(cfg, s) && m in s.log.minted
    ensures m.state in s.log.begun && m.state in ExchangedStates(s.log.exchanges)
  {
    assert MintedOk(s.log, s.reqs, m);
    var e := Exchange(m.rid, m.state, s.reqs[m.rid].code, s.log.drawn[m.state].pending.verifier, Reply(200, m.access));
    var i :| 0 <= i < |s.log.exchanges| && s.log.exchanges[i] == e;
    assert ExchangedStates(s.log.exchanges)[i] == m.state;
  }

  lemma {:induction false} SetOfSeq(states: seq<Token>)
    ensures |set state | state in states| <= |states|
  {
    if states != [] {
      SetOfSeq(states[1..]);
      assert (set state | state in states) == (set state | state in states[1..]) + {states[0]};
    }
  }

  /** PKCE end to end (RFC 7636 sections 4.1 to 4.6): the verifier sent for a state is the
      one whose challenge was in that state's redirect. */
  lemma VerifierMatchesChallenge(cfg: Config, s: State, d: Redirect, e: Exchange)
    requires Reached(cfg, s) && d in s.log.redirects && e in s.log.exchanges && d.state == e.state
    ensures cfg.s256(e.verifier) == d.challenge
  {
    ReachedKeeps(cfg, s);
    assert RedirectOk(cfg, s.log, s.reqs, d) && ExchangeOk(s.log, s.reqs, e);
  }

  /** A session cookie goes only to a browser that presents the nonce cookie of the login
      behind that very session; that nonce was given out for no other login.  The browser is sent
      on to the place that login had asked for. */
  lemma CookieGoesToTheBrowserThatBegan(cfg: Config, s: State, c: Cookie, d: Redirect)
    requires Reached(cfg, s) && c in s.log.cookies && d in s.log.redirects
    ensures c.rid in s.reqs && s.reqs[c.rid].Callback? && s.reqs[c.rid].nonce != ""
    ensures c.minted in s.log.minted && c.minted.rid == c.rid && c.minted.state == s.reqs[c.rid].state
    ensures c.minted.state in s.log.drawn && s.log.drawn[c.minted.state].pending.nonce == s.reqs[c.rid].nonce
    ensures d.nonce == s.reqs[c.rid].nonce <==> d.state == s.reqs[c.rid].state
    ensures d.state == s.reqs[c.rid].state ==>
              d.rid in s.reqs && s.reqs[d.rid].Login? && c.location == s.reqs[d.rid].returnTo
  {
    ReachedKeeps(cfg, s);
    assert CookieOk(s.log, s.reqs, c);
    var m := c.minted;
    assert MintedOk(s.log, s.reqs, m) && RedirectOk(cfg, s.log, s.reqs, d);
    var e := Exchange(m.rid, m.state, s.reqs[m.rid].code, s.log.drawn[m.state].pending.verifier, Reply(200, m.access));
    assert ExchangeOk(s.log, s.reqs, e) && DrawOk(s.log, m.state) && BegunOk(s.log, s.reqs, d.state);
  }

  /** A session is created only with a non-empty access token, which the token endpoint granted to
      the exchange of that very login's code and verifier. */
  lemma SessionsHoldTheirExchangesToken(cfg: Config, s: State, m: Minted)
    requires Reached(cfg, s) && m in s.log.minted
    ensures m.access != ""
    ensures m.state in s.log.drawn && m.rid in s.reqs && s.reqs[m.rid].Callback?
    ensures Exchange(m.rid, m.state, s.reqs[m.rid].code, s.log.drawn[m.state].pending.verifier, Reply(200, m.access))
            in s.log.exchanges
  {
    ReachedKeeps(cfg, s);
    assert MintedOk(s.log, s.reqs, m);
  }
}
