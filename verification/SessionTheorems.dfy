/** The main results about sessions, over every run from the empty system. */
module SessionTheorems {
  import opened Options
  import opened SessionProtocol
  import opened SessionSafety
  import opened SessionDeletion

  // ---- runs carry the invariants ---------------------------------------------------

  lemma RunKeeps(cfg: Config, d: Discipline, s: State, acts: seq<Action>, t: State)
    requires Inv(s) && Leads(cfg, d, s, acts, t)
    ensures Inv(t)
    decreases |acts|
  {
    if acts != [] {
      NextKeeps(cfg, s, acts[0]);
      RunKeeps(cfg, d, Next(cfg, s, acts[0]), acts[1..], t);
    }
  }

  lemma RunKeepsDeletion(cfg: Config, d: Discipline, s: State, acts: seq<Action>, t: State)
    requires d.timely && Inv(s) && DeletionInv(cfg, s) && Leads(cfg, d, s, acts, t)
    ensures Inv(t) && DeletionInv(cfg, t) && s.book.deletedAt.Keys <= t.book.deletedAt.Keys
    ensures forall rid | rid in s.reqs :: rid in t.reqs && t.reqs[rid].cookie == s.reqs[rid].cookie
    decreases |acts|
  {
    if acts != [] {
      NextKeeps(cfg, s, acts[0]);
      NextKeepsDeletion(cfg, s, acts[0]);
      NextGrows(cfg, s, acts[0]);
      RunKeepsDeletion(cfg, d, Next(cfg, s, acts[0]), acts[1..], t);
    }
  }

  lemma NextGrows(cfg: Config, s: State, a: Action)
    requires WellFormed(s) && Enabled(cfg, s, a)
    ensures var t := Next(cfg, s, a); s.book.deletedAt.Keys <= t.book.deletedAt.Keys
    ensures var t := Next(cfg, s, a);
            forall rid | rid in s.reqs :: rid in t.reqs && t.reqs[rid].cookie == s.reqs[rid].cookie
  {
    match a {
      case Advance(rid, o) =>
        if !s.reqs[rid].phase.AtGet? {
          assert ReqFits(s.heap, s.reqs[rid]);
          TouchesFrame(cfg, s, rid, o);
        }
      case _ =>
    }
  }

  // ---- deletion --------------------------------------------------------------------

  /** No resurrection: once a session is deleted, no later state of any timely run serves
      it, on either store, and nobody resolves it again. */
  lemma NoResurrection(cfg: Config, d: Discipline, before: seq<Action>, s: State, after: seq<Action>, t: State, id: Id)
    requires d.timely && Leads(cfg, d, INIT, before, s) && id in s.book.deletedAt
    requires Leads(cfg, d, s, after, t)
    ensures !IsLive(t, id) && id in t.book.deletedAt
    ensures forall rid | rid in t.reqs && t.reqs[rid].cookie == id && t.reqs[rid].hold.Some? ::
              t.reqs[rid].hold.value.since <= t.book.deletedAt[id]
  {
    RunKeepsDeletion(cfg, d, INIT, before, s);
    RunKeepsDeletion(cfg, d, s, after, t);
    assert Dead(cfg, t.clock, t.rows, id, t.book.deletedAt[id]);
    forall rid | rid in t.reqs && t.reqs[rid].cookie == id && t.reqs[rid].hold.Some?
      ensures t.reqs[rid].hold.value.since <= t.book.deletedAt[id]
    {
      assert HoldsFromBefore(t.clock, t.book.deletedAt, t.reqs[rid]);
    }
  }

  // ---- CSRF and content ------------------------------------------------------------

  /** In every reachable state, tokens were revoked, a session was deleted by logout or
      elevate, and a step-up token was stored only for a request that presented exactly
      that session's CSRF token. */
  lemma CsrfGuardsEveryDeed(cfg: Config, acts: seq<Action>, s: State, e: Effect)
    requires Leads(cfg, ANY_RUN, INIT, acts, s) && e in s.book.effects && NeedsCsrf(e.deed)
    ensures e.rid in s.reqs && s.reqs[e.rid].cookie == e.id
    ensures e.id in s.book.csrfOf && s.reqs[e.rid].header == s.book.csrfOf[e.id] && s.book.csrfOf[e.id] != ""
  {
    RunKeeps(cfg, ANY_RUN, INIT, acts, s);
    assert EffectOk(s.book, s.reqs, e);
  }

  /** The session a row stands for. */
  function Served(s: State, id: Id): Session
    requires WellFormed(s) && IsLive(s, id)
  {
    assert RowFits(s.heap, s.book, id, s.rows[id]);
    if s.rows[id].Pointer? then s.heap[s.rows[id].ref] else s.rows[id].session
  }

  /** In every reachable state, a live session serves its own CSRF token and a non-empty
      access token that the exchange, a refresh or a step-up gave to that very session. */
  lemma ServedTokensBelong(cfg: Config, acts: seq<Action>, s: State, id: Id)
    requires Leads(cfg, ANY_RUN, INIT, acts, s) && IsLive(s, id)
    ensures WellFormed(s) && Served(s, id).id == id
    ensures id in s.book.csrfOf && Served(s, id).csrf == s.book.csrfOf[id]
    ensures Served(s, id).access != "" && Served(s, id).access in s.book.issued[id]
  {
    RunKeeps(cfg, ANY_RUN, INIT, acts, s);
    assert RowFits(s.heap, s.book, id, s.rows[id]);
    assert SessionOk(s.book, Served(s, id));
  }

  /** What can end a live session: the sweeper on an expired row, or a delete step of a
      request that holds it, which for logout and elevate has passed the CSRF check. */
  predicate EndsBy(s: State, a: Action, id: Id) {
    match a
    case Sweep(expired) => id in expired
    case Advance(rid, o) =>
      && rid in s.reqs && s.reqs[rid].cookie == id && !o.Failed?
      && (s.reqs[rid].phase.AtDelete? || s.reqs[rid].phase.AtFatalDelete?)
      && (s.reqs[rid].phase.AtDelete? || s.reqs[rid].handler.Elevate? ==> Matches(s.book, s.reqs[rid]))
    case _ => false
  }

  /** No other step removes a session: in particular no transient refresh failure, no
      upstream failure and no failed statement. */
  lemma OnlyTheseEndASession(cfg: Config, acts: seq<Action>, s: State, a: Action, id: Id)
    requires Leads(cfg, ANY_RUN, INIT, acts, s) && WellFormed(s) && Enabled(cfg, s, a) && IsLive(s, id)
    ensures !IsLive(Next(cfg, s, a), id) <==> EndsBy(s, a, id)
  {
    RunKeeps(cfg, ANY_RUN, INIT, acts, s);
    match a {
      case Advance(rid, o) =>
        assert ReqFits(s.heap, s.reqs[rid]) && ReqOk(s.book, s.reqs[rid]);
        if !s.reqs[rid].phase.AtGet? { OnlyDeletesEnd(cfg, s, rid, o, id); }
      case _ =>
    }
  }

  lemma OnlyDeletesEnd(cfg: Config, s: State, rid: Rid, o: Outcome, id: Id)
    requires rid in s.reqs && InFlight(s.reqs[rid]) && ReqFits(s.heap, s.reqs[rid]) && ReqOk(s.book, s.reqs[rid])
    requires s.reqs[rid].cookie in s.book.issued && IsLive(s, id)
    ensures !IsLive(Touches(cfg, s, rid, o), id) <==> EndsBy(s, Advance(rid, o), id)
  {
  }

  /** What can bring a dead session back: a write-back by a request that still holds it, once
      the tombstone is gone. */
  predicate RevivesBy(s: State, a: Action, id: Id) {
    match a
    case Advance(rid, o) =>
      && rid in s.reqs && s.reqs[rid].cookie == id && !o.Failed?
      && (s.reqs[rid].phase.AtPut? || s.reqs[rid].phase.AtPutFresh? || s.reqs[rid].phase.AtPutElevated?)
      && id !in s.rows
    case _ => false
  }

  /** A session that was minted and is not live any more comes back exactly by such a step. */
  lemma OnlyTheseReviveASession(cfg: Config, s: State, a: Action, id: Id)
    requires WellFormed(s) && Enabled(cfg, s, a)
    requires id in s.book.csrfOf && !IsLive(s, id)
    ensures IsLive(Next(cfg, s, a), id) <==> RevivesBy(s, a, id)
  {
    match a {
      case Advance(rid, o) =>
        assert ReqFits(s.heap, s.reqs[rid]);
        if !s.reqs[rid].phase.AtGet? { OnlyPutsRevive(cfg, s, rid, o, id); }
      case _ =>
    }
  }

  lemma OnlyPutsRevive(cfg: Config, s: State, rid: Rid, o: Outcome, id: Id)
    requires rid in s.reqs && InFlight(s.reqs[rid]) && ReqFits(s.heap, s.reqs[rid])
    requires s.reqs[rid].cookie in s.book.issued && !IsLive(s, id)
    ensures IsLive(Touches(cfg, s, rid, o), id) <==> RevivesBy(s, Advance(rid, o), id)
  {
  }
}
