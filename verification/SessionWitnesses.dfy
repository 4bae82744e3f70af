/** Two runs that show where the session results stop: a request that outlives its tombstone,
    and a stale write-back on the rehydrating store. */
module SessionWitnesses {
  import opened Options
  import opened SessionProtocol
  import opened SessionSafety
  import opened SessionTheorems
  import opened SessionLogout

  // ---- building runs step by step --------------------------------------------------

  lemma LeadsStep(cfg: Config, d: Discipline, s: State, acts: seq<Action>, t: State, a: Action)
    requires Leads(cfg, d, s, acts, t) && WellFormed(t) && Enabled(cfg, t, a)
    requires Obeys(cfg, d, t, a)
    ensures Leads(cfg, d, s, acts + [a], Next(cfg, t, a))
    decreases |acts|
  {
    if acts == [] {
      assert acts + [a] == [a] && [a][1..] == [];
    } else {
      assert (acts + [a])[1..] == acts[1..] + [a];
      LeadsStep(cfg, d, Next(cfg, s, acts[0]), acts[1..], t, a);
    }
  }

  lemma Step(cfg: Config, d: Discipline, s: State, a: Action)
    requires Reached(cfg, d, s) && Enabled(cfg, s, a)
    requires Obeys(cfg, d, s, a)
    ensures WellFormed(s) && Reached(cfg, d, Next(cfg, s, a))
  {
    var acts :| Leads(cfg, d, INIT, acts, s);
    RunKeeps(cfg, d, INIT, acts, s);
    LeadsStep(cfg, d, INIT, acts, s, a);
  }

  lemma Work(cfg: Config, s: State, rid: Rid, o: Outcome)
    requires Reached(cfg, ANY_RUN, s) && rid in s.reqs && InFlight(s.reqs[rid]) && !s.reqs[rid].phase.AtGet?
             && !o.Failed?
    requires s.reqs[rid].hold.value.ref in s.heap && s.heap[s.reqs[rid].hold.value.ref].id in s.book.issued
    ensures Reached(cfg, ANY_RUN, Goto(Touches(cfg, s, rid, o), rid, NextPhase(s, s.reqs[rid], o)))
  {
    Step(cfg, ANY_RUN, s, Advance(rid, o));
  }

  /** A new request reads a live session and slides its window; its write-back comes next. */
  lemma Open(cfg: Config, s: State, rid: Rid, handler: Handler, id: Id, header: string) returns (t: State)
    requires Reached(cfg, ANY_RUN, s) && rid !in s.reqs && !handler.Refresher? && id in s.book.issued
    requires IsLive(s, id) && RowFits(s.heap, s.book, id, s.rows[id])
    ensures Reached(cfg, ANY_RUN, t)
    ensures var ref := if s.rows[id].Pointer? then s.rows[id].ref else s.nextRef;
            var session := if s.rows[id].Pointer? then s.heap[ref] else s.rows[id].session;
            t == s.(reqs := s.reqs[rid := Req(handler, id, header, AtPut, Some(Hold(ref, s.clock)))],
                    heap := s.heap[ref := session.(lastSeen := s.clock)],
                    nextRef := if s.rows[id].Pointer? then s.nextRef else s.nextRef + 1)
  {
    var s1 := s.(reqs := s.reqs[rid := Req(handler, id, header, AtGet, None)]);
    Step(cfg, ANY_RUN, s, Arrive(rid, handler, id, header));
    var s2 := Resolve(cfg, s1, rid, Done);
    Step(cfg, ANY_RUN, s1, Advance(rid, Done));
    var ref := s2.reqs[rid].hold.value.ref;
    Work(cfg, s2, rid, Done);
    t := Goto(Touches(cfg, s2, rid, Done), rid, AtPut);
    assert t.reqs == s.reqs[rid := Req(handler, id, header, AtPut, Some(Hold(ref, s.clock)))];
    assert t.heap == s.heap[ref := s2.heap[ref].(lastSeen := s.clock)];
  }

  function Fresh(access: string): Session {
    Session("sid", "csrf", access, 0)
  }

  /** Just after a sign-in. */
  function SignedIn(cfg: Config): State {
    State(0, map["sid" := if cfg.kind.Memory? then Pointer(0) else Snapshot(Fresh("t0"))],
          map[0 := Fresh("t0")], 1, 0, map[], Book(map["sid" := "csrf"], map["sid" := ["t0"]], map[], [], map[]))
  }

  lemma SignIn(cfg: Config)
    ensures Reached(cfg, ANY_RUN, SignedIn(cfg))
  {
    assert Leads(cfg, ANY_RUN, INIT, [], INIT);
    Step(cfg, ANY_RUN, INIT, Mint("sid", "csrf", "t0"));
    assert MintSession(cfg, INIT, "sid", "csrf", "t0") == SignedIn(cfg);
  }

  /** Advance request rid of s; t is where it gets to. */
  lemma Move(cfg: Config, s: State, rid: Rid, o: Outcome, t: State)
    requires Reached(cfg, ANY_RUN, s) && rid in s.reqs && InFlight(s.reqs[rid]) && !s.reqs[rid].phase.AtGet?
             && !o.Failed?
    requires s.reqs[rid].hold.value.ref in s.heap && s.heap[s.reqs[rid].hold.value.ref].id in s.book.issued
    requires var u := Goto(Touches(cfg, s, rid, o), rid, NextPhase(s, s.reqs[rid], o));
             && t == u.(rows := t.rows, heap := t.heap, reqs := t.reqs, book := t.book)
             && t.rows == u.rows && t.heap == u.heap && t.reqs == u.reqs
             && t.book.csrfOf == u.book.csrfOf && t.book.issued == u.book.issued
             && t.book.deletedAt == u.book.deletedAt && t.book.effects == u.book.effects
             && t.book.revoked == u.book.revoked
    ensures Reached(cfg, ANY_RUN, t)
  {
    Work(cfg, s, rid, o);
  }

  // ---- a stale copy on the rehydrating store -------------------------------------------

  const INFO := Req(SessionInfo, "sid", "", AtPut, Some(Hold(1, 0)))
  const LOGOUT := Req(Logout, "sid", "csrf", AtPut, Some(Hold(1, 0)))
  const STEP_UP := Req(Elevate, "sid", "csrf", AtPut, Some(Hold(2, 0)))

  /** A first request and a step-up have both read the session; the step-up stands at the phase. */
  function BothRead(first: Req, phase: Phase): State {
    SignedIn(Config(Durable, 0)).(
      reqs := map[0 := first, 1 := STEP_UP.(phase := phase)],
      heap := map[0 := Fresh("t0"), 1 := Fresh("t0"), 2 := Fresh("t0")],
      nextRef := 3)
  }

  /** The upstream has given the step-up the token t1. */
  function SteppedUpTo(first: Req, phase: Phase, row: Session): State {
    var s := BothRead(first, phase);
    s.(heap := map[0 := Fresh("t0"), 1 := Fresh("t0"), 2 := Fresh("t1")],
       rows := map["sid" := Snapshot(row)],
       book := s.book.(issued := map["sid" := ["t0", "t1"]], effects := [Effect(1, "sid", SteppedUp)]))
  }

  lemma BothReadReached(cfg: Config, first: Req)
    requires cfg.kind.Durable? && (first == INFO || first == LOGOUT)
    ensures Reached(cfg, ANY_RUN, BothRead(first, AtUpstream))
  {
    SignIn(cfg);
    var s1 := Open(cfg, SignedIn(cfg), 0, first.handler, "sid", first.header);
    var s2 := Open(cfg, s1, 1, Elevate, "sid", "csrf");
    assert s2 == BothRead(first, AtPut) by {
      assert s2.reqs == BothRead(first, AtPut).reqs;
      assert s2.heap == BothRead(first, AtPut).heap;
    }
    StepUpMoves(cfg, first, AtPut, AtCheck);
    StepUpMoves(cfg, first, AtCheck, AtEnsure);
    StepUpMoves(cfg, first, AtEnsure, AtUpstream);
  }

  lemma StepUpMoves(cfg: Config, first: Req, phase: Phase, next: Phase)
    requires cfg.kind.Durable? && Reached(cfg, ANY_RUN, BothRead(first, phase))
    requires phase == AtPut || phase == AtCheck || phase == AtEnsure
    requires next == match phase case AtPut => AtCheck case AtCheck => AtEnsure case _ => AtUpstream
    ensures Reached(cfg, ANY_RUN, BothRead(first, next))
  {
    Move(cfg, BothRead(first, phase), 1, Done, BothRead(first, next));
  }

  lemma UpstreamAnswers(cfg: Config, first: Req, up: State)
    requires cfg.kind.Durable? && Reached(cfg, ANY_RUN, BothRead(first, AtUpstream))
    requires up == SteppedUpTo(first, AtPutElevated, Fresh("t0"))
    ensures Reached(cfg, ANY_RUN, up)
  {
    assert ["t0"] + ["t1"] == ["t0", "t1"];
    Move(cfg, BothRead(first, AtUpstream), 1, Reply(200, true, "t1", 60), up);
  }

  lemma StepUpAnswers(cfg: Config, first: Req, s: State)
    requires cfg.kind.Durable? && (first == INFO || first == LOGOUT)
    requires s == SteppedUpTo(first, Answered(204), Fresh("t1"))
    ensures Reached(cfg, ANY_RUN, s)
  {
    BothReadReached(cfg, first);
    UpstreamAnswers(cfg, first, SteppedUpTo(first, AtPutElevated, Fresh("t0")));
    StepUpWrites(cfg, first, SteppedUpTo(first, AtPutElevated, Fresh("t0")), s);
  }

  lemma StepUpWrites(cfg: Config, first: Req, up: State, s: State)
    requires cfg.kind.Durable? && Reached(cfg, ANY_RUN, up) && up == SteppedUpTo(first, AtPutElevated, Fresh("t0"))
    requires s == SteppedUpTo(first, Answered(204), Fresh("t1"))
    ensures Reached(cfg, ANY_RUN, s)
  {
    Move(cfg, up, 1, Done, s);
  }

  /** On the rehydrating store a step-up can answer 204 and its token still be lost: a
      /bff/session that read the session before it writes its older copy back after it. */
  lemma StaleWriteBackUndoesAStepUp(cfg: Config) returns (s: State, t: State)
    requires cfg.kind.Durable?
    ensures Reached(cfg, ANY_RUN, s) && 1 in s.reqs && s.reqs[1].handler.Elevate? && s.reqs[1].phase == Answered(204)
    ensures s.rows == map["sid" := Snapshot(Fresh("t1"))] && s.book.issued == map["sid" := ["t0", "t1"]]
    ensures Reached(cfg, ANY_RUN, t) && t.book == s.book && t.rows == map["sid" := Snapshot(Fresh("t0"))]
  {
    s := SteppedUpTo(INFO, Answered(204), Fresh("t1"));
    StepUpAnswers(cfg, INFO, s);
    t := s.(reqs := s.reqs[0 := INFO.(phase := Answered(200))], rows := map["sid" := Snapshot(Fresh("t0"))]);
    Move(cfg, s, 0, Done, t);
  }

  /** Or its own write-back fails: nobody looks, and the answer is 204 all the same. */
  lemma FailedWriteBackLosesAStepUp(cfg: Config) returns (t: State)
    requires cfg.kind.Durable?
    ensures Reached(cfg, ANY_RUN, t) && 1 in t.reqs && t.reqs[1].handler.Elevate? && t.reqs[1].phase == Answered(204)
    ensures t.rows == map["sid" := Snapshot(Fresh("t0"))] && t.book.issued == map["sid" := ["t0", "t1"]]
  {
    BothReadReached(cfg, INFO);
    var up := SteppedUpTo(INFO, AtPutElevated, Fresh("t0"));
    UpstreamAnswers(cfg, INFO, up);
    Step(cfg, ANY_RUN, up, Advance(1, Failed));
    t := Next(cfg, up, Advance(1, Failed));
  }

  /** The logout goes on with its older copy, after the step-up's 204. */
  function LoggingOut(phase: Phase, effects: seq<Effect>, revoked: map<Rid, Revocation>): State {
    var s := SteppedUpTo(LOGOUT.(phase := phase), Answered(204), Fresh("t0"));
    s.(book := s.book.(effects := [Effect(1, "sid", SteppedUp)] + effects, revoked := revoked))
  }

  lemma StaleLogoutRevokes(cfg: Config, t: State)
    requires cfg.kind.Durable?
    requires t == LoggingOut(AtLoad, [Effect(0, "sid", RevokedTokens)], map[0 := Revocation("t0", 2)])
    ensures Reached(cfg, ANY_RUN, t)
  {
    var s := LoggingOut(AtCheck, [], map[]);
    StaleLogoutWrites(cfg, s);
    StaleLogoutMatches(cfg, s, LoggingOut(AtRevoke, [], map[]));
    Move(cfg, LoggingOut(AtRevoke, [], map[]), 0, Done, t);
  }

  lemma StaleLogoutWrites(cfg: Config, t: State)
    requires cfg.kind.Durable? && t == LoggingOut(AtCheck, [], map[])
    ensures Reached(cfg, ANY_RUN, t)
  {
    var s := SteppedUpTo(LOGOUT, Answered(204), Fresh("t1"));
    StepUpAnswers(cfg, LOGOUT, s);
    Move(cfg, s, 0, Done, t);
  }

  lemma StaleLogoutMatches(cfg: Config, s: State, t: State)
    requires cfg.kind.Durable? && Reached(cfg, ANY_RUN, s) && s == LoggingOut(AtCheck, [], map[])
    requires t == LoggingOut(AtRevoke, [], map[])
    ensures Reached(cfg, ANY_RUN, t)
  {
    Move(cfg, s, 0, Done, t);
  }

  lemma StaleLogoutDeletes(cfg: Config, s: State) returns (t: State)
    requires cfg.kind.Durable? && Reached(cfg, ANY_RUN, s)
    requires s == LoggingOut(AtLoad, [Effect(0, "sid", RevokedTokens)], map[0 := Revocation("t0", 2)])
    ensures Reached(cfg, ANY_RUN, t) && 0 in t.reqs && t.reqs[0] == LOGOUT.(phase := Answered(204))
    ensures !IsLive(t, "sid") && t.book.issued == s.book.issued && t.book.revoked == s.book.revoked
  {
    var s1 := Goto(s, 0, AtDelete(0));
    Work(cfg, s, 0, Done);
    var s2 := Goto(Delete(s1, 0, "sid", DeletedRow, Done), 0, AtCompare(0));
    Work(cfg, s1, 0, Done);
    t := Goto(s2, 0, Answered(204));
    Work(cfg, s2, 0, Done);
  }

  /** A logout that read the session before a step-up answers 204 and has revoked the older token:
      the step-up's is never revoked. */
  lemma StaleLogoutRevokesTheOlderToken(cfg: Config) returns (t: State)
    requires cfg.kind.Durable?
    ensures Reached(cfg, ANY_RUN, t) && 0 in t.reqs && t.reqs[0].handler.Logout? && t.reqs[0].phase == Answered(204)
    ensures !IsLive(t, "sid") && t.book.issued == map["sid" := ["t0", "t1"]]
    ensures t.book.revoked == map[0 := Revocation("t0", 2)]
  {
    var s := LoggingOut(AtLoad, [Effect(0, "sid", RevokedTokens)], map[0 := Revocation("t0", 2)]);
    StaleLogoutRevokes(cfg, s);
    t := StaleLogoutDeletes(cfg, s);
  }

  // ---- a spent refresh token on the rehydrating store ---------------------------------------

  const GATEWAY := Req(Gateway, "sid", "", AtPut, Some(Hold(2, 0)))

  /** A /bff/session and a proxied request have both read the session. */
  function Proxying(info: Phase, gateway: Phase, row: string): State {
    BothRead(INFO, AtPut).(reqs := map[0 := INFO.(phase := info), 1 := GATEWAY.(phase := gateway)],
                           rows := map["sid" := Snapshot(Fresh(row))])
  }

  /** The proxied request has refreshed from t0 to t1. */
  function AfterRefresh(info: Phase, gateway: Phase, row: string): State {
    var s := Proxying(info, gateway, row);
    s.(heap := map[0 := Fresh("t0"), 1 := Fresh("t0"), 2 := Fresh("t1")],
       book := s.book.(issued := map["sid" := ["t0", "t1"]], effects := [Effect(1, "sid", Refreshed)]))
  }

  lemma ProxyRefreshes(cfg: Config, t: State)
    requires cfg.kind.Durable? && t == AfterRefresh(AtPut, AtPutFresh, "t0")
    ensures Reached(cfg, ANY_RUN, t)
  {
    ProxyEnsures(cfg, Proxying(AtPut, AtEnsure, "t0"));
    assert ["t0"] + ["t1"] == ["t0", "t1"];
    Move(cfg, Proxying(AtPut, AtEnsure, "t0"), 1, NewToken("t1"), t);
  }

  lemma ProxyEnsures(cfg: Config, t: State)
    requires cfg.kind.Durable? && t == Proxying(AtPut, AtEnsure, "t0")
    ensures Reached(cfg, ANY_RUN, t)
  {
    ProxyReads(cfg, Proxying(AtPut, AtPut, "t0"));
    Move(cfg, Proxying(AtPut, AtPut, "t0"), 1, Done, t);
  }

  lemma ProxyReads(cfg: Config, t: State)
    requires cfg.kind.Durable? && t == Proxying(AtPut, AtPut, "t0")
    ensures Reached(cfg, ANY_RUN, t)
  {
    SignIn(cfg);
    var s1 := Open(cfg, SignedIn(cfg), 0, SessionInfo, "sid", "");
    var s2 := Open(cfg, s1, 1, Gateway, "sid", "");
    assert s2 == t by {
      assert s2.reqs == t.reqs;
      assert s2.heap == t.heap;
      assert s2.rows == t.rows;
    }
  }

  lemma SpentRowIsBack(cfg: Config, t: State)
    requires cfg.kind.Durable? && t == AfterRefresh(Answered(200), Answered(200), "t0")
    ensures Reached(cfg, ANY_RUN, t)
  {
    var s := AfterRefresh(AtPut, AtPutFresh, "t0");
    ProxyRefreshes(cfg, s);
    var s1 := AfterRefresh(AtPut, Answered(200), "t1");
    Move(cfg, s, 1, Done, s1);
    Move(cfg, s1, 0, Done, t);
  }

  /** The /bff/session writes t0's token set back after a refresh has spent it; the next proxied
      request presents it, and if the issuer rejects it, the session is gone. */
  lemma SpentRefreshTokenEndsTheSession(cfg: Config) returns (s: State, t: State)
    requires cfg.kind.Durable?
    ensures Reached(cfg, ANY_RUN, s) && 2 in s.reqs && s.reqs[2].phase == AtEnsure && s.reqs[2].hold.Some?
    ensures s.reqs[2].hold.value.ref in s.heap && s.heap[s.reqs[2].hold.value.ref] == Fresh("t0")
    ensures s.book.issued == map["sid" := ["t0", "t1"]] && s.book.effects == [Effect(1, "sid", Refreshed)]
    ensures Reached(cfg, ANY_RUN, t) && 2 in t.reqs && t.reqs[2].phase == Answered(401) && !IsLive(t, "sid")
  {
    var s1 := AfterRefresh(Answered(200), Answered(200), "t0");
    SpentRowIsBack(cfg, s1);
    var s2 := Open(cfg, s1, 2, Gateway, "sid", "");
    s := ThirdGoesOn(cfg, s2);
    t := RefreshIsRejected(cfg, s);
  }

  predicate ThirdHolds(s: State, phase: Phase) {
    && 2 in s.reqs && s.reqs[2] == Req(Gateway, "sid", "", phase, Some(Hold(3, 0)))
    && 3 in s.heap && s.heap[3] == Fresh("t0") && "sid" in s.book.issued
  }

  lemma ThirdGoesOn(cfg: Config, s: State) returns (t: State)
    requires cfg.kind.Durable? && Reached(cfg, ANY_RUN, s) && ThirdHolds(s, AtPut)
    ensures Reached(cfg, ANY_RUN, t) && ThirdHolds(t, AtEnsure) && t.book == s.book
  {
    t := Goto(Put(cfg, s, 3, Done), 2, AtEnsure);
    Work(cfg, s, 2, Done);
  }

  lemma RefreshIsRejected(cfg: Config, s: State) returns (t: State)
    requires Reached(cfg, ANY_RUN, s) && ThirdHolds(s, AtEnsure)
    ensures Reached(cfg, ANY_RUN, t) && 2 in t.reqs && t.reqs[2].phase == Answered(401) && !IsLive(t, "sid")
  {
    var u := Goto(s, 2, AtFatalDelete);
    Work(cfg, s, 2, Rejected);
    t := Goto(Delete(u, 2, "sid", DroppedRejected, Done), 2, Answered(401));
    Work(cfg, u, 2, Done);
  }

  // ---- a token between revocation and deletion, on the memory store --------------------------

  /** A logout and a step-up share the session object. */
  predicate Dueling(s: State, logout: Phase, stepUp: Phase, token: string) {
    && s.clock == 0 && s.failures == 0 && s.rows == map["sid" := Pointer(0)] && s.heap == map[0 := Fresh(token)]
    && s.book.csrfOf == map["sid" := "csrf"] && "sid" in s.book.issued
    && s.reqs == map[0 := Req(Logout, "sid", "csrf", logout, Some(Hold(0, 0))),
                     1 := Req(Elevate, "sid", "csrf", stepUp, Some(Hold(0, 0)))]
  }

  lemma DuelStarts(cfg: Config) returns (s: State)
    requires cfg.kind.Memory?
    ensures Reached(cfg, ANY_RUN, s) && Dueling(s, AtPut, AtPut, "t0")
    ensures s.book.issued == map["sid" := ["t0"]] && s.book.revoked == map[]
  {
    SignIn(cfg);
    var s1 := Open(cfg, SignedIn(cfg), 0, Logout, "sid", "csrf");
    s := Open(cfg, s1, 1, Elevate, "sid", "csrf");
    assert s.reqs == map[0 := Req(Logout, "sid", "csrf", AtPut, Some(Hold(0, 0))),
                         1 := Req(Elevate, "sid", "csrf", AtPut, Some(Hold(0, 0)))];
    assert s.heap == map[0 := Fresh("t0")];
  }

  /** The steps that only move on. */
  lemma LogoutGoesOn(cfg: Config, s: State, phase: Phase, next: Phase, stepUp: Phase, token: string) returns (t: State)
    requires cfg.kind.Memory? && Reached(cfg, ANY_RUN, s) && Dueling(s, phase, stepUp, token)
    requires phase == AtPut || phase == AtCheck || phase == AtLoad
    requires next == match phase case AtPut => AtCheck case AtCheck => AtRevoke case _ => AtDelete(0)
    ensures Reached(cfg, ANY_RUN, t) && Dueling(t, next, stepUp, token) && t.book == s.book
  {
    t := Goto(Touches(cfg, s, 0, Done), 0, NextPhase(s, s.reqs[0], Done));
    Work(cfg, s, 0, Done);
    assert t.rows == s.rows && t.reqs[0].phase == next;
  }

  lemma StepUpGoesOn(cfg: Config, s: State, logout: Phase, phase: Phase, next: Phase, token: string) returns (t: State)
    requires cfg.kind.Memory? && Reached(cfg, ANY_RUN, s) && Dueling(s, logout, phase, token)
    requires phase == AtPut || phase == AtCheck || phase == AtEnsure || phase == AtPutElevated
    requires next == match phase
                     case AtPut => AtCheck
                     case AtCheck => AtEnsure
                     case AtEnsure => AtUpstream
                     case _ => Answered(204)
    ensures Reached(cfg, ANY_RUN, t) && Dueling(t, logout, next, token) && t.book == s.book
  {
    t := Goto(Touches(cfg, s, 1, Done), 1, NextPhase(s, s.reqs[1], Done));
    Work(cfg, s, 1, Done);
    assert t.rows == s.rows && t.reqs[1].phase == next;
  }

  lemma DuelRevokes(cfg: Config, s: State) returns (t: State)
    requires cfg.kind.Memory? && Reached(cfg, ANY_RUN, s) && Dueling(s, AtRevoke, AtPut, "t0")
    requires s.book.issued == map["sid" := ["t0"]] && s.book.revoked == map[]
    ensures Reached(cfg, ANY_RUN, t) && Dueling(t, AtLoad, AtPut, "t0")
    ensures t.book.issued == s.book.issued && t.book.revoked == map[0 := Revocation("t0", 1)]
  {
    t := Goto(Touches(cfg, s, 0, Done), 0, AtLoad);
    Work(cfg, s, 0, Done);
  }

  lemma DuelGrants(cfg: Config, s: State) returns (t: State)
    requires cfg.kind.Memory? && Reached(cfg, ANY_RUN, s) && Dueling(s, AtLoad, AtUpstream, "t0")
    requires s.book.issued == map["sid" := ["t0"]]
    ensures Reached(cfg, ANY_RUN, t) && Dueling(t, AtLoad, AtPutElevated, "t1")
    ensures t.book.issued == map["sid" := ["t0", "t1"]] && t.book.revoked == s.book.revoked
  {
    var o := Reply(200, true, "t1", 60);
    t := Goto(Touches(cfg, s, 1, o), 1, AtPutElevated);
    Work(cfg, s, 1, o);
    assert ["t0"] + ["t1"] == ["t0", "t1"];
  }

  lemma DuelDeletes(cfg: Config, s: State) returns (t: State)
    requires cfg.kind.Memory? && Reached(cfg, ANY_RUN, s) && Dueling(s, AtDelete(0), Answered(204), "t1")
    ensures Reached(cfg, ANY_RUN, t) && 0 in t.reqs && t.reqs[0].handler.Logout? && t.reqs[0].phase == Answered(204)
    ensures !IsLive(t, "sid") && t.book.issued == s.book.issued && t.book.revoked == s.book.revoked
  {
    var s1 := Goto(Delete(s, 0, "sid", DeletedRow, Done), 0, AtCompare(0));
    Work(cfg, s, 0, Done);
    t := Goto(s1, 0, Answered(204));
    Work(cfg, s1, 0, Done);
  }

  /** The logout revokes t0, a step-up is given t1, and then the logout deletes the session and
      answers 204: t1 was given out, and nobody revokes it. */
  lemma TokenGivenAfterTheRevocation(cfg: Config) returns (t: State)
    requires cfg.kind.Memory?
    ensures Reached(cfg, ANY_RUN, t) && 0 in t.reqs && t.reqs[0].handler.Logout? && t.reqs[0].phase == Answered(204)
    ensures !IsLive(t, "sid") && t.book.issued == map["sid" := ["t0", "t1"]]
    ensures t.book.revoked == map[0 := Revocation("t0", 1)]
  {
    var s := DuelStarts(cfg);
    s := LogoutGoesOn(cfg, s, AtPut, AtCheck, AtPut, "t0");
    s := LogoutGoesOn(cfg, s, AtCheck, AtRevoke, AtPut, "t0");
    s := DuelRevokes(cfg, s);
    s := StepUpGoesOn(cfg, s, AtLoad, AtPut, AtCheck, "t0");
    s := StepUpGoesOn(cfg, s, AtLoad, AtCheck, AtEnsure, "t0");
    s := StepUpGoesOn(cfg, s, AtLoad, AtEnsure, AtUpstream, "t0");
    s := DuelGrants(cfg, s);
    s := StepUpGoesOn(cfg, s, AtLoad, AtPutElevated, Answered(204), "t1");
    s := LogoutGoesOn(cfg, s, AtLoad, AtDelete(0), Answered(204), "t1");
    t := DuelDeletes(cfg, s);
  }

  // ---- a request that outlives the tombstone ------------------------------------------

  /** A /bff/session and a logout have both read the session; the logout stands at phase. */
  function Racing(ref: Ref, late: Ref, phase: Phase): map<Rid, Req> {
    map[0 := Req(SessionInfo, "sid", "", AtPut, Some(Hold(late, 0))),
        1 := Req(Logout, "sid", "csrf", phase, Some(Hold(ref, 0)))]
  }

  predicate Raced(s: State, ref: Ref, late: Ref, phase: Phase) {
    && s.clock == 0 && s.failures == 0 && IsLive(s, "sid") && s.rows.Keys == {"sid"}
    && s.book.csrfOf == map["sid" := "csrf"] && s.book.issued == map["sid" := ["t0"]]
    && s.reqs == Racing(ref, late, phase)
    && ref in s.heap && late in s.heap && s.heap[ref] == s.heap[late] == Fresh("t0")
  }

  lemma RaceStarts(cfg: Config) returns (s: State, ref: Ref, late: Ref)
    ensures Reached(cfg, ANY_RUN, s) && Raced(s, ref, late, AtPut)
  {
    SignIn(cfg);
    var s1 := Open(cfg, SignedIn(cfg), 0, SessionInfo, "sid", "");
    s := Open(cfg, s1, 1, Logout, "sid", "csrf");
    ref, late := s.reqs[1].hold.value.ref, s.reqs[0].hold.value.ref;
    assert s.reqs == Racing(ref, late, AtPut);
  }

  lemma LogoutMoves(cfg: Config, s: State, ref: Ref, late: Ref, phase: Phase) returns (t: State)
    requires Reached(cfg, ANY_RUN, s) && Raced(s, ref, late, phase)
    requires phase.AtPut? || phase.AtCheck? || phase.AtRevoke? || phase.AtLoad?
    ensures Reached(cfg, ANY_RUN, t)
    ensures Raced(t, ref, late,
                  match phase
                  case AtPut => AtCheck
                  case AtCheck => AtRevoke
                  case AtRevoke => AtLoad
                  case _ => AtDelete(0))
  {
    t := Goto(Touches(cfg, s, 1, Done), 1, NextPhase(s, s.reqs[1], Done));
    Work(cfg, s, 1, Done);
    assert t.reqs == Racing(ref, late, t.reqs[1].phase);
  }

  /** A tombstone protects a session for its TTL and no longer: on either store, for every
      TTL, a request that is one tick late puts a session back after its logout answered 204. */
  lemma LateRequestRevives(cfg: Config) returns (s: State, t: State)
    ensures Reached(cfg, ANY_RUN, s) && 1 in s.reqs && s.reqs[1].handler.Logout? && s.reqs[1].phase == Answered(204)
    ensures "sid" in s.book.deletedAt && !IsLive(s, "sid")
    ensures Reached(cfg, ANY_RUN, t) && IsLive(t, "sid") && t.book == s.book && t.clock == cfg.tombstoneTTL + 1
  {
    var s1, ref, late := RaceStarts(cfg);
    var s2 := LogoutMoves(cfg, s1, ref, late, AtPut);
    var s3 := LogoutMoves(cfg, s2, ref, late, AtCheck);
    var s4 := LogoutMoves(cfg, s3, ref, late, AtRevoke);
    var s5 := LogoutMoves(cfg, s4, ref, late, AtLoad);
    s, t := LateRequestPuts(cfg, s5, ref, late);
  }

  lemma LateRequestPuts(cfg: Config, s0: State, ref: Ref, late: Ref) returns (s: State, t: State)
    requires Reached(cfg, ANY_RUN, s0) && Raced(s0, ref, late, AtDelete(0))
    ensures Reached(cfg, ANY_RUN, s) && 1 in s.reqs && s.reqs[1].handler.Logout? && s.reqs[1].phase == Answered(204)
    ensures "sid" in s.book.deletedAt && !IsLive(s, "sid")
    ensures Reached(cfg, ANY_RUN, t) && IsLive(t, "sid") && t.book == s.book && t.clock == cfg.tombstoneTTL + 1
  {
    var s1 := Goto(Delete(s0, 1, "sid", DeletedRow, Done), 1, AtCompare(0));
    Work(cfg, s0, 1, Done);
    s := Goto(s1, 1, Answered(204));
    Work(cfg, s1, 1, Done);
    assert s.rows == map["sid" := Tombstone(0)];
    t := TombstoneExpires(cfg, s, late);
  }

  lemma TombstoneExpires(cfg: Config, s: State, late: Ref) returns (t: State)
    requires Reached(cfg, ANY_RUN, s) && s.clock == 0 && s.rows == map["sid" := Tombstone(0)] && "sid" in s.book.issued
    requires 0 in s.reqs && s.reqs[0] == Req(SessionInfo, "sid", "", AtPut, Some(Hold(late, 0)))
    requires late in s.heap && s.heap[late].id == "sid"
    ensures Reached(cfg, ANY_RUN, t) && IsLive(t, "sid") && t.book == s.book && t.clock == cfg.tombstoneTTL + 1
  {
    var s2 := s.(clock := cfg.tombstoneTTL + 1);
    Step(cfg, ANY_RUN, s, Tick(cfg.tombstoneTTL + 1));
    var s3 := s2.(rows := SweepRows(cfg, s2, {}));
    Step(cfg, ANY_RUN, s2, Sweep({}));
    assert s3.rows == map[];
    Work(cfg, s3, 0, Done);
    t := Goto(Put(cfg, s3, late, Done), 0, Answered(200));
  }

  // ---- 2^64 failures look like none -----------------------------------------------------

  /** n requests, numbered from m, whose read of the session fails. */
  lemma {:induction false} FailingReads(cfg: Config, s: State, m: Rid, n: nat) returns (t: State)
    requires cfg.kind.Durable? && Reached(cfg, ANY_RUN, s) && forall i | i in s.reqs :: i < m
    ensures Reached(cfg, ANY_RUN, t) && t == s.(failures := s.failures + n, reqs := t.reqs)
    ensures forall i | i in s.reqs :: i in t.reqs && t.reqs[i] == s.reqs[i]
    decreases n
  {
    t := s;
    if n > 0 {
      var u := OneFailingRead(cfg, s, m);
      t := FailingReads(cfg, u, m + 1, n - 1);
    }
  }

  lemma OneFailingRead(cfg: Config, s: State, m: Rid) returns (t: State)
    requires cfg.kind.Durable? && Reached(cfg, ANY_RUN, s) && m !in s.reqs
    ensures Reached(cfg, ANY_RUN, t) && t == s.(failures := s.failures + 1, reqs := t.reqs)
    ensures t.reqs.Keys == s.reqs.Keys + {m} && forall i | i in s.reqs :: t.reqs[i] == s.reqs[i]
  {
    var r := Req(SessionInfo, "", "", AtGet, None);
    var u := s.(reqs := s.reqs[m := r]);
    Step(cfg, ANY_RUN, s, Arrive(m, SessionInfo, "", ""));
    t := u.(failures := s.failures + 1, reqs := u.reqs[m := r.(phase := Answered(200))]);
    Step(cfg, ANY_RUN, u, Advance(m, Failed));
  }

  lemma DeleteFails(cfg: Config, s: State, ref: Ref, late: Ref) returns (t: State)
    requires cfg.kind.Durable? && Reached(cfg, ANY_RUN, s) && Raced(s, ref, late, AtDelete(0))
    ensures Reached(cfg, ANY_RUN, t) && t.rows == s.rows && t.failures == 1 && t.reqs == Racing(ref, late, AtCompare(0))
    ensures t.heap == s.heap && t.book == s.book
  {
    Step(cfg, ANY_RUN, s, Advance(1, Failed));
    t := Next(cfg, s, Advance(1, Failed));
    assert t.reqs == Racing(ref, late, AtCompare(0));
  }

  /** The logout's own delete fails, and 2^64 - 1 other statements do before it looks again: it
      answers 204, and the session is still there. */
  lemma WrappedCounterHidesTheFailure(cfg: Config) returns (t: State)
    requires cfg.kind.Durable?
    ensures Reached(cfg, ANY_RUN, t) && 1 in t.reqs && t.reqs[1].handler.Logout? && t.reqs[1].phase == Answered(204)
    ensures t.reqs[1].hold.Some? && t.reqs[1].cookie == "sid" && IsLive(t, "sid") && t.failures == COUNTER_RANGE
  {
    var s, ref, late := RaceStarts(cfg);
    s := LogoutMoves(cfg, s, ref, late, AtPut);
    s := LogoutMoves(cfg, s, ref, late, AtCheck);
    s := LogoutMoves(cfg, s, ref, late, AtRevoke);
    s := LogoutMoves(cfg, s, ref, late, AtLoad);
    var u := DeleteFails(cfg, s, ref, late);
    t := AnswersAfterTheWrap(cfg, u, ref, late);
  }

  lemma AnswersAfterTheWrap(cfg: Config, s: State, ref: Ref, late: Ref) returns (t: State)
    requires cfg.kind.Durable? && Reached(cfg, ANY_RUN, s) && IsLive(s, "sid")
    requires s.failures == 1 && s.reqs == Racing(ref, late, AtCompare(0))
    requires ref in s.heap && s.heap[ref].id in s.book.issued
    ensures Reached(cfg, ANY_RUN, t) && 1 in t.reqs && t.reqs[1].handler.Logout? && t.reqs[1].phase == Answered(204)
    ensures t.reqs[1].hold.Some? && t.reqs[1].cookie == "sid" && IsLive(t, "sid") && t.failures == COUNTER_RANGE
  {
    var u := FailingReads(cfg, s, 2, COUNTER_RANGE - 1);
    assert u.reqs[1] == Racing(ref, late, AtCompare(0))[1];
    ModuloDifference(u.failures, 0);
    Work(cfg, u, 1, Done);
    t := Goto(u, 1, Answered(204));
  }
}
