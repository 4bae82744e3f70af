/** What a handler's answer says about what it did. */
module SessionAnswers {
  import opened Options
  import opened SessionProtocol
  import opened SessionSafety
  import opened SessionTheorems

  /** A logout that is past the revocation of the session's tokens. */
  predicate HasRevoked(r: Req) {
    || r.phase.AtLoad? || r.phase.AtDelete? || r.phase.AtCompare?
    || (r.hold.Some? && (r.phase == Answered(204) || r.phase == Answered(500)))
  }

  predicate HasSteppedUp(r: Req) {
    r.phase.AtPutElevated? || r.phase == Answered(204)
  }

  predicate AnswerOk(effects: seq<Effect>, rid: Rid, r: Req) {
    && (r.handler.Elevate? ==> (HasSteppedUp(r) <==> Effect(rid, r.cookie, SteppedUp) in effects))
    && (r.handler.Logout? ==> (HasRevoked(r) <==> Effect(rid, r.cookie, RevokedTokens) in effects))
  }

  ghost predicate AnswersOk(s: State) {
    forall rid | rid in s.reqs :: AnswerOk(s.book.effects, rid, s.reqs[rid])
  }

  /** The deed that a step records. */
  function DeedOf(r: Req, o: Outcome): Option<Deed> {
    match r.phase
    case AtRevoke => Some(RevokedTokens)
    case AtDelete(_) => if o.Failed? then None else Some(DeletedRow)
    case AtFatalDelete => if o.Failed? then None else Some(if r.handler.Elevate? then DeletedRow else DroppedRejected)
    case AtEnsure => if o.NewToken? && o.access != "" then Some(Refreshed) else None
    case AtUpstream => if Usable(o) then Some(SteppedUp) else None
    case _ => None
  }

  function Recorded(effects: seq<Effect>, rid: Rid, r: Req, o: Outcome): seq<Effect> {
    if DeedOf(r, o).Some? then effects + [Effect(rid, r.cookie, DeedOf(r, o).value)] else effects
  }

  lemma TouchesRecords(cfg: Config, s: State, rid: Rid, o: Outcome)
    requires rid in s.reqs && s.reqs[rid].hold.Some? && ReqFits(s.heap, s.reqs[rid])
    requires s.reqs[rid].cookie in s.book.issued
    ensures Touches(cfg, s, rid, o).book.effects == Recorded(s.book.effects, rid, s.reqs[rid], o)
  {
    var r, t := s.reqs[rid], Touches(cfg, s, rid, o);
    if AtAnyPut(r) {
      PutTouch(cfg, s, rid, r, o, t);
    } else if AtAnyDelete(r) {
      DeleteTouch(cfg, s, rid, r, o, t);
    } else {
      OtherRecords(cfg, s, rid, r, o, t);
    }
  }

  lemma OtherRecords(cfg: Config, s: State, rid: Rid, r: Req, o: Outcome, t: State)
    requires rid in s.reqs && r == s.reqs[rid] && r.hold.Some? && ReqFits(s.heap, r) && r.cookie in s.book.issued
    requires t == Touches(cfg, s, rid, o) && !AtAnyPut(r) && !AtAnyDelete(r)
    ensures t.book.effects == Recorded(s.book.effects, rid, r, o)
  {
    if Gives(s, rid, o) {
      GivingTouch(cfg, s, rid, r, o, t);
    } else if r.phase.AtRevoke? {
      RevokingTouch(cfg, s, rid, r, o, t);
    } else {
      QuietTouch(cfg, s, rid, r, o, t);
    }
  }

  /** The handler that takes the step. */
  lemma OwnAnswer(s: State, rid: Rid, r: Req, o: Outcome)
    requires AnswerOk(s.book.effects, rid, r) && InFlight(r) && ReqFits(s.heap, r) && !r.phase.AtGet?
    requires r.phase.AtUpstream? ==> r.handler.Elevate?
    requires r.phase.AtRevoke? ==> r.handler.Logout?
    requires r.handler.Logout? ==> !(r.phase.AtPutElevated? || r.phase.AtEnsure?)
    requires r.handler.Logout? ==> !(r.phase.AtPutFresh? || r.phase.AtFatalDelete?)
    requires r.handler.Elevate? ==> !(r.phase.AtLoad? || r.phase.AtDelete? || r.phase.AtCompare?)
    ensures AnswerOk(Recorded(s.book.effects, rid, r, o), rid, r.(phase := NextPhase(s, r, o)))
  {
  }

  /** Handlers stay on their own paths. */
  predicate OnPath(r: Req) {
    match r.phase
    case AtUpstream | AtPutElevated => r.handler.Elevate?
    case AtRevoke | AtLoad | AtDelete(_) | AtCompare(_) => r.handler.Logout?
    case AtEnsure | AtPutFresh | AtFatalDelete => !r.handler.Logout? && !r.handler.SessionInfo?
    case AtCheck => r.handler.Logout? || r.handler.Elevate?
    case _ => true
  }

  ghost predicate PathsOk(s: State) {
    forall rid | rid in s.reqs :: OnPath(s.reqs[rid])
  }

  lemma StaysOnPath(s: State, r: Req, o: Outcome)
    requires OnPath(r) && r.hold.Some? && r.hold.value.ref in s.heap
    ensures OnPath(r.(phase := NextPhase(s, r, o)))
  {
  }

  lemma OtherAnswer(effects: seq<Effect>, rid: Rid, r: Req, o: Outcome, i: Rid, other: Req)
    requires AnswerOk(effects, i, other) && i != rid
    ensures AnswerOk(Recorded(effects, rid, r, o), i, other)
  {
    forall deed
      ensures Effect(i, other.cookie, deed) in Recorded(effects, rid, r, o)
              <==> Effect(i, other.cookie, deed) in effects
    {
    }
  }

  lemma AdvanceAnswers(cfg: Config, s: State, rid: Rid, o: Outcome, t: State)
    requires Inv(s) && AnswersOk(s) && PathsOk(s) && Enabled(cfg, s, Advance(rid, o)) && !s.reqs[rid].phase.AtGet?
    requires t == Next(cfg, s, Advance(rid, o))
    ensures AnswersOk(t) && PathsOk(t)
  {
    var r := s.reqs[rid];
    assert ReqFits(s.heap, r) && OnPath(r) && AnswerOk(s.book.effects, rid, r);
    TouchesFrame(cfg, s, rid, o);
    TouchesRecords(cfg, s, rid, o);
    StaysOnPath(s, r, o);
    OwnAnswer(s, rid, r, o);
    forall i | i in t.reqs ensures AnswerOk(t.book.effects, i, t.reqs[i]) && OnPath(t.reqs[i]) {
      if i != rid {
        assert AnswerOk(s.book.effects, i, s.reqs[i]) && OnPath(s.reqs[i]);
        OtherAnswer(s.book.effects, rid, r, o, i, s.reqs[i]);
      }
    }
  }

  lemma ResolveAnswers(cfg: Config, s: State, rid: Rid, o: Outcome, t: State)
    requires Inv(s) && AnswersOk(s) && PathsOk(s) && Enabled(cfg, s, Advance(rid, o)) && s.reqs[rid].phase.AtGet?
    requires t == Next(cfg, s, Advance(rid, o))
    ensures AnswersOk(t) && PathsOk(t)
  {
    var r := s.reqs[rid];
    assert ReqFits(s.heap, r) && AnswerOk(s.book.effects, rid, r);
    assert t.book == s.book;
    forall i | i in t.reqs ensures AnswerOk(t.book.effects, i, t.reqs[i]) && OnPath(t.reqs[i]) {
      if i != rid {
        assert t.reqs[i] == s.reqs[i] && AnswerOk(s.book.effects, i, s.reqs[i]) && OnPath(s.reqs[i]);
      }
    }
  }

  /** A new request has done nothing yet. */
  lemma NewcomerAnswers(s: State, rid: Rid, r: Req, t: State)
    requires Inv(s) && AnswersOk(s) && PathsOk(s) && rid !in s.reqs && t == s.(reqs := s.reqs[rid := r])
    requires OnPath(r) && (r.handler.Elevate? ==> !HasSteppedUp(r)) && (r.handler.Logout? ==> !HasRevoked(r))
    ensures AnswersOk(t) && PathsOk(t)
  {
    forall deed ensures Effect(rid, r.cookie, deed) !in s.book.effects {
      assert Effect(rid, r.cookie, deed) in s.book.effects ==> EffectOk(s.book, s.reqs, Effect(rid, r.cookie, deed));
    }
  }

  lemma NextAnswers(cfg: Config, s: State, a: Action, t: State)
    requires Inv(s) && AnswersOk(s) && PathsOk(s) && Enabled(cfg, s, a) && t == Next(cfg, s, a)
    ensures AnswersOk(t) && PathsOk(t)
  {
    match a {
      case Advance(rid, o) =>
        if s.reqs[rid].phase.AtGet? { ResolveAnswers(cfg, s, rid, o, t); } else { AdvanceAnswers(cfg, s, rid, o, t); }
      case Arrive(rid, handler, cookie, header) =>
        NewcomerAnswers(s, rid, Req(handler, cookie, header, AtGet, None), t);
      case Detach(rid, task) =>
        assert OnPath(s.reqs[rid]);
        NewcomerAnswers(s, task, s.reqs[rid].(handler := Refresher), t);
      case _ => assert t.reqs == s.reqs && t.book.effects == s.book.effects;
    }
  }

  lemma {:induction false} RunAnswers(cfg: Config, d: Discipline, s: State, acts: seq<Action>, t: State)
    requires Inv(s) && AnswersOk(s) && PathsOk(s) && Leads(cfg, d, s, acts, t)
    ensures AnswersOk(t) && PathsOk(t)
    decreases |acts|
  {
    if acts != [] {
      var u := Next(cfg, s, acts[0]);
      NextKeeps(cfg, s, acts[0]);
      NextAnswers(cfg, s, acts[0], u);
      RunAnswers(cfg, d, u, acts[1..], t);
    }
  }

  /** In every reachable state a finished step-up answered 204 exactly when the session it read
      was given the step-up's token. */
  lemma StepUpAnswersAreHonest(cfg: Config, acts: seq<Action>, s: State, rid: Rid)
    requires Leads(cfg, ANY_RUN, INIT, acts, s) && rid in s.reqs && s.reqs[rid].handler.Elevate?
             && s.reqs[rid].phase.Answered?
    ensures s.reqs[rid].phase.status == 204 <==> Effect(rid, s.reqs[rid].cookie, SteppedUp) in s.book.effects
  {
    RunAnswers(cfg, ANY_RUN, INIT, acts, s);
    assert AnswerOk(s.book.effects, rid, s.reqs[rid]);
  }

  /** In every reachable state a finished logout that resolved its session revoked the tokens
      exactly when it answered 204 or 500; a failed delete does not undo the revocation. */
  lemma LogoutRevokesFirst(cfg: Config, acts: seq<Action>, s: State, rid: Rid)
    requires Leads(cfg, ANY_RUN, INIT, acts, s) && rid in s.reqs && s.reqs[rid].handler.Logout?
             && s.reqs[rid].phase.Answered?
    requires s.reqs[rid].hold.Some?
    ensures s.reqs[rid].phase.status == 204 || s.reqs[rid].phase.status == 500 <==>
            Effect(rid, s.reqs[rid].cookie, RevokedTokens) in s.book.effects
  {
    RunAnswers(cfg, ANY_RUN, INIT, acts, s);
    assert AnswerOk(s.book.effects, rid, s.reqs[rid]);
  }
}
