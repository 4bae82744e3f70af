/** What a logout's answer says about its own delete, and about everybody's failed statements. */
module SessionLogout {
  import opened Options
  import opened SessionProtocol
  import opened SessionSafety
  import opened SessionDeletion
  import opened SessionTheorems
  import opened SessionAnswers

  // ---- a logout's own delete ------------------------------------------------------------

  predicate HasDeleted(effects: seq<Effect>, rid: Rid, r: Req) {
    Effect(rid, r.cookie, DeletedRow) in effects
  }

  /** A logout whose two loads agree has deleted the row itself. */
  predicate LogoutOk(failures: nat, effects: seq<Effect>, rid: Rid, r: Req) {
    match r.phase
    case AtDelete(mark) => mark <= failures
    case AtCompare(mark) => mark <= failures && (mark == failures ==> HasDeleted(effects, rid, r))
    case Answered(status) => r.handler.Logout? && r.hold.Some? && status == 204 ==> HasDeleted(effects, rid, r)
    case _ => true
  }

  ghost predicate LogoutsOk(s: State) {
    forall rid | rid in s.reqs :: LogoutOk(s.failures, s.book.effects, rid, s.reqs[rid])
  }

  /** Whoever deleted a row, the deletion is on record. */
  ghost predicate DeletionsNoted(s: State) {
    forall e | e in s.book.effects && (e.deed.DeletedRow? || e.deed.DroppedRejected?) :: e.id in s.book.deletedAt
  }

  lemma ModuloDifference(a: nat, b: nat)
    requires b <= a
    ensures a % COUNTER_RANGE == b % COUNTER_RANGE <==> (a - b) % COUNTER_RANGE == 0
    ensures a < b + COUNTER_RANGE ==> (a % COUNTER_RANGE == b % COUNTER_RANGE <==> a == b)
  {
    assert COUNTER_RANGE == 0x1_0000_0000_0000_0000;
  }

  lemma OwnLogout(cfg: Config, s: State, rid: Rid, r: Req, o: Outcome, t: State)
    requires rid in s.reqs && r == s.reqs[rid] && InFlight(r) && ReqFits(s.heap, r) && r.cookie in s.book.issued
    requires !r.phase.AtGet? && OnPath(r) && LogoutOk(s.failures, s.book.effects, rid, r) && NoWrap(s, Advance(rid, o))
    requires t == Touches(cfg, s, rid, o) && t.book.effects == Recorded(s.book.effects, rid, r, o)
    ensures LogoutOk(t.failures, t.book.effects, rid, r.(phase := NextPhase(s, r, o)))
  {
    if r.phase.AtCompare? { ModuloDifference(s.failures, r.phase.mark); }
  }

  lemma OtherLogout(s: State, rid: Rid, r: Req, o: Outcome, failures: nat, i: Rid, other: Req)
    requires LogoutOk(s.failures, s.book.effects, i, other) && s.failures <= failures
    ensures LogoutOk(failures, Recorded(s.book.effects, rid, r, o), i, other)
  {
  }

  lemma DeletesNote(cfg: Config, s: State, rid: Rid, r: Req, o: Outcome, t: State)
    requires rid in s.reqs && r == s.reqs[rid] && r.hold.Some? && ReqFits(s.heap, r) && r.cookie in s.book.issued
    requires t == Touches(cfg, s, rid, o) && t.book.effects == Recorded(s.book.effects, rid, r, o)
    requires DeletionsNoted(s) && s.book.deletedAt.Keys <= t.book.deletedAt.Keys
    ensures DeletionsNoted(t) && s.failures <= t.failures
  {
  }

  lemma AdvanceLogout(cfg: Config, s: State, rid: Rid, o: Outcome, t: State)
    requires Inv(s) && PathsOk(s) && LogoutsOk(s) && DeletionsNoted(s)
    requires Enabled(cfg, s, Advance(rid, o)) && !s.reqs[rid].phase.AtGet? && NoWrap(s, Advance(rid, o))
    requires t == Next(cfg, s, Advance(rid, o))
    ensures LogoutsOk(t) && DeletionsNoted(t)
  {
    var r, u := s.reqs[rid], Touches(cfg, s, rid, o);
    assert ReqFits(s.heap, r) && OnPath(r) && LogoutOk(s.failures, s.book.effects, rid, r);
    TouchesFrame(cfg, s, rid, o);
    TouchesRecords(cfg, s, rid, o);
    DeletesNote(cfg, s, rid, r, o, u);
    OwnLogout(cfg, s, rid, r, o, u);
    forall i | i in t.reqs ensures LogoutOk(t.failures, t.book.effects, i, t.reqs[i]) {
      if i != rid {
        assert LogoutOk(s.failures, s.book.effects, i, s.reqs[i]);
        OtherLogout(s, rid, r, o, t.failures, i, s.reqs[i]);
      }
    }
  }

  lemma ResolveLogout(cfg: Config, s: State, rid: Rid, o: Outcome, t: State)
    requires Inv(s) && LogoutsOk(s) && DeletionsNoted(s)
    requires Enabled(cfg, s, Advance(rid, o)) && s.reqs[rid].phase.AtGet? && t == Next(cfg, s, Advance(rid, o))
    ensures LogoutsOk(t) && DeletionsNoted(t)
  {
    assert ReqFits(s.heap, s.reqs[rid]);
    assert t.book == s.book && s.failures <= t.failures;
    forall i | i in t.reqs ensures LogoutOk(t.failures, t.book.effects, i, t.reqs[i]) {
      if i != rid { assert t.reqs[i] == s.reqs[i] && LogoutOk(s.failures, s.book.effects, i, s.reqs[i]); }
    }
  }

  lemma NextLogout(cfg: Config, s: State, a: Action, t: State)
    requires Inv(s) && PathsOk(s) && LogoutsOk(s) && DeletionsNoted(s)
    requires Enabled(cfg, s, a) && NoWrap(s, a) && t == Next(cfg, s, a)
    ensures LogoutsOk(t) && DeletionsNoted(t)
  {
    match a {
      case Advance(rid, o) =>
        if s.reqs[rid].phase.AtGet? { ResolveLogout(cfg, s, rid, o, t); } else { AdvanceLogout(cfg, s, rid, o, t); }
      case _ => assert t.book.effects == s.book.effects && t.book.deletedAt == s.book.deletedAt;
    }
  }

  lemma {:induction false} RunLogout(cfg: Config, d: Discipline, s: State, acts: seq<Action>, t: State)
    requires d.noWrap && Inv(s) && AnswersOk(s) && PathsOk(s) && LogoutsOk(s) && DeletionsNoted(s)
    requires Leads(cfg, d, s, acts, t)
    ensures LogoutsOk(t) && DeletionsNoted(t)
    decreases |acts|
  {
    if acts != [] {
      var u := Next(cfg, s, acts[0]);
      NextKeeps(cfg, s, acts[0]);
      NextAnswers(cfg, s, acts[0], u);
      NextLogout(cfg, s, acts[0], u);
      RunLogout(cfg, d, u, acts[1..], t);
    }
  }

  /** A 204 from a logout that resolved its session means that its own delete went through,
      whoever else failed meanwhile. */
  lemma CleanLogoutDeletedItself(cfg: Config, d: Discipline, acts: seq<Action>, s: State, rid: Rid)
    requires d.noWrap && Leads(cfg, d, INIT, acts, s)
    requires rid in s.reqs && s.reqs[rid].handler.Logout? && s.reqs[rid].hold.Some?
             && s.reqs[rid].phase == Answered(204)
    ensures Effect(rid, s.reqs[rid].cookie, DeletedRow) in s.book.effects && s.reqs[rid].cookie in s.book.deletedAt
  {
    RunLogout(cfg, d, INIT, acts, s);
    assert LogoutOk(s.failures, s.book.effects, rid, s.reqs[rid]);
  }

  /** And the session is gone for good, in every run that is on time as well. */
  lemma CleanLogoutIsFinal(cfg: Config, d: Discipline, before: seq<Action>, s: State, after: seq<Action>, t: State,
                           rid: Rid)
    requires d.noWrap && d.timely && Leads(cfg, d, INIT, before, s) && Leads(cfg, d, s, after, t)
    requires rid in s.reqs && s.reqs[rid].handler.Logout? && s.reqs[rid].hold.Some?
             && s.reqs[rid].phase == Answered(204)
    ensures !IsLive(s, s.reqs[rid].cookie) && !IsLive(t, s.reqs[rid].cookie)
  {
    CleanLogoutDeletedItself(cfg, d, before, s, rid);
    NoResurrection(cfg, d, before, s, [], s, s.reqs[rid].cookie);
    NoResurrection(cfg, d, before, s, after, t, s.reqs[rid].cookie);
  }

  // ---- the failure counter --------------------------------------------------------------

  /** The step runs a store statement, and the statement fails. */
  predicate StatementFails(s: State, a: Action) {
    && a.Advance? && a.outcome.Failed? && a.rid in s.reqs
    && match s.reqs[a.rid].phase
       case AtGet | AtPut | AtPutFresh | AtPutElevated | AtDelete(_) | AtFatalDelete => true
       case _ => false
  }

  /** The statements that fail along a run. */
  ghost function FailedStatements(cfg: Config, s: State, acts: seq<Action>): nat
    decreases |acts|
  {
    if acts == [] || !WellFormed(s) || !Enabled(cfg, s, acts[0]) then 0
    else (if StatementFails(s, acts[0]) then 1 else 0) + FailedStatements(cfg, Next(cfg, s, acts[0]), acts[1..])
  }

  lemma StepCounts(cfg: Config, s: State, a: Action, t: State)
    requires WellFormed(s) && Enabled(cfg, s, a) && t == Next(cfg, s, a)
    ensures t.failures == s.failures + if StatementFails(s, a) then 1 else 0
  {
    if a.Advance? { assert ReqFits(s.heap, s.reqs[a.rid]); }
  }

  /** Between its loads a logout carries the count that it loaded first. */
  predicate Carries(s: State, rid: Rid, mark: nat) {
    rid in s.reqs &&
    var phase := s.reqs[rid].phase;
    phase == AtDelete(mark) || phase == AtCompare(mark) || phase.Answered?
  }

  lemma StillCarries(cfg: Config, s: State, a: Action, t: State, rid: Rid, mark: nat)
    requires WellFormed(s) && Enabled(cfg, s, a) && t == Next(cfg, s, a) && Carries(s, rid, mark)
    ensures Carries(t, rid, mark)
  {
    if a.Advance? {
      assert ReqFits(s.heap, s.reqs[a.rid]);
      if !s.reqs[a.rid].phase.AtGet? { TouchesFrame(cfg, s, a.rid, a.outcome); }
    }
  }

  lemma {:induction false} RunCounts(cfg: Config, d: Discipline, s: State, acts: seq<Action>, t: State, rid: Rid,
                                     mark: nat)
    requires Leads(cfg, d, s, acts, t) && Carries(s, rid, mark)
    ensures t.failures == s.failures + FailedStatements(cfg, s, acts) && Carries(t, rid, mark)
    decreases |acts|
  {
    if acts != [] {
      var u := Next(cfg, s, acts[0]);
      StepCounts(cfg, s, acts[0], u);
      StillCarries(cfg, s, acts[0], u, rid, mark);
      RunCounts(cfg, d, u, acts[1..], t, rid, mark);
    }
  }

  /** Whatever happens between a logout's two loads, it answers 204 exactly when the statements
      that failed in between, its own or anybody's, number a multiple of 2^64: below that, when
      there were none.  So a 500 is never raised without a failure. */
  lemma ComparisonIsExact(cfg: Config, d: Discipline, s: State, between: seq<Action>, u: State,
                          rid: Rid, first: Outcome, last: Outcome)
    requires WellFormed(s) && Enabled(cfg, s, Advance(rid, first))
    requires s.reqs[rid].phase.AtLoad? && Leads(cfg, d, Next(cfg, s, Advance(rid, first)), between, u)
    requires WellFormed(u) && Enabled(cfg, u, Advance(rid, last)) && u.reqs[rid].phase.AtCompare?
    ensures var failed := FailedStatements(cfg, Next(cfg, s, Advance(rid, first)), between);
            var t := Next(cfg, u, Advance(rid, last));
            && t.reqs[rid].phase == Answered(if failed % COUNTER_RANGE == 0 then 204 else 500)
            && (failed < COUNTER_RANGE ==> (t.reqs[rid].phase == Answered(500) <==> failed > 0))
  {
    var s1 := Next(cfg, s, Advance(rid, first));
    assert ReqFits(s.heap, s.reqs[rid]);
    assert Carries(s1, rid, s.failures) && s1.failures == s.failures;
    RunCounts(cfg, d, s1, between, u, rid, s.failures);
    Compares(cfg, u, rid, last);
    ModuloDifference(u.failures, s.failures);
  }

  lemma Compares(cfg: Config, u: State, rid: Rid, o: Outcome)
    requires WellFormed(u) && Enabled(cfg, u, Advance(rid, o)) && u.reqs[rid].phase.AtCompare?
    ensures Next(cfg, u, Advance(rid, o)).reqs[rid].phase
            == Answered(if u.failures % COUNTER_RANGE == u.reqs[rid].phase.mark % COUNTER_RANGE then 204 else 500)
  {
    assert ReqFits(u.heap, u.reqs[rid]);
  }
}
