/** One request after the other on the rehydrating store: nothing is lost then, and every refresh
    presents the token set that the one before it was given. */
module SessionSequence {
  import opened Options
  import opened SessionProtocol
  import opened SessionSafety
  import opened SessionTheorems
  import opened SessionSharing
  import opened SessionOrder
  import opened SessionRows
  import opened SessionRefresh

  /** Nobody but rid is in flight. */
  ghost predicate AloneInFlight(s: State, rid: Rid) {
    forall i | i in s.reqs && i != rid :: !InFlight(s.reqs[i])
  }

  /** The step fits a run in which requests follow each other: a session is read only when nobody
      is in flight, refreshes end with their requests, and write-backs do not fail. */
  ghost predicate OneByOne(s: State, a: Action) {
    match a
    case Detach(_, _) => false
    case Advance(rid, o) =>
      && (rid in s.reqs && s.reqs[rid].phase.AtGet? ==> AloneInFlight(s, rid))
      && (rid in s.reqs && AtAnyPut(s.reqs[rid]) ==> !o.Failed?)
    case _ => true
  }

  ghost predicate AllOneByOne(cfg: Config, s: State, acts: seq<Action>)
    decreases |acts|
  {
    acts == [] ||
    (WellFormed(s) && Enabled(cfg, s, acts[0]) && OneByOne(s, acts[0])
        && AllOneByOne(cfg, Next(cfg, s, acts[0]), acts[1..]))
  }

  // ---- the invariant ----------------------------------------------------------------------

  predicate IsLatest(issued: map<Id, seq<string>>, id: Id, token: string) {
    id in issued && issued[id] != [] && token == Last(issued[id])
  }

  predicate HasLatest(s: State, r: Req) {
    && r.hold.Some? && r.hold.value.ref in s.heap
    && IsLatest(s.book.issued, r.cookie, s.heap[r.hold.value.ref].access)
  }

  predicate Lags(s: State, id: Id) {
    IsLive(s, id) && !(s.rows[id].Snapshot? && IsLatest(s.book.issued, id, s.rows[id].session.access))
  }

  /** The request is about to write the token it was just given. */
  predicate AboutToWrite(r: Req) {
    InFlight(r) && (r.phase.AtPutFresh? || r.phase.AtPutElevated?)
  }

  /** Whoever is in flight is alone and up to date. */
  ghost predicate Orderly(s: State) {
    forall rid | rid in s.reqs && InFlight(s.reqs[rid]) :: AloneInFlight(s, rid) && HasLatest(s, s.reqs[rid])
  }

  /** A row lags only behind its own writer. */
  ghost predicate RowsCurrent(s: State) {
    forall id | Lags(s, id) :: exists rid :: rid in s.reqs && s.reqs[rid].cookie == id && AboutToWrite(s.reqs[rid])
  }

  lemma NobodyLags(s: State, rid: Rid)
    requires RowsCurrent(s) && rid in s.reqs && AloneInFlight(s, rid) && !AboutToWrite(s.reqs[rid])
    ensures forall id :: !Lags(s, id)
  {
  }

  lemma OnlyItsRowLags(s: State, rid: Rid, id: Id)
    requires RowsCurrent(s) && rid in s.reqs && AloneInFlight(s, rid) && s.reqs[rid].cookie != id
    ensures !Lags(s, id)
  {
  }

  // ---- every step -----------------------------------------------------------------------------

  lemma ReadsCurrent(cfg: Config, s: State, rid: Rid, o: Outcome, t: State)
    requires cfg.kind.Durable? && Inv(s) && Orderly(s) && RowsCurrent(s) && rid in s.reqs && s.reqs[rid].phase.AtGet?
    requires AloneInFlight(s, rid) && t == Resolve(cfg, s, rid, o)
    ensures Orderly(t) && RowsCurrent(t)
  {
    var id := s.reqs[rid].cookie;
    assert ReqFits(s.heap, s.reqs[rid]);
    NobodyLags(s, rid);
    assert !Lags(s, id) && t.rows == s.rows && t.book == s.book;
    assert forall i :: Lags(t, i) ==> Lags(s, i);
  }

  /** A step of the only request in flight, up to the change of its phase. */
  ghost predicate Fits(s: State, rid: Rid, r: Req) {
    && rid in s.reqs && r == s.reqs[rid] && InFlight(r) && ReqFits(s.heap, r) && r.cookie in s.book.issued
    && AloneInFlight(s, rid) && HasLatest(s, r) && !r.phase.AtGet?
  }

  lemma PutCurrent(cfg: Config, s: State, rid: Rid, r: Req, o: Outcome, u: State)
    requires cfg.kind.Durable? && Fits(s, rid, r) && RowsCurrent(s) && AtAnyPut(r) && !o.Failed?
    requires u == Touches(cfg, s, rid, o)
    ensures u.reqs == s.reqs && HasLatest(u, r) && forall id :: !Lags(u, id)
  {
    PutTouch(cfg, s, rid, r, o, u);
    forall id ensures !Lags(u, id) {
      if id != r.cookie { OnlyItsRowLags(s, rid, id); }
    }
  }

  lemma GiveCurrent(cfg: Config, s: State, rid: Rid, r: Req, o: Outcome, u: State)
    requires Fits(s, rid, r) && RowsCurrent(s) && Gives(s, rid, o) && u == Touches(cfg, s, rid, o)
    ensures u.reqs == s.reqs && HasLatest(u, r) && forall id | id != r.cookie :: !Lags(u, id)
  {
    GivingTouch(cfg, s, rid, r, o, u);
    forall id | id != r.cookie ensures !Lags(u, id) {
      OnlyItsRowLags(s, rid, id);
    }
  }

  lemma OtherCurrent(cfg: Config, s: State, rid: Rid, r: Req, o: Outcome, u: State)
    requires Fits(s, rid, r) && RowsCurrent(s) && !AtAnyPut(r) && !Gives(s, rid, o) && u == Touches(cfg, s, rid, o)
    ensures u.reqs == s.reqs && HasLatest(u, r) && forall id :: !Lags(u, id)
  {
    NobodyLags(s, rid);
    OtherSpends(cfg, s, rid, r, o, u);
    NoNewRows(cfg, s, rid, r, o, u);
    TouchesFrame(cfg, s, rid, o);
    KeepsToken(cfg, s, rid, r, o, u);
    forall id ensures !Lags(u, id) {
      assert !Lags(s, id);
    }
  }

  lemma KeepsToken(cfg: Config, s: State, rid: Rid, r: Req, o: Outcome, u: State)
    requires !AtAnyPut(r) && !Gives(s, rid, o)
    requires rid in s.reqs && r == s.reqs[rid] && r.hold.Some? && ReqFits(s.heap, r) && r.cookie in s.book.issued
    requires u == Touches(cfg, s, rid, o)
    ensures r.hold.value.ref in u.heap && u.heap[r.hold.value.ref].access == s.heap[r.hold.value.ref].access
  {
    if AtAnyDelete(r) {
      DeleteTouch(cfg, s, rid, r, o, u);
    } else if r.phase.AtRevoke? {
      RevokingTouch(cfg, s, rid, r, o, u);
    } else {
      QuietTouch(cfg, s, rid, r, o, u);
    }
  }

  lemma MovesOn(u: State, rid: Rid, phase: Phase, t: State)
    requires rid in u.reqs && AloneInFlight(u, rid) && HasLatest(u, u.reqs[rid]) && t == Goto(u, rid, phase)
    requires forall id | Lags(u, id) :: id == u.reqs[rid].cookie && AboutToWrite(t.reqs[rid])
    ensures Orderly(t) && RowsCurrent(t)
  {
    forall id | Lags(t, id)
      ensures exists i :: i in t.reqs && t.reqs[i].cookie == id && AboutToWrite(t.reqs[i])
    {
      assert Lags(u, id) && rid in t.reqs && t.reqs[rid].cookie == id;
    }
  }

  lemma AdvancesInOrder(cfg: Config, s: State, rid: Rid, o: Outcome, t: State)
    requires cfg.kind.Durable? && Inv(s) && Orderly(s) && RowsCurrent(s)
    requires Enabled(cfg, s, Advance(rid, o)) && OneByOne(s, Advance(rid, o)) && !s.reqs[rid].phase.AtGet?
    requires t == Next(cfg, s, Advance(rid, o))
    ensures Orderly(t) && RowsCurrent(t)
  {
    var r, u := s.reqs[rid], Touches(cfg, s, rid, o);
    assert ReqFits(s.heap, r);
    if AtAnyPut(r) {
      PutCurrent(cfg, s, rid, r, o, u);
    } else if Gives(s, rid, o) {
      GiveCurrent(cfg, s, rid, r, o, u);
    } else {
      OtherCurrent(cfg, s, rid, r, o, u);
    }
    MovesOn(u, rid, NextPhase(s, r, o), t);
  }

  lemma MintsInOrder(cfg: Config, s: State, a: Action, t: State)
    requires cfg.kind.Durable? && Inv(s) && Orderly(s) && RowsCurrent(s) && a.Mint? && Enabled(cfg, s, a)
    requires t == Next(cfg, s, a)
    ensures Orderly(t) && RowsCurrent(t)
  {
    forall rid | rid in t.reqs && InFlight(t.reqs[rid]) ensures HasLatest(t, t.reqs[rid]) {
      assert ReqFits(s.heap, s.reqs[rid]) && HasLatest(s, s.reqs[rid]);
    }
    assert forall id | Lags(t, id) :: Lags(s, id);
  }

  lemma ArrivesInOrder(s: State, rid: Rid, r: Req, t: State)
    requires Orderly(s) && RowsCurrent(s) && rid !in s.reqs && r.hold.None? && t == s.(reqs := s.reqs[rid := r])
    ensures Orderly(t) && RowsCurrent(t)
  {
    forall id | Lags(t, id)
      ensures exists i :: i in t.reqs && t.reqs[i].cookie == id && AboutToWrite(t.reqs[i])
    {
      assert Lags(s, id);
      var i :| i in s.reqs && s.reqs[i].cookie == id && AboutToWrite(s.reqs[i]);
      assert i in t.reqs && t.reqs[i] == s.reqs[i];
    }
  }

  lemma NextInOrder(cfg: Config, s: State, a: Action, t: State)
    requires cfg.kind.Durable? && Inv(s) && Orderly(s) && RowsCurrent(s)
    requires Enabled(cfg, s, a) && OneByOne(s, a) && t == Next(cfg, s, a)
    ensures Orderly(t) && RowsCurrent(t)
  {
    match a {
      case Mint(_, _, _) => MintsInOrder(cfg, s, a, t);
      case Arrive(rid, handler, cookie, header) => ArrivesInOrder(s, rid, Req(handler, cookie, header, AtGet, None), t);
      case Advance(rid, o) =>
        if s.reqs[rid].phase.AtGet? { ReadsCurrent(cfg, s, rid, o, t); } else { AdvancesInOrder(cfg, s, rid, o, t); }
      case Tick(_) => assert forall id | Lags(t, id) :: Lags(s, id);
      case Sweep(_) => assert forall id | Lags(t, id) :: Lags(s, id);
    }
  }

  lemma {:induction false} RunInOrder(cfg: Config, s: State, acts: seq<Action>, t: State)
    requires cfg.kind.Durable? && Inv(s) && Orderly(s) && RowsCurrent(s)
    requires Leads(cfg, ANY_RUN, s, acts, t) && AllOneByOne(cfg, s, acts)
    ensures Inv(t) && Orderly(t) && RowsCurrent(t)
    decreases |acts|
  {
    if acts != [] {
      var u := Next(cfg, s, acts[0]);
      NextKeeps(cfg, s, acts[0]);
      NextInOrder(cfg, s, acts[0], u);
      RunInOrder(cfg, u, acts[1..], t);
    }
  }

  // ---- the theorems -----------------------------------------------------------------------------

  /** When requests follow each other, a live session serves its latest token whenever nobody is
      in flight. */
  lemma NothingIsLost(cfg: Config, acts: seq<Action>, s: State, id: Id)
    requires cfg.kind.Durable? && Leads(cfg, ANY_RUN, INIT, acts, s) && AllOneByOne(cfg, INIT, acts)
    requires IsLive(s, id) && forall rid | rid in s.reqs :: !InFlight(s.reqs[rid])
    ensures WellFormed(s) && id in s.book.issued && s.book.issued[id] != []
    ensures Served(s, id).access == Last(s.book.issued[id])
  {
    RunInOrder(cfg, INIT, acts, s);
    assert !Lags(s, id);
  }

  /** And no request holds a spent token set: every refresh presents the latest one. */
  lemma EveryRefreshPresentsTheLatest(cfg: Config, acts: seq<Action>, s: State, rid: Rid)
    requires cfg.kind.Durable? && Leads(cfg, ANY_RUN, INIT, acts, s) && AllOneByOne(cfg, INIT, acts)
    requires rid in s.reqs && InFlight(s.reqs[rid])
    requires s.reqs[rid].cookie in s.book.issued && Distinct(s.book.issued[s.reqs[rid].cookie])
    ensures HasLatest(s, s.reqs[rid]) && !HoldsSpent(s, SpendRun(cfg, INIT, map[], acts), rid)
  {
    RunInOrder(cfg, INIT, acts, s);
    RunSpends(cfg, ANY_RUN, INIT, map[], acts, s);
  }
}
