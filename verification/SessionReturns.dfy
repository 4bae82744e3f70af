/** When a deleted session can come back: over all runs, on time or not. */
module SessionReturns {
  import opened Options
  import opened SessionProtocol
  import opened SessionSafety
  import opened SessionTheorems

  /** A request in flight that holds its session and can still get to a write-back. */
  predicate CanStillPut(book: Book, r: Req) {
    && InFlight(r)
    && match r.phase
       case AtTouch | AtPut | AtEnsure | AtPutFresh | AtUpstream | AtPutElevated => true
       case AtCheck => !r.handler.Logout? && Matches(book, r)
       case _ => false
  }

  ghost predicate SomeoneCanPut(s: State, id: Id) {
    exists rid :: rid in s.reqs && s.reqs[rid].cookie == id && CanStillPut(s.book, s.reqs[rid])
  }

  // ---- nobody left: never again ---------------------------------------------------------

  lemma PutsStayOut(cfg: Config, s: State, rid: Rid, r: Req, o: Outcome)
    requires Inv(s) && rid in s.reqs && r == s.reqs[rid] && InFlight(r) && ReqFits(s.heap, r) && !CanStillPut(s.book, r)
    ensures !CanStillPut(s.book, r.(phase := NextPhase(s, r, o)))
  {
    assert SessionOk(s.book, s.heap[r.hold.value.ref]);
  }

  lemma NobodyAdvances(cfg: Config, s: State, rid: Rid, o: Outcome, t: State, id: Id)
    requires Inv(s) && Enabled(cfg, s, Advance(rid, o)) && t == Next(cfg, s, Advance(rid, o))
    requires id in s.book.csrfOf && !IsLive(s, id) && !SomeoneCanPut(s, id)
    ensures id in t.book.csrfOf && !SomeoneCanPut(t, id)
  {
    var r := s.reqs[rid];
    assert ReqFits(s.heap, r) && (r.cookie == id ==> !CanStillPut(s.book, r));
    if !r.phase.AtGet? {
      TouchesFrame(cfg, s, rid, o);
      if r.cookie == id && InFlight(r) { PutsStayOut(cfg, s, rid, r, o); }
    }
    OthersStay(s, t, rid, id);
  }

  lemma NobodyComes(cfg: Config, s: State, a: Action, t: State, id: Id)
    requires Inv(s) && Enabled(cfg, s, a) && t == Next(cfg, s, a)
    requires id in s.book.csrfOf && !IsLive(s, id) && !SomeoneCanPut(s, id)
    ensures id in t.book.csrfOf && !IsLive(t, id) && !SomeoneCanPut(t, id)
  {
    OnlyTheseReviveASession(cfg, s, a, id);
    match a {
      case Advance(rid, o) =>
        assert ReqFits(s.heap, s.reqs[rid]) && (s.reqs[rid].cookie == id ==> !CanStillPut(s.book, s.reqs[rid]));
        NobodyAdvances(cfg, s, rid, o, t, id);
      case Detach(rid, task) => assert s.reqs[rid].cookie == id ==> !CanStillPut(s.book, s.reqs[rid]);
      case Mint(i, _, _) => OthersMint(s, t, id, i);
      case _ =>
    }
  }

  lemma OthersStay(s: State, t: State, rid: Rid, id: Id)
    requires !SomeoneCanPut(s, id) && rid in s.reqs && rid in t.reqs && t.reqs.Keys == s.reqs.Keys
    requires t.book.csrfOf == s.book.csrfOf && forall i | i in s.reqs && i != rid :: t.reqs[i] == s.reqs[i]
    requires t.reqs[rid].cookie == id ==> !CanStillPut(s.book, t.reqs[rid])
    ensures !SomeoneCanPut(t, id)
  {
    forall i | i in t.reqs && t.reqs[i].cookie == id ensures !CanStillPut(t.book, t.reqs[i]) {
      assert i != rid ==> !CanStillPut(s.book, s.reqs[i]);
    }
  }

  lemma OthersMint(s: State, t: State, id: Id, other: Id)
    requires !SomeoneCanPut(s, id) && t.reqs == s.reqs && id in s.book.csrfOf && other !in s.book.csrfOf
    requires id in t.book.csrfOf && t.book.csrfOf[id] == s.book.csrfOf[id]
    ensures !SomeoneCanPut(t, id)
  {
    forall i | i in t.reqs && t.reqs[i].cookie == id ensures !CanStillPut(t.book, t.reqs[i]) {
      assert !CanStillPut(s.book, s.reqs[i]);
    }
  }

  lemma {:induction false} NeverAgain(cfg: Config, s: State, run: seq<Action>, t: State, id: Id)
    requires Inv(s) && Leads(cfg, ANY_RUN, s, run, t)
    requires id in s.book.csrfOf && !IsLive(s, id) && !SomeoneCanPut(s, id)
    ensures !IsLive(t, id)
    decreases |run|
  {
    if run != [] {
      var u := Next(cfg, s, run[0]);
      NextKeeps(cfg, s, run[0]);
      NobodyComes(cfg, s, run[0], u, id);
      NeverAgain(cfg, u, run[1..], t, id);
    }
  }

  // ---- somebody left: once the tombstone is swept -----------------------------------------

  lemma Prepend(cfg: Config, s: State, a: Action, run: seq<Action>, t: State)
    requires WellFormed(s) && Enabled(cfg, s, a) && Leads(cfg, ANY_RUN, Next(cfg, s, a), run, t)
    ensures Leads(cfg, ANY_RUN, s, [a] + run, t)
  {
    assert ([a] + run)[1..] == run;
  }

  /** The way to a put that is left. */
  function Left(phase: Phase): nat {
    match phase
    case AtPut | AtPutFresh | AtPutElevated => 0
    case AtTouch | AtEnsure | AtUpstream => 1
    case _ => 2
  }

  function Onward(phase: Phase): Outcome {
    match phase
    case AtEnsure => NewToken("t")
    case AtUpstream => Reply(200, true, "t", 1)
    case _ => Done
  }

  lemma OneOn(cfg: Config, s: State, rid: Rid, r: Req, t: State)
    requires Inv(s) && rid in s.reqs && r == s.reqs[rid] && ReqFits(s.heap, r) && r.cookie in s.book.issued
    requires CanStillPut(s.book, r) && Left(r.phase) > 0 && t == Next(cfg, s, Advance(rid, Onward(r.phase)))
    ensures rid in t.reqs && t.reqs[rid].cookie == r.cookie && t.rows == s.rows && t.book.csrfOf == s.book.csrfOf
    ensures CanStillPut(t.book, t.reqs[rid]) && Left(t.reqs[rid].phase) < Left(r.phase)
  {
    assert SessionOk(s.book, s.heap[r.hold.value.ref]);
  }

  lemma PutRevives(cfg: Config, s: State, rid: Rid, r: Req, t: State)
    requires Inv(s) && rid in s.reqs && r == s.reqs[rid] && InFlight(r) && ReqFits(s.heap, r)
             && r.cookie in s.book.issued
    requires Left(r.phase) == 0 && r.cookie !in s.rows && t == Next(cfg, s, Advance(rid, Done))
    ensures IsLive(t, r.cookie)
  {
  }

  lemma {:induction false} PutsAgain(cfg: Config, s: State, rid: Rid, n: nat) returns (run: seq<Action>, t: State)
    requires Inv(s) && rid in s.reqs && CanStillPut(s.book, s.reqs[rid]) && s.reqs[rid].cookie !in s.rows
    requires n == Left(s.reqs[rid].phase)
    ensures Leads(cfg, ANY_RUN, s, run, t) && IsLive(t, s.reqs[rid].cookie)
    decreases n
  {
    var r := s.reqs[rid];
    assert ReqFits(s.heap, r);
    var a := Advance(rid, Onward(r.phase));
    var u := Next(cfg, s, a);
    if n == 0 {
      run, t := [], u;
      PutRevives(cfg, s, rid, r, u);
      assert Leads(cfg, ANY_RUN, u, run, t);
    } else {
      OneOn(cfg, s, rid, r, u);
      NextKeeps(cfg, s, a);
      run, t := PutsAgain(cfg, u, rid, Left(u.reqs[rid].phase));
    }
    Prepend(cfg, s, a, run, t);
    run := [a] + run;
  }

  lemma TombstoneGoes(cfg: Config, s: State, id: Id) returns (a: Action, b: Action, u: State, v: State)
    requires Inv(s) && !IsLive(s, id)
    ensures Enabled(cfg, s, a) && u == Next(cfg, s, a) && Inv(u) && Enabled(cfg, u, b) && v == Next(cfg, u, b) && Inv(v)
    ensures id !in v.rows && v.reqs == s.reqs && v.book == s.book
  {
    var late := if id in s.rows then s.rows[id].at + cfg.tombstoneTTL + 1 else s.clock;
    a, b := Tick(if late > s.clock then late else s.clock), Sweep({});
    u := Next(cfg, s, a);
    NextKeeps(cfg, s, a);
    v := Next(cfg, u, b);
    NextKeeps(cfg, u, b);
  }

  lemma ComesBack(cfg: Config, s: State, id: Id, rid: Rid) returns (run: seq<Action>, t: State)
    requires Inv(s) && !IsLive(s, id) && rid in s.reqs && s.reqs[rid].cookie == id && CanStillPut(s.book, s.reqs[rid])
    ensures Leads(cfg, ANY_RUN, s, run, t) && IsLive(t, id)
  {
    var a, b, u, v := TombstoneGoes(cfg, s, id);
    run, t := PutsAgain(cfg, v, rid, Left(v.reqs[rid].phase));
    Prepend(cfg, u, b, run, t);
    Prepend(cfg, s, a, [b] + run, t);
    run := [a] + ([b] + run);
  }

  ghost predicate Revived(cfg: Config, s: State, run: seq<Action>, t: State, id: Id) {
    Leads(cfg, ANY_RUN, s, run, t) && IsLive(t, id)
  }

  /** From any reachable state, a session that was minted and is dead can come to life again, in
      some run, exactly when a request in flight holds it and can still get to a write-back. */
  lemma DeadSessionsReturnExactlyIf(cfg: Config, acts: seq<Action>, s: State, id: Id)
    requires Leads(cfg, ANY_RUN, INIT, acts, s) && id in s.book.csrfOf && !IsLive(s, id)
    ensures (exists run, t :: Revived(cfg, s, run, t, id)) <==> SomeoneCanPut(s, id)
  {
    RunKeeps(cfg, ANY_RUN, INIT, acts, s);
    if SomeoneCanPut(s, id) {
      var rid :| rid in s.reqs && s.reqs[rid].cookie == id && CanStillPut(s.book, s.reqs[rid]);
      var run, t := ComesBack(cfg, s, id, rid);
      assert Revived(cfg, s, run, t, id);
    } else {
      forall run, t ensures !Revived(cfg, s, run, t, id) {
        if Leads(cfg, ANY_RUN, s, run, t) { NeverAgain(cfg, s, run, t, id); }
      }
    }
  }
}
