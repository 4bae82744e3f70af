/** What can change the token that a live session serves. */
module SessionTokens {
  import opened Options
  import opened SessionProtocol
  import opened SessionSafety
  import opened SessionTheorems
  import opened SessionSharing
  import opened SessionOrder

  lemma SharedPut(cfg: Config, s: State, rid: Rid, r: Req, o: Outcome, u: State, id: Id)
    requires cfg.kind.Memory? && AtAnyPut(r) && SharedInv(s)
    requires rid in s.reqs && r == s.reqs[rid] && r.hold.Some? && ReqFits(s.heap, r) && r.cookie in s.book.issued
    requires u == Touches(cfg, s, rid, o)
    requires id in s.rows && s.rows[id].Pointer? && s.rows[id].ref in s.heap && s.heap[s.rows[id].ref].id == id
    ensures u.heap == s.heap && id in u.rows && u.rows[id] == s.rows[id]
  {
    PutTouch(cfg, s, rid, r, o, u);
  }

  lemma DeleteFrame(cfg: Config, s: State, rid: Rid, r: Req, o: Outcome, u: State, id: Id)
    requires AtAnyDelete(r)
    requires rid in s.reqs && r == s.reqs[rid] && r.hold.Some? && ReqFits(s.heap, r) && r.cookie in s.book.issued
    requires u == Touches(cfg, s, rid, o)
    requires id in s.rows && id in u.rows && !u.rows[id].Tombstone?
    ensures u.heap == s.heap && u.rows[id] == s.rows[id]
  {
    DeleteTouch(cfg, s, rid, r, o, u);
  }

  lemma SharedGive(cfg: Config, s: State, rid: Rid, r: Req, o: Outcome, u: State, id: Id)
    requires Gives(s, rid, o) && SharedInv(s)
    requires rid in s.reqs && r == s.reqs[rid] && r.hold.Some? && ReqFits(s.heap, r) && r.cookie in s.book.issued
    requires u == Touches(cfg, s, rid, o)
    requires id in s.rows && s.rows[id].Pointer? && s.rows[id].ref in s.heap && s.heap[s.rows[id].ref].id == id
    ensures u.rows == s.rows && s.rows[id].ref in u.heap
    ensures u.heap[s.rows[id].ref].access == if r.cookie == id then Given(o) else s.heap[s.rows[id].ref].access
  {
    GivingTouch(cfg, s, rid, r, o, u);
  }

  lemma SharedTouch(cfg: Config, s: State, rid: Rid, r: Req, o: Outcome, u: State, id: Id)
    requires cfg.kind.Memory? && SharedInv(s)
    requires rid in s.reqs && r == s.reqs[rid] && r.hold.Some? && ReqFits(s.heap, r) && r.cookie in s.book.issued
    requires u == Touches(cfg, s, rid, o)
    requires id in s.rows && s.rows[id].Pointer? && s.rows[id].ref in s.heap && s.heap[s.rows[id].ref].id == id
    requires id in u.rows && !u.rows[id].Tombstone?
    ensures u.rows[id] == s.rows[id] && s.rows[id].ref in u.heap
    ensures u.heap[s.rows[id].ref].access
            == if Gives(s, rid, o) && r.cookie == id then Given(o) else s.heap[s.rows[id].ref].access
  {
    if AtAnyPut(r) {
      SharedPut(cfg, s, rid, r, o, u, id);
    } else if AtAnyDelete(r) {
      DeleteFrame(cfg, s, rid, r, o, u, id);
    } else if Gives(s, rid, o) {
      SharedGive(cfg, s, rid, r, o, u, id);
    } else if r.phase.AtRevoke? {
      RevokingTouch(cfg, s, rid, r, o, u);
    } else {
      QuietTouch(cfg, s, rid, r, o, u);
    }
  }

  lemma GiveLeavesRows(cfg: Config, s: State, rid: Rid, r: Req, o: Outcome, u: State)
    requires Gives(s, rid, o)
    requires rid in s.reqs && r == s.reqs[rid] && r.hold.Some? && ReqFits(s.heap, r) && r.cookie in s.book.issued
    requires u == Touches(cfg, s, rid, o)
    ensures u.rows == s.rows
  {
    GivingTouch(cfg, s, rid, r, o, u);
  }

  lemma CopyPut(cfg: Config, s: State, rid: Rid, r: Req, o: Outcome, u: State, id: Id)
    requires cfg.kind.Durable? && AtAnyPut(r)
    requires rid in s.reqs && r == s.reqs[rid] && r.hold.Some? && ReqFits(s.heap, r) && r.cookie in s.book.issued
    requires u == Touches(cfg, s, rid, o)
    requires id in s.rows && s.rows[id].Snapshot?
    ensures id in u.rows && u.rows[id].Snapshot?
    ensures u.rows[id].session == if r.cookie == id && !o.Failed? then s.heap[r.hold.value.ref] else s.rows[id].session
  {
    PutTouch(cfg, s, rid, r, o, u);
  }

  lemma CopyTouch(cfg: Config, s: State, rid: Rid, r: Req, o: Outcome, u: State, id: Id)
    requires cfg.kind.Durable?
    requires rid in s.reqs && r == s.reqs[rid] && r.hold.Some? && ReqFits(s.heap, r) && r.cookie in s.book.issued
    requires u == Touches(cfg, s, rid, o)
    requires id in s.rows && s.rows[id].Snapshot? && id in u.rows && !u.rows[id].Tombstone?
    ensures u.rows[id].Snapshot?
    ensures u.rows[id].session
            == if AtAnyPut(r) && !o.Failed? && r.cookie == id then s.heap[r.hold.value.ref] else s.rows[id].session
  {
    if AtAnyPut(r) {
      CopyPut(cfg, s, rid, r, o, u, id);
    } else if AtAnyDelete(r) {
      DeleteFrame(cfg, s, rid, r, o, u, id);
    } else if Gives(s, rid, o) {
      GiveLeavesRows(cfg, s, rid, r, o, u);
    } else if r.phase.AtRevoke? {
      RevokingTouch(cfg, s, rid, r, o, u);
    } else {
      QuietTouch(cfg, s, rid, r, o, u);
    }
  }

  /** A step that no request takes, or that only reads, leaves the live rows and their objects. */
  lemma OtherStepsKeepRows(cfg: Config, s: State, a: Action, t: State, id: Id)
    requires WellFormed(s) && Enabled(cfg, s, a) && t == Next(cfg, s, a) && (a.Advance? ==> s.reqs[a.rid].phase.AtGet?)
    requires IsLive(s, id) && id in s.book.csrfOf && IsLive(t, id)
    ensures t.rows[id] == s.rows[id]
    ensures forall ref | ref in s.heap :: ref in t.heap && t.heap[ref] == s.heap[ref]
  {
    if a.Advance? {
      assert ReqFits(s.heap, s.reqs[a.rid]);
    }
  }

  lemma MemoryTokenStep(cfg: Config, s: State, a: Action, t: State, id: Id)
    requires cfg.kind.Memory? && Inv(s) && SharedInv(s) && Enabled(cfg, s, a) && t == Next(cfg, s, a) && WellFormed(t)
    requires IsLive(s, id) && IsLive(t, id)
    ensures Served(t, id).access
            == if a.Advance? && Gives(s, a.rid, a.outcome) && s.reqs[a.rid].cookie == id then Given(a.outcome)
               else Served(s, id).access
  {
    assert RowFits(s.heap, s.book, id, s.rows[id]);
    if a.Advance? && !s.reqs[a.rid].phase.AtGet? {
      var r := s.reqs[a.rid];
      assert ReqFits(s.heap, r);
      SharedTouch(cfg, s, a.rid, r, a.outcome, Touches(cfg, s, a.rid, a.outcome), id);
    } else {
      OtherStepsKeepRows(cfg, s, a, t, id);
    }
  }

  /** On the memory store a live session's token changes only when a request that holds it gets a
      fresh one: never on a transient refresh failure or an upstream failure. */
  lemma MemoryTokenChanges(cfg: Config, acts: seq<Action>, s: State, a: Action, t: State, id: Id)
    requires cfg.kind.Memory? && Leads(cfg, ANY_RUN, INIT, acts, s)
    requires WellFormed(s) && Enabled(cfg, s, a) && t == Next(cfg, s, a)
    requires IsLive(s, id) && IsLive(t, id)
    ensures WellFormed(t)
    ensures Served(t, id).access
            == if a.Advance? && Gives(s, a.rid, a.outcome) && s.reqs[a.rid].cookie == id then Given(a.outcome)
               else Served(s, id).access
  {
    RunKeeps(cfg, ANY_RUN, INIT, acts, s);
    NextKeeps(cfg, s, a);
    RunKeepsShared(cfg, ANY_RUN, INIT, acts, s);
    MemoryTokenStep(cfg, s, a, t, id);
  }

  /** On the rehydrating store a live session's token changes only when a request that holds it
      writes its copy back, and then to the copy's token. */
  lemma DurableTokenChanges(cfg: Config, acts: seq<Action>, s: State, a: Action, t: State, id: Id)
    requires cfg.kind.Durable? && Leads(cfg, ANY_RUN, INIT, acts, s)
    requires WellFormed(s) && Enabled(cfg, s, a) && t == Next(cfg, s, a)
    requires IsLive(s, id) && IsLive(t, id)
    ensures WellFormed(t)
    ensures var writes := a.Advance? && AtAnyPut(s.reqs[a.rid]) && !a.outcome.Failed? && s.reqs[a.rid].cookie == id;
            && (writes ==> s.reqs[a.rid].hold.Some? && s.reqs[a.rid].hold.value.ref in s.heap)
            && Served(t, id).access
               == if writes then s.heap[s.reqs[a.rid].hold.value.ref].access else Served(s, id).access
  {
    RunKeeps(cfg, ANY_RUN, INIT, acts, s);
    NextKeeps(cfg, s, a);
    RunTracks(cfg, ANY_RUN, INIT, UNTRACKED, acts, s);
    assert RowFits(s.heap, s.book, id, s.rows[id]);
    if a.Advance? && !s.reqs[a.rid].phase.AtGet? {
      var r := s.reqs[a.rid];
      assert ReqFits(s.heap, r);
      CopyTouch(cfg, s, a.rid, r, a.outcome, Touches(cfg, s, a.rid, a.outcome), id);
    } else {
      OtherStepsKeepRows(cfg, s, a, t, id);
    }
  }
}
