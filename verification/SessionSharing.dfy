/** The memory store: one object per session, so everybody sees the latest token. */
module SessionSharing {
  import opened Options
  import opened SessionProtocol
  import opened SessionSafety
  import opened SessionTheorems

  function Last(tokens: seq<string>): string
    requires tokens != []
  {
    tokens[|tokens| - 1]
  }

  predicate LatestIn(book: Book, session: Session) {
    session.id in book.issued && book.issued[session.id] != [] && session.access == Last(book.issued[session.id])
  }

  ghost predicate SharedInv(s: State) {
    && (forall r1, r2 | r1 in s.heap && r2 in s.heap && s.heap[r1].id == s.heap[r2].id :: r1 == r2)
    && (forall ref | ref in s.heap :: LatestIn(s.book, s.heap[ref]))
    && (forall id | id in s.rows :: !s.rows[id].Snapshot?)
  }

  lemma SetTokensKeepsShared(s: State, rid: Rid, ref: Ref, access: string, deed: Deed)
    requires SharedInv(s) && ref in s.heap && s.heap[ref].id in s.book.issued
    ensures SharedInv(SetTokens(s, rid, ref, access, deed))
  {
    var t := SetTokens(s, rid, ref, access, deed);
    forall r | r in t.heap ensures LatestIn(t.book, t.heap[r]) {
      assert LatestIn(s.book, s.heap[r]);
    }
  }

  lemma PutKeepsShared(cfg: Config, s: State, ref: Ref, o: Outcome)
    requires cfg.kind.Memory? && SharedInv(s) && ref in s.heap
    ensures SharedInv(Put(cfg, s, ref, o))
  {
  }

  lemma DeleteKeepsShared(s: State, rid: Rid, id: Id, deed: Deed, o: Outcome)
    requires SharedInv(s)
    ensures SharedInv(Delete(s, rid, id, deed, o))
  {
    var t := Delete(s, rid, id, deed, o);
    forall r | r in t.heap ensures LatestIn(t.book, t.heap[r]) {
      assert LatestIn(s.book, s.heap[r]);
    }
  }

  lemma TouchesKeepsShared(cfg: Config, s: State, rid: Rid, r: Req, o: Outcome, u: State)
    requires cfg.kind.Memory? && SharedInv(s)
    requires rid in s.reqs && r == s.reqs[rid] && r.hold.Some? && ReqFits(s.heap, r) && r.cookie in s.book.issued
    requires u == Touches(cfg, s, rid, o)
    ensures SharedInv(u)
  {
    var ref := r.hold.value.ref;
    if AtAnyPut(r) {
      PutTouch(cfg, s, rid, r, o, u);
      PutKeepsShared(cfg, s, ref, o);
    } else if AtAnyDelete(r) {
      DeleteTouch(cfg, s, rid, r, o, u);
      DeleteKeepsShared(s, rid, r.cookie, DeleteDeed(r), o);
    } else if Gives(s, rid, o) {
      GivingTouch(cfg, s, rid, r, o, u);
      SetTokensKeepsShared(s, rid, ref, Given(o), if r.phase.AtEnsure? then Refreshed else SteppedUp);
    } else {
      QuietKeepsShared(cfg, s, rid, r, o, u);
    }
  }

  lemma QuietKeepsShared(cfg: Config, s: State, rid: Rid, r: Req, o: Outcome, u: State)
    requires SharedInv(s) && !AtAnyPut(r) && !AtAnyDelete(r) && !Gives(s, rid, o)
    requires rid in s.reqs && r == s.reqs[rid] && r.hold.Some? && ReqFits(s.heap, r) && r.cookie in s.book.issued
    requires u == Touches(cfg, s, rid, o)
    ensures SharedInv(u)
  {
    if r.phase.AtRevoke? { RevokingTouch(cfg, s, rid, r, o, u); } else { QuietTouch(cfg, s, rid, r, o, u); }
    forall ref | ref in u.heap ensures LatestIn(u.book, u.heap[ref]) {
      assert LatestIn(s.book, s.heap[ref]);
    }
  }

  lemma NextKeepsShared(cfg: Config, s: State, a: Action)
    requires cfg.kind.Memory? && WellFormed(s) && SharedInv(s) && Enabled(cfg, s, a)
    ensures SharedInv(Next(cfg, s, a))
  {
    match a {
      case Advance(rid, o) =>
        assert ReqFits(s.heap, s.reqs[rid]);
        if !s.reqs[rid].phase.AtGet? { TouchesKeepsShared(cfg, s, rid, s.reqs[rid], o, Touches(cfg, s, rid, o)); }
      case Mint(id, csrf, access) => MintKeepsShared(cfg, s, id, csrf, access);
      case _ =>
    }
  }

  lemma MintKeepsShared(cfg: Config, s: State, id: Id, csrf: string, access: string)
    requires cfg.kind.Memory? && WellFormed(s) && SharedInv(s) && id !in s.book.csrfOf
    ensures SharedInv(MintSession(cfg, s, id, csrf, access))
  {
    var t := MintSession(cfg, s, id, csrf, access);
    forall r | r in s.heap ensures s.heap[r].id != id && LatestIn(t.book, t.heap[r]) {
      assert LatestIn(s.book, s.heap[r]);
    }
  }

  lemma RunKeepsShared(cfg: Config, d: Discipline, s: State, acts: seq<Action>, t: State)
    requires cfg.kind.Memory? && SharedInv(s) && Leads(cfg, d, s, acts, t)
    ensures SharedInv(t)
    decreases |acts|
  {
    if acts != [] {
      NextKeepsShared(cfg, s, acts[0]);
      RunKeepsShared(cfg, d, Next(cfg, s, acts[0]), acts[1..], t);
    }
  }

  /** On the memory store every live session always serves the last token it was given: no
      interleaving undoes a refresh or a step-up. */
  lemma MemoryServesTheLatestToken(cfg: Config, acts: seq<Action>, s: State, id: Id)
    requires cfg.kind.Memory? && Leads(cfg, ANY_RUN, INIT, acts, s) && IsLive(s, id)
    ensures WellFormed(s) && id in s.book.issued && s.book.issued[id] != []
    ensures Served(s, id).access == Last(s.book.issued[id])
  {
    RunKeeps(cfg, ANY_RUN, INIT, acts, s);
    RunKeepsShared(cfg, ANY_RUN, INIT, acts, s);
    assert RowFits(s.heap, s.book, id, s.rows[id]);
    assert LatestIn(s.book, s.heap[s.rows[id].ref]);
  }
}
