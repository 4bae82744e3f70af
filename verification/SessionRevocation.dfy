/** Which access token a logout revokes.  Revoking and deleting are separate steps, and on the
    rehydrating store the logout works on its own copy. */
module SessionRevocation {
  import opened Options
  import opened SessionProtocol
  import opened SessionSafety
  import opened SessionTheorems
  import opened SessionSharing
  import opened SessionAnswers
  import opened SessionOrder
  import opened SessionRows

  // ---- the record of revocations ----------------------------------------------------------

  function RevokedAfter(s: State, a: Action): map<Rid, Revocation> {
    if a.Advance? && a.rid in s.reqs && s.reqs[a.rid].phase.AtRevoke? && s.reqs[a.rid].hold.Some?
       && s.reqs[a.rid].hold.value.ref in s.heap && s.reqs[a.rid].cookie in s.book.issued
    then
      var r := s.reqs[a.rid];
      s.book.revoked[a.rid := Revocation(s.heap[r.hold.value.ref].access, |s.book.issued[r.cookie]|)]
    else s.book.revoked
  }

  lemma TouchRecords(cfg: Config, s: State, rid: Rid, r: Req, o: Outcome, u: State)
    requires rid in s.reqs && r == s.reqs[rid] && r.hold.Some? && ReqFits(s.heap, r) && r.cookie in s.book.issued
    requires u == Touches(cfg, s, rid, o)
    ensures u.book.revoked == RevokedAfter(s, Advance(rid, o))
  {
    if AtAnyPut(r) {
      PutTouch(cfg, s, rid, r, o, u);
    } else if AtAnyDelete(r) {
      DeleteTouch(cfg, s, rid, r, o, u);
    } else if Gives(s, rid, o) {
      GivingTouch(cfg, s, rid, r, o, u);
    } else if r.phase.AtRevoke? {
      RevokingTouch(cfg, s, rid, r, o, u);
    } else {
      QuietTouch(cfg, s, rid, r, o, u);
    }
  }

  lemma StepRecords(cfg: Config, s: State, a: Action, t: State)
    requires WellFormed(s) && Enabled(cfg, s, a) && t == Next(cfg, s, a)
    ensures t.book.revoked == RevokedAfter(s, a)
  {
    if a.Advance? {
      assert ReqFits(s.heap, s.reqs[a.rid]);
      if !s.reqs[a.rid].phase.AtGet? {
        TouchRecords(cfg, s, a.rid, s.reqs[a.rid], a.outcome, Touches(cfg, s, a.rid, a.outcome));
      }
    }
  }

  /** A request that holds a session keeps its hold. */
  ghost predicate HoldsStay(s: State, t: State) {
    forall rid | rid in s.reqs && s.reqs[rid].hold.Some? ::
      rid in t.reqs && t.reqs[rid].hold == s.reqs[rid].hold && t.reqs[rid].cookie == s.reqs[rid].cookie
  }

  lemma StepKeepsHolds(cfg: Config, s: State, a: Action, t: State)
    requires WellFormed(s) && Enabled(cfg, s, a) && t == Next(cfg, s, a)
    ensures HoldsStay(s, t)
  {
    if a.Advance? {
      assert ReqFits(s.heap, s.reqs[a.rid]);
      if !s.reqs[a.rid].phase.AtGet? { TouchesFrame(cfg, s, a.rid, a.outcome); }
    }
  }

  /** Every revocation in the history of deeds is on record. */
  ghost predicate AllOnRecord(s: State) {
    forall e | e in s.book.effects && e.deed.RevokedTokens? :: e.rid in s.book.revoked
  }

  lemma StepOnRecord(cfg: Config, s: State, a: Action, t: State)
    requires Inv(s) && Enabled(cfg, s, a) && t == Next(cfg, s, a) && AllOnRecord(s)
    ensures AllOnRecord(t)
  {
    StepRecords(cfg, s, a, t);
    if a.Advance? {
      assert ReqFits(s.heap, s.reqs[a.rid]);
      if !s.reqs[a.rid].phase.AtGet? { TouchesRecords(cfg, s, a.rid, a.outcome); }
    }
  }

  // ---- the memory store -----------------------------------------------------------------------

  /** The token revoked was the session's latest. */
  predicate RevokedLatest(issued: seq<string>, rev: Revocation) {
    1 <= rev.given <= |issued| && rev.token == issued[rev.given - 1]
  }

  ghost predicate MemoryOk(s: State) {
    forall rid | rid in s.book.revoked ::
      && rid in s.reqs && s.reqs[rid].hold.Some? && s.reqs[rid].cookie in s.book.issued
      && RevokedLatest(s.book.issued[s.reqs[rid].cookie], s.book.revoked[rid])
  }

  lemma RevokedStays(issued: seq<string>, issued': seq<string>, rev: Revocation)
    requires RevokedLatest(issued, rev) && issued <= issued'
    ensures RevokedLatest(issued', rev)
  {
  }

  lemma RevokesLatest(s: State, rid: Rid)
    requires WellFormed(s) && SharedInv(s) && rid in s.reqs && s.reqs[rid].hold.Some?
    ensures s.reqs[rid].hold.value.ref in s.heap && s.reqs[rid].cookie in s.book.issued
    ensures var issued := s.book.issued[s.reqs[rid].cookie];
            RevokedLatest(issued, Revocation(s.heap[s.reqs[rid].hold.value.ref].access, |issued|))
  {
    assert ReqFits(s.heap, s.reqs[rid]) && LatestIn(s.book, s.heap[s.reqs[rid].hold.value.ref]);
  }

  lemma MemoryStep(cfg: Config, s: State, a: Action, t: State)
    requires Inv(s) && SharedInv(s) && MemoryOk(s) && Enabled(cfg, s, a) && t == Next(cfg, s, a)
    ensures MemoryOk(t)
  {
    StepRecords(cfg, s, a, t);
    StepKeepsHolds(cfg, s, a, t);
    TokensGrow(cfg, s, a, t);
    forall rid | rid in t.book.revoked
      ensures rid in t.reqs && t.reqs[rid].hold.Some? && t.reqs[rid].cookie in t.book.issued
      ensures RevokedLatest(t.book.issued[t.reqs[rid].cookie], t.book.revoked[rid])
    {
      var id := s.reqs[rid].cookie;
      if a.Advance? && a.rid == rid && s.reqs[rid].phase.AtRevoke? {
        assert ReqFits(s.heap, s.reqs[rid]);
        RevokesLatest(s, rid);
      } else {
        assert t.book.revoked[rid] == s.book.revoked[rid];
      }
      RevokedStays(s.book.issued[id], t.book.issued[id], t.book.revoked[rid]);
    }
  }

  lemma {:induction false} MemoryRun(cfg: Config, d: Discipline, s: State, acts: seq<Action>, t: State)
    requires cfg.kind.Memory? && Inv(s) && SharedInv(s) && MemoryOk(s) && AllOnRecord(s) && Leads(cfg, d, s, acts, t)
    ensures MemoryOk(t) && AllOnRecord(t)
    decreases |acts|
  {
    if acts != [] {
      var u := Next(cfg, s, acts[0]);
      NextKeeps(cfg, s, acts[0]);
      NextKeepsShared(cfg, s, acts[0]);
      MemoryStep(cfg, s, acts[0], u);
      StepOnRecord(cfg, s, acts[0], u);
      MemoryRun(cfg, d, u, acts[1..], t);
    }
  }

  /** A finished logout of a session that it resolved. */
  predicate Finished(s: State, rid: Rid) {
    && rid in s.reqs && s.reqs[rid].handler.Logout? && s.reqs[rid].hold.Some?
    && (s.reqs[rid].phase == Answered(204) || s.reqs[rid].phase == Answered(500))
  }

  /** On the memory store the token that a finished logout revoked is the session's last exactly if
      the session was given none after the revocation. */
  lemma MemoryLogoutRevokesTheLast(cfg: Config, acts: seq<Action>, s: State, rid: Rid)
    requires cfg.kind.Memory? && Leads(cfg, ANY_RUN, INIT, acts, s) && Finished(s, rid)
    requires s.reqs[rid].cookie in s.book.issued && Distinct(s.book.issued[s.reqs[rid].cookie])
    ensures rid in s.book.revoked && s.book.issued[s.reqs[rid].cookie] != []
    ensures s.book.revoked[rid].token == Last(s.book.issued[s.reqs[rid].cookie])
            <==> s.book.revoked[rid].given == |s.book.issued[s.reqs[rid].cookie]|
  {
    MemoryRun(cfg, ANY_RUN, INIT, acts, s);
    LogoutRevokesFirst(cfg, acts, s, rid);
  }

  // ---- the rehydrating store ------------------------------------------------------------------

  /** The copy's history up to the revocation. */
  ghost predicate RevokedCopy(issued: seq<string>, givenTo: seq<Ref>, ref: Ref, rev: Revocation, read: Read) {
    && rev.given <= |issued| == |givenTo|
    && HistoryOk(issued[..rev.given], givenTo[..rev.given], ref, rev.token, read)
  }

  ghost predicate DurableOk(s: State, tr: Track) {
    forall rid | rid in s.book.revoked ::
      && rid in s.reqs && s.reqs[rid].hold.Some? && rid in tr.seen
      && s.reqs[rid].cookie in s.book.issued && s.reqs[rid].cookie in tr.givenTo
      && RevokedCopy(s.book.issued[s.reqs[rid].cookie], tr.givenTo[s.reqs[rid].cookie],
                     s.reqs[rid].hold.value.ref, s.book.revoked[rid], tr.seen[rid])
  }

  lemma TrackGrows(cfg: Config, s: State, tr: Track, a: Action)
    requires Inv(s) && TrackOk(s, tr) && Enabled(cfg, s, a)
    ensures var tr' := TrackStep(s, tr, a);
            && (forall id | id in tr.givenTo :: id in tr'.givenTo && tr.givenTo[id] <= tr'.givenTo[id])
            && (forall rid | rid in s.reqs && s.reqs[rid].hold.Some? && rid in tr.seen ::
                  rid in tr'.seen && tr'.seen[rid] == tr.seen[rid])
  {
    if a.Advance? { assert ReqFits(s.heap, s.reqs[a.rid]); }
  }

  lemma CopyRevoked(s: State, tr: Track, rid: Rid)
    requires Inv(s) && TrackOk(s, tr) && rid in s.reqs && s.reqs[rid].hold.Some?
    ensures rid in tr.seen && s.reqs[rid].cookie in s.book.issued && s.reqs[rid].cookie in tr.givenTo
    ensures s.reqs[rid].hold.value.ref in s.heap
    ensures var issued, ref := s.book.issued[s.reqs[rid].cookie], s.reqs[rid].hold.value.ref;
            RevokedCopy(issued, tr.givenTo[s.reqs[rid].cookie], ref,
                        Revocation(s.heap[ref].access, |issued|), tr.seen[rid])
  {
    assert ReqHistory(s.book.issued, tr, s.heap, rid, s.reqs[rid]);
    var issued, givenTo := s.book.issued[s.reqs[rid].cookie], tr.givenTo[s.reqs[rid].cookie];
    assert issued[..|issued|] == issued && givenTo[..|issued|] == givenTo;
  }

  lemma CopyStays(issued: seq<string>, issued': seq<string>, givenTo: seq<Ref>, givenTo': seq<Ref>,
                  ref: Ref, rev: Revocation, read: Read)
    requires RevokedCopy(issued, givenTo, ref, rev, read)
    requires issued <= issued' && givenTo <= givenTo' && |issued'| == |givenTo'|
    ensures RevokedCopy(issued', givenTo', ref, rev, read)
  {
    assert issued'[..rev.given] == issued[..rev.given] && givenTo'[..rev.given] == givenTo[..rev.given];
  }

  lemma DurableStep(cfg: Config, s: State, tr: Track, a: Action, t: State, tr': Track)
    requires cfg.kind.Durable? && Inv(s) && TrackOk(s, tr) && DurableOk(s, tr) && Enabled(cfg, s, a)
    requires t == Next(cfg, s, a) && tr' == TrackStep(s, tr, a) && TrackOk(t, tr')
    ensures DurableOk(t, tr')
  {
    StepRecords(cfg, s, a, t);
    StepKeepsHolds(cfg, s, a, t);
    TokensGrow(cfg, s, a, t);
    TrackGrows(cfg, s, tr, a);
    forall rid | rid in t.book.revoked
      ensures rid in t.reqs && t.reqs[rid].hold.Some? && rid in tr'.seen
      ensures t.reqs[rid].cookie in t.book.issued && t.reqs[rid].cookie in tr'.givenTo
      ensures RevokedCopy(t.book.issued[t.reqs[rid].cookie], tr'.givenTo[t.reqs[rid].cookie],
                          t.reqs[rid].hold.value.ref, t.book.revoked[rid], tr'.seen[rid])
    {
      var r := s.reqs[rid];
      if a.Advance? && a.rid == rid && r.phase.AtRevoke? {
        assert ReqFits(s.heap, r);
        CopyRevoked(s, tr, rid);
      } else {
        assert t.book.revoked[rid] == s.book.revoked[rid];
      }
      assert GivenOk(t.nextRef, t.book.issued[r.cookie], tr'.givenTo[r.cookie]);
      CopyStays(s.book.issued[r.cookie], t.book.issued[r.cookie], tr.givenTo[r.cookie], tr'.givenTo[r.cookie],
                r.hold.value.ref, t.book.revoked[rid], tr.seen[rid]);
    }
  }

  lemma {:induction false} DurableRun(cfg: Config, d: Discipline, s: State, tr: Track, acts: seq<Action>, t: State)
    requires cfg.kind.Durable? && Inv(s) && TrackOk(s, tr) && DurableOk(s, tr) && AllOnRecord(s)
    requires Leads(cfg, d, s, acts, t)
    ensures DurableOk(t, TrackRun(cfg, s, tr, acts)) && AllOnRecord(t)
    decreases |acts|
  {
    if acts != [] {
      var a := acts[0];
      var u, tr' := Next(cfg, s, a), TrackStep(s, tr, a);
      NextKeeps(cfg, s, a);
      NextTracks(cfg, s, tr, a, u);
      DurableStep(cfg, s, tr, a, u, tr');
      StepOnRecord(cfg, s, a, u);
      DurableRun(cfg, d, u, tr', acts[1..], t);
    }
  }

  /** On the rehydrating store it is the session's last exactly if the logout's copy was in order at
      the revocation and the session was given no token after it. */
  lemma DurableLogoutRevokesTheLast(cfg: Config, acts: seq<Action>, s: State, tr: Track, rid: Rid)
    requires cfg.kind.Durable? && Leads(cfg, ANY_RUN, INIT, acts, s) && tr == TrackRun(cfg, INIT, UNTRACKED, acts)
    requires Finished(s, rid)
    requires s.reqs[rid].cookie in s.book.issued && Distinct(s.book.issued[s.reqs[rid].cookie])
    ensures rid in s.book.revoked && rid in tr.seen && s.reqs[rid].cookie in tr.givenTo
    ensures var issued, givenTo := s.book.issued[s.reqs[rid].cookie], tr.givenTo[s.reqs[rid].cookie];
            var rev, ref := s.book.revoked[rid], s.reqs[rid].hold.value.ref;
            && issued != [] && rev.given <= |issued| == |givenTo|
            && (rev.token == Last(issued)
                <==> rev.given == |issued| && InOrder(issued[..rev.given], givenTo[..rev.given], ref, tr.seen[rid]))
  {
    DurableRun(cfg, ANY_RUN, INIT, UNTRACKED, acts, s);
    LogoutRevokesFirst(cfg, acts, s, rid);
    var id := s.reqs[rid].cookie;
    RevokedIsLast(s.book.issued[id], tr.givenTo[id], s.reqs[rid].hold.value.ref, s.book.revoked[rid], tr.seen[rid]);
  }

  lemma RevokedIsLast(issued: seq<string>, givenTo: seq<Ref>, ref: Ref, rev: Revocation, read: Read)
    requires RevokedCopy(issued, givenTo, ref, rev, read) && Distinct(issued)
    ensures issued != []
    ensures rev.token == Last(issued)
            <==> rev.given == |issued| && InOrder(issued[..rev.given], givenTo[..rev.given], ref, read)
  {
    var before := issued[..rev.given];
    HoldsTheLatest(before, givenTo[..rev.given], ref, rev.token, read);
    var k := HeldFrom(before, givenTo[..rev.given], ref, read.token);
    assert rev.token in before;
    var i :| 0 <= i < |before| && before[i] == rev.token;
    assert issued[i] == rev.token;
  }
}
