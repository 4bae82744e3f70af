/** The rehydrating store's rows: which write-backs leave a session serving its latest token. */
module SessionRows {
  import opened Options
  import opened SessionProtocol
  import opened SessionSafety
  import opened SessionTheorems
  import opened SessionSharing
  import opened SessionOrder

  // ---- the order of writes --------------------------------------------------------------

  /** The last statement that wrote a row: whether the writer's copy was in order, and how many
      tokens the session had been given by then. */
  datatype Wrote = Wrote(inOrder: bool, count: nat)

  predicate CopyInOrder(s: State, tr: Track, rid: Rid) {
    && rid in s.reqs && s.reqs[rid].hold.Some? && rid in tr.seen
    && var r := s.reqs[rid];
       r.cookie in s.book.issued && r.cookie in tr.givenTo &&
       InOrder(s.book.issued[r.cookie], tr.givenTo[r.cookie], r.hold.value.ref, tr.seen[rid])
  }

  predicate Entombed(s: State, id: Id) {
    id in s.rows && s.rows[id].Tombstone?
  }

  /** The step writes the row of the session that rid holds. */
  predicate Writes(s: State, rid: Rid, o: Outcome) {
    && rid in s.reqs && AtAnyPut(s.reqs[rid]) && !o.Failed?
    && !Entombed(s, s.reqs[rid].cookie) && s.reqs[rid].cookie in s.book.issued
  }

  function WriteStep(s: State, tr: Track, w: map<Id, Wrote>, a: Action): map<Id, Wrote> {
    match a
    case Mint(id, _, _) => w[id := Wrote(true, 1)]
    case Advance(rid, o) =>
      if Writes(s, rid, o) then
        var id := s.reqs[rid].cookie;
        w[id := Wrote(CopyInOrder(s, tr, rid), |s.book.issued[id]|)]
      else w
    case _ => w
  }

  /** Every row's last write along a run. */
  ghost function WriteRun(cfg: Config, s: State, tr: Track, w: map<Id, Wrote>, acts: seq<Action>): map<Id, Wrote>
    decreases |acts|
  {
    if acts == [] || !WellFormed(s) || !Enabled(cfg, s, acts[0]) then w
    else WriteRun(cfg, Next(cfg, s, acts[0]), TrackStep(s, tr, acts[0]), WriteStep(s, tr, w, acts[0]), acts[1..])
  }

  /** The last write was in order, and the session has been given no token since. */
  predicate RowInOrder(s: State, w: map<Id, Wrote>, id: Id) {
    id in w && id in s.book.issued && w[id].inOrder && w[id].count == |s.book.issued[id]|
  }

  // ---- what every step keeps --------------------------------------------------------------

  ghost predicate RowOk(issued: seq<string>, access: string, w: Wrote) {
    && 1 <= w.count <= |issued| && access in issued[..w.count]
    && (Distinct(issued) ==> (w.inOrder <==> access == issued[w.count - 1]))
  }

  ghost predicate RowsOk(s: State, w: map<Id, Wrote>) {
    forall id | id in s.rows && s.rows[id].Snapshot? ::
      id in w && id in s.book.issued && RowOk(s.book.issued[id], s.rows[id].session.access, w[id])
  }

  lemma RowGrows(issued: seq<string>, issued': seq<string>, access: string, w: Wrote)
    requires RowOk(issued, access, w) && issued <= issued'
    ensures RowOk(issued', access, w)
  {
    assert issued'[..w.count] == issued[..w.count];
    if Distinct(issued') {
      forall i, j | 0 <= i < j < |issued| ensures issued[i] != issued[j] {
        assert issued'[i] == issued[i] && issued'[j] == issued[j];
      }
    }
  }

  /** Tokens are only ever added. */
  ghost predicate OnlyMoreTokens(s: State, t: State) {
    forall id | id in s.book.issued :: id in t.book.issued && s.book.issued[id] <= t.book.issued[id]
  }

  lemma TokensGrow(cfg: Config, s: State, a: Action, t: State)
    requires WellFormed(s) && Enabled(cfg, s, a) && t == Next(cfg, s, a)
    ensures OnlyMoreTokens(s, t)
  {
    if a.Advance? {
      assert ReqFits(s.heap, s.reqs[a.rid]);
      if !s.reqs[a.rid].phase.AtGet? {
        TouchTokensGrow(cfg, s, a.rid, s.reqs[a.rid], a.outcome, Touches(cfg, s, a.rid, a.outcome));
      }
    }
  }

  lemma TouchTokensGrow(cfg: Config, s: State, rid: Rid, r: Req, o: Outcome, u: State)
    requires rid in s.reqs && r == s.reqs[rid] && r.hold.Some? && ReqFits(s.heap, r) && r.cookie in s.book.issued
    requires u == Touches(cfg, s, rid, o)
    ensures OnlyMoreTokens(s, u)
  {
    if AtAnyPut(r) {
      PutTouch(cfg, s, rid, r, o, u);
    } else if AtAnyDelete(r) {
      DeleteTouch(cfg, s, rid, r, o, u);
    } else if Gives(s, rid, o) {
      GivingTouch(cfg, s, rid, r, o, u);
    } else if r.phase.AtRevoke? {
      RevokingTouch(cfg, s, rid, r, o, u);
    } else {
      QuietTouch(cfg, s, rid, r, o, u);
    }
  }

  /** Rows that are only kept or dropped. */
  lemma RowsCarry(s: State, w: map<Id, Wrote>, t: State)
    requires RowsOk(s, w) && OnlyMoreTokens(s, t)
    requires forall id | id in t.rows && t.rows[id].Snapshot? :: id in s.rows && s.rows[id] == t.rows[id]
    ensures RowsOk(t, w)
  {
    forall id | id in t.rows && t.rows[id].Snapshot?
      ensures id in w && id in t.book.issued && RowOk(t.book.issued[id], t.rows[id].session.access, w[id])
    {
      RowGrows(s.book.issued[id], t.book.issued[id], s.rows[id].session.access, w[id]);
    }
  }

  lemma CopyWritten(s: State, tr: Track, rid: Rid, r: Req)
    requires Inv(s) && TrackOk(s, tr) && rid in s.reqs && r == s.reqs[rid] && r.hold.Some?
    ensures rid in tr.seen && r.hold.value.ref in s.heap && r.cookie in s.book.issued && r.cookie in tr.givenTo
    ensures RowOk(s.book.issued[r.cookie], s.heap[r.hold.value.ref].access,
                  Wrote(CopyInOrder(s, tr, rid), |s.book.issued[r.cookie]|))
  {
    assert ReqHistory(s.book.issued, tr, s.heap, rid, r) && ReqFits(s.heap, r);
    var issued, ref := s.book.issued[r.cookie], r.hold.value.ref;
    assert SessionOk(s.book, s.heap[ref]) && issued[..|issued|] == issued;
    if Distinct(issued) {
      HoldsTheLatest(issued, tr.givenTo[r.cookie], ref, s.heap[ref].access, tr.seen[rid]);
    }
  }

  lemma PutRowsOk(cfg: Config, s: State, tr: Track, w: map<Id, Wrote>, rid: Rid, r: Req, o: Outcome, u: State)
    requires cfg.kind.Durable? && Inv(s) && TrackOk(s, tr) && RowsOk(s, w) && AtAnyPut(r)
    requires rid in s.reqs && r == s.reqs[rid] && r.hold.Some? && ReqFits(s.heap, r) && r.cookie in s.book.issued
    requires u == Touches(cfg, s, rid, o)
    ensures RowsOk(u, WriteStep(s, tr, w, Advance(rid, o)))
  {
    CopyWritten(s, tr, rid, r);
    PutIs(cfg, s, rid, r, o, u);
  }

  lemma PutIs(cfg: Config, s: State, rid: Rid, r: Req, o: Outcome, u: State)
    requires cfg.kind.Durable? && AtAnyPut(r)
    requires rid in s.reqs && r == s.reqs[rid] && r.hold.Some? && ReqFits(s.heap, r) && r.cookie in s.book.issued
    requires u == Touches(cfg, s, rid, o)
    ensures u.book == s.book
    ensures u.rows == if Writes(s, rid, o) then s.rows[r.cookie := Snapshot(s.heap[r.hold.value.ref])] else s.rows
  {
    PutTouch(cfg, s, rid, r, o, u);
  }

  lemma NoNewRows(cfg: Config, s: State, rid: Rid, r: Req, o: Outcome, u: State)
    requires !AtAnyPut(r)
    requires rid in s.reqs && r == s.reqs[rid] && r.hold.Some? && ReqFits(s.heap, r) && r.cookie in s.book.issued
    requires u == Touches(cfg, s, rid, o)
    ensures forall id | id in u.rows && !u.rows[id].Tombstone? :: id in s.rows && s.rows[id] == u.rows[id]
  {
    if AtAnyDelete(r) {
      DeleteTouch(cfg, s, rid, r, o, u);
    } else if Gives(s, rid, o) {
      GivingTouch(cfg, s, rid, r, o, u);
    } else if r.phase.AtRevoke? {
      RevokingTouch(cfg, s, rid, r, o, u);
    } else {
      QuietTouch(cfg, s, rid, r, o, u);
    }
  }

  lemma OtherRowsOk(cfg: Config, s: State, w: map<Id, Wrote>, rid: Rid, r: Req, o: Outcome, u: State)
    requires cfg.kind.Durable? && RowsOk(s, w) && !AtAnyPut(r)
    requires rid in s.reqs && r == s.reqs[rid] && r.hold.Some? && ReqFits(s.heap, r) && r.cookie in s.book.issued
    requires u == Touches(cfg, s, rid, o)
    ensures RowsOk(u, w)
  {
    TouchTokensGrow(cfg, s, rid, r, o, u);
    NoNewRows(cfg, s, rid, r, o, u);
    RowsCarry(s, w, u);
  }

  lemma MintRowsOk(cfg: Config, s: State, tr: Track, w: map<Id, Wrote>, a: Action, t: State)
    requires cfg.kind.Durable? && Inv(s) && RowsOk(s, w) && a.Mint? && Enabled(cfg, s, a) && t == Next(cfg, s, a)
    ensures RowsOk(t, WriteStep(s, tr, w, a))
  {
    var id, issued := a.id, [a.access];
    assert issued[..1] == issued && RowOk(issued, a.access, Wrote(true, 1));
    forall i | i in t.rows && t.rows[i].Snapshot? && i != id
      ensures i in w && i in t.book.issued && RowOk(t.book.issued[i], t.rows[i].session.access, w[i])
    {
      assert i in s.rows && t.rows[i] == s.rows[i] && t.book.issued[i] == s.book.issued[i];
    }
  }

  lemma NextRowsOk(cfg: Config, s: State, tr: Track, w: map<Id, Wrote>, a: Action, t: State)
    requires cfg.kind.Durable? && Inv(s) && TrackOk(s, tr) && RowsOk(s, w) && Enabled(cfg, s, a) && t == Next(cfg, s, a)
    ensures RowsOk(t, WriteStep(s, tr, w, a))
  {
    match a {
      case Mint(_, _, _) => MintRowsOk(cfg, s, tr, w, a, t);
      case Advance(rid, o) =>
        var r := s.reqs[rid];
        assert ReqFits(s.heap, r);
        if r.phase.AtGet? {
          assert t.rows == s.rows && t.book == s.book;
        } else if AtAnyPut(r) {
          PutRowsOk(cfg, s, tr, w, rid, r, o, Touches(cfg, s, rid, o));
        } else {
          OtherRowsOk(cfg, s, w, rid, r, o, Touches(cfg, s, rid, o));
        }
      case _ =>
    }
  }

  lemma {:induction false} RunRowsOk(cfg: Config, d: Discipline, s: State, tr: Track, w: map<Id, Wrote>,
                                     acts: seq<Action>, t: State)
    requires cfg.kind.Durable? && Inv(s) && TrackOk(s, tr) && RowsOk(s, w) && Leads(cfg, d, s, acts, t)
    ensures RowsOk(t, WriteRun(cfg, s, tr, w, acts))
    decreases |acts|
  {
    if acts != [] {
      var a := acts[0];
      var u := Next(cfg, s, a);
      NextKeeps(cfg, s, a);
      NextTracks(cfg, s, tr, a, u);
      NextRowsOk(cfg, s, tr, w, a, u);
      RunRowsOk(cfg, d, u, TrackStep(s, tr, a), WriteStep(s, tr, w, a), acts[1..], t);
    }
  }

  // ---- the theorems ---------------------------------------------------------------------------

  /** On the rehydrating store, in every reachable state: a live session serves its latest token
      exactly when the last write of its row was in order and no token was given out since.  (An
      issuer never grants one session the same token twice.) */
  lemma RowServesTheLatest(cfg: Config, acts: seq<Action>, s: State, w: map<Id, Wrote>, id: Id)
    requires cfg.kind.Durable? && Leads(cfg, ANY_RUN, INIT, acts, s) && w == WriteRun(cfg, INIT, UNTRACKED, map[], acts)
    requires IsLive(s, id) && id in s.book.issued && Distinct(s.book.issued[id])
    ensures WellFormed(s) && s.book.issued[id] != []
    ensures Served(s, id).access == Last(s.book.issued[id]) <==> RowInOrder(s, w, id)
  {
    RunKeeps(cfg, ANY_RUN, INIT, acts, s);
    RunTracks(cfg, ANY_RUN, INIT, UNTRACKED, acts, s);
    RunRowsOk(cfg, ANY_RUN, INIT, UNTRACKED, map[], acts, s);
    assert RowFits(s.heap, s.book, id, s.rows[id]);
    LastIsLast(s.book.issued[id], s.rows[id].session.access, w[id]);
  }

  lemma LastIsLast(issued: seq<string>, access: string, w: Wrote)
    requires RowOk(issued, access, w) && Distinct(issued)
    ensures access == Last(issued) <==> w.inOrder && w.count == |issued|
  {
    var i :| 0 <= i < w.count && issued[i] == access;
  }

  /** Any of the three write-backs, whatever comes of its statement, leaves a live session serving
      its latest token exactly when the copy it wrote was in order; if the statement failed, when
      the row already was. */
  lemma WriteBackServesTheLatest(cfg: Config, acts: seq<Action>, s: State, tr: Track, w: map<Id, Wrote>,
                                 rid: Rid, o: Outcome, t: State)
    requires cfg.kind.Durable? && Leads(cfg, ANY_RUN, INIT, acts, s) && tr == TrackRun(cfg, INIT, UNTRACKED, acts)
    requires w == WriteRun(cfg, INIT, UNTRACKED, map[], acts)
    requires rid in s.reqs && s.reqs[rid].hold.Some? && AtAnyPut(s.reqs[rid]) && IsLive(s, s.reqs[rid].cookie)
    requires s.reqs[rid].cookie in s.book.issued && Distinct(s.book.issued[s.reqs[rid].cookie])
    requires WellFormed(s) && t == Next(cfg, s, Advance(rid, o))
    ensures var id := s.reqs[rid].cookie;
            && WellFormed(t) && IsLive(t, id) && id in t.book.issued && t.book.issued[id] != []
            && (Served(t, id).access == Last(t.book.issued[id])
                <==> if o.Failed? then RowInOrder(s, w, id) else CopyInOrder(s, tr, rid))
  {
    var id := s.reqs[rid].cookie;
    CopyIsTheLatest(cfg, acts, s, tr, rid);
    RowServesTheLatest(cfg, acts, s, w, id);
    NextKeeps(cfg, s, Advance(rid, o));
    assert ReqFits(s.heap, s.reqs[rid]);
    PutIs(cfg, s, rid, s.reqs[rid], o, Touches(cfg, s, rid, o));
  }

  predicate Serves(s: State, id: Id, token: string)
    requires WellFormed(s)
  {
    IsLive(s, id) && Served(s, id).access == token
  }

  /** A step-up answers 204 whatever comes of its write-back.  On either store its token is served
      right after it exactly when the statement did not fail and met no tombstone, or the session
      served the token before. */
  lemma StepUpTokenLands(cfg: Config, acts: seq<Action>, s: State, rid: Rid, o: Outcome, t: State)
    requires Leads(cfg, ANY_RUN, INIT, acts, s) && rid in s.reqs && s.reqs[rid].phase.AtPutElevated?
    requires WellFormed(s) && Enabled(cfg, s, Advance(rid, o)) && t == Next(cfg, s, Advance(rid, o))
    ensures t.reqs[rid].phase == Answered(204)
    ensures WellFormed(t) && s.reqs[rid].hold.Some? && s.reqs[rid].hold.value.ref in s.heap
    ensures var id, token := s.reqs[rid].cookie, s.heap[s.reqs[rid].hold.value.ref].access;
            Serves(t, id, token) <==> (!o.Failed? && !Entombed(s, id)) || Serves(s, id, token)
  {
    RunKeeps(cfg, ANY_RUN, INIT, acts, s);
    NextKeeps(cfg, s, Advance(rid, o));
    StepUpPut(cfg, s, rid, s.reqs[rid], o, t);
  }

  lemma StepUpPut(cfg: Config, s: State, rid: Rid, r: Req, o: Outcome, t: State)
    requires WellFormed(s) && WellFormed(t) && rid in s.reqs && r == s.reqs[rid] && r.phase.AtPutElevated?
    requires Enabled(cfg, s, Advance(rid, o)) && t == Next(cfg, s, Advance(rid, o))
    ensures t.reqs[rid].phase == Answered(204) && r.hold.Some? && r.hold.value.ref in s.heap
    ensures var token := s.heap[r.hold.value.ref].access;
            Serves(t, r.cookie, token) <==> (!o.Failed? && !Entombed(s, r.cookie)) || Serves(s, r.cookie, token)
  {
    assert ReqFits(s.heap, r);
    PutTouch(cfg, s, rid, r, o, Touches(cfg, s, rid, o));
    assert IsLive(s, r.cookie) ==> RowFits(s.heap, s.book, r.cookie, s.rows[r.cookie]);
  }
}
