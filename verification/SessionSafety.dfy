/** What every run of the session protocol keeps, whatever the interleaving. */
module SessionSafety {
  import opened Options
  import opened SessionProtocol

  // ---- the invariant ---------------------------------------------------------------

  /** Only a request that presented the session's CSRF token gets past the check. */
  predicate PastCheck(r: Req) {
    match r.phase
    case AtRevoke | AtLoad | AtDelete(_) | AtCompare(_) | AtUpstream | AtPutElevated => true
    case AtEnsure | AtPutFresh | AtFatalDelete => r.handler.Elevate?
    case _ => false
  }

  predicate Matches(book: Book, r: Req) {
    r.cookie in book.csrfOf && r.header == book.csrfOf[r.cookie] && r.header != ""
  }

  predicate ReqOk(book: Book, r: Req) {
    PastCheck(r) ==> Matches(book, r)
  }

  /** A session shows its own CSRF token and an access token that was given to it. */
  predicate SessionOk(book: Book, session: Session) {
    && session.id in book.csrfOf && session.csrf == book.csrfOf[session.id]
    && session.id in book.issued && session.access in book.issued[session.id]
  }

  predicate NeedsCsrf(deed: Deed) {
    deed.RevokedTokens? || deed.DeletedRow? || deed.SteppedUp?
  }

  predicate EffectOk(book: Book, reqs: map<Rid, Req>, e: Effect) {
    && e.rid in reqs && reqs[e.rid].cookie == e.id
    && (NeedsCsrf(e.deed) ==> Matches(book, reqs[e.rid]))
  }

  ghost predicate Inv(s: State) {
    && WellFormed(s)
    && (forall ref | ref in s.heap :: SessionOk(s.book, s.heap[ref]))
    && (forall id | id in s.rows && s.rows[id].Snapshot? :: SessionOk(s.book, s.rows[id].session))
    && (forall rid | rid in s.reqs :: ReqOk(s.book, s.reqs[rid]))
    && (forall id | id in s.book.issued :: "" !in s.book.issued[id])
    && (forall e | e in s.book.effects :: EffectOk(s.book, s.reqs, e))
  }

  // ---- every step keeps it: one lemma for each store call, then the handlers ---------

  lemma GotoKeeps(s: State, rid: Rid, phase: Phase)
    requires Inv(s) && rid in s.reqs
    requires ReqFits(s.heap, s.reqs[rid].(phase := phase)) && ReqOk(s.book, s.reqs[rid].(phase := phase))
    ensures Inv(Goto(s, rid, phase))
  {
    var t := Goto(s, rid, phase);
    forall e | e in t.book.effects ensures EffectOk(t.book, t.reqs, e) {
      assert EffectOk(s.book, s.reqs, e);
    }
  }

  lemma PutKeeps(cfg: Config, s: State, ref: Ref, o: Outcome)
    requires Inv(s) && ref in s.heap
    ensures Inv(Put(cfg, s, ref, o))
  {
  }

  lemma NoteKeeps(s: State, rid: Rid, id: Id, deed: Deed)
    requires Inv(s) && EffectOk(s.book, s.reqs, Effect(rid, id, deed))
    ensures Inv(s.(book := Note(s, rid, id, deed)))
  {
    var t := s.(book := Note(s, rid, id, deed));
    forall e | e in t.book.effects ensures EffectOk(t.book, t.reqs, e) {
      assert e in s.book.effects ==> EffectOk(s.book, s.reqs, e);
    }
  }

  lemma RevocationKeeps(s: State, rid: Rid, ref: Ref)
    requires Inv(s) && ref in s.heap && s.heap[ref].id in s.book.issued
    requires EffectOk(s.book, s.reqs, Effect(rid, s.heap[ref].id, RevokedTokens))
    ensures Inv(s.(book := NoteRevocation(s, rid, ref)))
  {
    NoteKeeps(s, rid, s.heap[ref].id, RevokedTokens);
    var t := s.(book := NoteRevocation(s, rid, ref));
    forall e | e in t.book.effects ensures EffectOk(t.book, t.reqs, e) {
      assert EffectOk(Note(s, rid, s.heap[ref].id, RevokedTokens), s.reqs, e);
    }
  }

  lemma DeleteKeeps(s: State, rid: Rid, id: Id, deed: Deed, o: Outcome)
    requires Inv(s) && EffectOk(s.book, s.reqs, Effect(rid, id, deed))
    ensures Inv(Delete(s, rid, id, deed, o))
  {
    NoteKeeps(s, rid, id, deed);
    var t := Delete(s, rid, id, deed, o);
    forall e | e in t.book.effects ensures EffectOk(t.book, t.reqs, e) {
      assert EffectOk(Note(s, rid, id, deed), s.reqs, e);
    }
  }

  lemma SetTokensKeeps(s: State, rid: Rid, ref: Ref, access: string, deed: Deed)
    requires Inv(s) && ref in s.heap && access != ""
    requires EffectOk(s.book, s.reqs, Effect(rid, s.heap[ref].id, deed))
    ensures Inv(SetTokens(s, rid, ref, access, deed))
  {
    NoteKeeps(s, rid, s.heap[ref].id, deed);
    var t := SetTokens(s, rid, ref, access, deed);
    var id := s.heap[ref].id;
    assert t.book.issued[id] == s.book.issued[id] + [access];
    forall e | e in t.book.effects ensures EffectOk(t.book, t.reqs, e) {
      assert EffectOk(Note(s, rid, id, deed), s.reqs, e);
    }
  }

  lemma ResolveKeeps(cfg: Config, s: State, rid: Rid, o: Outcome)
    requires Inv(s) && rid in s.reqs && s.reqs[rid].phase.AtGet? && s.reqs[rid].hold.None?
    ensures IsLive(s, s.reqs[rid].cookie) ==> RowFits(s.heap, s.book, s.reqs[rid].cookie, s.rows[s.reqs[rid].cookie])
    ensures Inv(Resolve(cfg, s, rid, o))
  {
    var r := s.reqs[rid];
    if o.Done? && IsLive(s, r.cookie) {
      var row := s.rows[r.cookie];
      assert RowFits(s.heap, s.book, r.cookie, row);
      if row.Pointer? {
        HoldKeeps(s, rid, row.ref);
      } else {
        var u := RehydrateKeeps(s, row.session);
        HoldKeeps(u, rid, s.nextRef);
      }
    } else {
      GotoKeeps(if o.Failed? then s.(failures := s.failures + 1) else s, rid, NoSession(r.handler));
    }
  }

  lemma RehydrateKeeps(s: State, session: Session) returns (t: State)
    requires Inv(s) && SessionOk(s.book, session)
    ensures t == s.(heap := s.heap[s.nextRef := session], nextRef := s.nextRef + 1) && Inv(t)
  {
    t := s.(heap := s.heap[s.nextRef := session], nextRef := s.nextRef + 1);
    forall rid | rid in t.reqs ensures ReqFits(t.heap, t.reqs[rid]) {
      assert ReqFits(s.heap, s.reqs[rid]);
    }
    forall id | id in t.rows ensures RowFits(t.heap, t.book, id, t.rows[id]) {
      assert RowFits(s.heap, s.book, id, s.rows[id]);
    }
  }

  lemma HoldKeeps(s: State, rid: Rid, ref: Ref)
    requires Inv(s) && rid in s.reqs && s.reqs[rid].phase.AtGet? && ref in s.heap
             && s.heap[ref].id == s.reqs[rid].cookie
    ensures Inv(s.(reqs := s.reqs[rid := s.reqs[rid].(phase := AtTouch, hold := Some(Hold(ref, s.clock)))]))
  {
    var t := s.(reqs := s.reqs[rid := s.reqs[rid].(phase := AtTouch, hold := Some(Hold(ref, s.clock)))]);
    forall e | e in t.book.effects ensures EffectOk(t.book, t.reqs, e) {
      assert EffectOk(s.book, s.reqs, e);
    }
  }

  lemma TouchesKeeps(cfg: Config, s: State, rid: Rid, o: Outcome)
    requires Inv(s) && rid in s.reqs && s.reqs[rid].hold.Some? && InFlight(s.reqs[rid])
    ensures Inv(Touches(cfg, s, rid, o))
  {
    var r := s.reqs[rid];
    var ref := r.hold.value.ref;
    assert ReqOk(s.book, r) && SessionOk(s.book, s.heap[ref]) && ReqFits(s.heap, r);
    match r.phase {
      case AtPut | AtPutFresh | AtPutElevated => PutKeeps(cfg, s, ref, o);
      case AtRevoke => RevocationKeeps(s, rid, ref);
      case AtDelete(_) => DeleteKeeps(s, rid, r.cookie, DeletedRow, o);
      case AtFatalDelete =>
        DeleteKeeps(s, rid, r.cookie, if r.handler.Elevate? then DeletedRow else DroppedRejected, o);
      case AtEnsure => if o.NewToken? && o.access != "" { SetTokensKeeps(s, rid, ref, o.access, Refreshed); }
      case AtUpstream => if Usable(o) { SetTokensKeeps(s, rid, ref, o.token, SteppedUp); }
      case _ =>
    }
  }

  /** The CSRF comparison is the only way past the check. */
  lemma NextPhaseOk(s: State, r: Req, o: Outcome)
    requires r.hold.Some? && !r.phase.Answered? && ReqFits(s.heap, r) && ReqOk(s.book, r)
    requires SessionOk(s.book, s.heap[r.hold.value.ref])
    ensures ReqOk(s.book, r.(phase := NextPhase(s, r, o)))
    ensures ReqFits(s.heap, r.(phase := NextPhase(s, r, o)))
  {
  }

  /** A fresh id disturbs nothing that is already there. */
  lemma BookGrows(s: State, id: Id, csrf: string, access: string, book: Book)
    requires Inv(s) && id !in s.book.csrfOf && access != ""
    requires book == s.book.(csrfOf := s.book.csrfOf[id := csrf], issued := s.book.issued[id := [access]])
    ensures Inv(s.(book := book))
  {
    forall rid | rid in s.reqs ensures ReqOk(book, s.reqs[rid]) {
      assert ReqOk(s.book, s.reqs[rid]);
    }
    forall ref | ref in s.heap ensures SessionOk(book, s.heap[ref]) {
      assert SessionOk(s.book, s.heap[ref]);
    }
    forall i | i in s.rows && s.rows[i].Snapshot? ensures SessionOk(book, s.rows[i].session) {
      assert SessionOk(s.book, s.rows[i].session);
    }
    forall e | e in book.effects ensures EffectOk(book, s.reqs, e) {
      assert EffectOk(s.book, s.reqs, e);
    }
  }

  lemma MintKeeps(cfg: Config, s: State, id: Id, csrf: string, access: string)
    requires Inv(s) && Enabled(cfg, s, Mint(id, csrf, access))
    ensures Inv(MintSession(cfg, s, id, csrf, access))
  {
    var t := MintSession(cfg, s, id, csrf, access);
    BookGrows(s, id, csrf, access, t.book);
    var u := s.(book := t.book);
    assert SessionOk(t.book, Session(id, csrf, access, s.clock));
    forall rid | rid in t.reqs ensures ReqFits(t.heap, t.reqs[rid]) {
      assert ReqFits(u.heap, u.reqs[rid]);
    }
    forall i | i in t.rows ensures RowFits(t.heap, t.book, i, t.rows[i]) {
      assert i != id ==> RowFits(u.heap, u.book, i, u.rows[i]);
    }
  }

  lemma CommitKeeps(s: State, t: State, rid: Rid, phase: Phase)
    requires Inv(t) && rid in s.reqs && s.reqs == t.reqs && s.book.csrfOf == t.book.csrfOf
    requires t.heap.Keys == s.heap.Keys && forall ref | ref in s.heap :: t.heap[ref].id == s.heap[ref].id
    requires ReqFits(s.heap, s.reqs[rid].(phase := phase)) && ReqOk(s.book, s.reqs[rid].(phase := phase))
    ensures Inv(Goto(t, rid, phase))
  {
    GotoKeeps(t, rid, phase);
  }

  lemma AdvanceKeeps(cfg: Config, s: State, rid: Rid, o: Outcome)
    requires Inv(s) && Enabled(cfg, s, Advance(rid, o))
    ensures Inv(Next(cfg, s, Advance(rid, o)))
  {
    var r := s.reqs[rid];
    assert ReqFits(s.heap, r) && ReqOk(s.book, r);
    if r.phase.AtGet? {
      ResolveKeeps(cfg, s, rid, o);
    } else {
      TouchesKeeps(cfg, s, rid, o);
      TouchesFrame(cfg, s, rid, o);
      NextPhaseOk(s, r, o);
      CommitKeeps(s, Touches(cfg, s, rid, o), rid, NextPhase(s, r, o));
    }
  }

  lemma NextKeeps(cfg: Config, s: State, a: Action)
    requires Inv(s) && Enabled(cfg, s, a)
    ensures Inv(Next(cfg, s, a))
  {
    match a {
      case Mint(id, csrf, access) => MintKeeps(cfg, s, id, csrf, access);
      case Advance(rid, o) =>
        assert ReqFits(s.heap, s.reqs[rid]);
        AdvanceKeeps(cfg, s, rid, o);
      case Arrive(rid, handler, cookie, header) =>
        ArriveKeeps(s, rid, Req(handler, cookie, header, AtGet, None));
      case Detach(rid, task) =>
        assert ReqFits(s.heap, s.reqs[rid]);
        ArriveKeeps(s, task, s.reqs[rid].(handler := Refresher));
      case _ =>
    }
  }

  lemma ArriveKeeps(s: State, rid: Rid, r: Req)
    requires Inv(s) && rid !in s.reqs && ReqFits(s.heap, r) && ReqOk(s.book, r)
    ensures Inv(s.(reqs := s.reqs[rid := r]))
  {
    var t := s.(reqs := s.reqs[rid := r]);
    forall e | e in t.book.effects ensures EffectOk(t.book, t.reqs, e) {
      assert EffectOk(s.book, s.reqs, e);
    }
  }

  // ---- the kinds of step a holder takes ---------------------------------------------

  lemma PutTouch(cfg: Config, s: State, rid: Rid, r: Req, o: Outcome, u: State)
    requires AtAnyPut(r)
    requires rid in s.reqs && r == s.reqs[rid] && r.hold.Some? && ReqFits(s.heap, r) && r.cookie in s.book.issued
    requires u == Touches(cfg, s, rid, o)
    ensures u == Put(cfg, s, r.hold.value.ref, o)
  {
  }

  function DeleteDeed(r: Req): Deed {
    if r.phase.AtDelete? || r.handler.Elevate? then DeletedRow else DroppedRejected
  }

  lemma DeleteTouch(cfg: Config, s: State, rid: Rid, r: Req, o: Outcome, u: State)
    requires AtAnyDelete(r)
    requires rid in s.reqs && r == s.reqs[rid] && r.hold.Some? && ReqFits(s.heap, r) && r.cookie in s.book.issued
    requires u == Touches(cfg, s, rid, o)
    ensures u == Delete(s, rid, r.cookie, DeleteDeed(r), o)
  {
  }

  lemma GivingTouch(cfg: Config, s: State, rid: Rid, r: Req, o: Outcome, u: State)
    requires Gives(s, rid, o)
    requires rid in s.reqs && r == s.reqs[rid] && r.hold.Some? && ReqFits(s.heap, r) && r.cookie in s.book.issued
    requires u == Touches(cfg, s, rid, o)
    ensures u == SetTokens(s, rid, r.hold.value.ref, Given(o), if r.phase.AtEnsure? then Refreshed else SteppedUp)
  {
  }

  lemma RevokingTouch(cfg: Config, s: State, rid: Rid, r: Req, o: Outcome, u: State)
    requires r.phase.AtRevoke?
    requires rid in s.reqs && r == s.reqs[rid] && r.hold.Some? && ReqFits(s.heap, r) && r.cookie in s.book.issued
    requires u == Touches(cfg, s, rid, o)
    ensures u == s.(book := NoteRevocation(s, rid, r.hold.value.ref))
  {
  }

  /** Every other step slides the idle window, or touches nothing. */
  lemma QuietTouch(cfg: Config, s: State, rid: Rid, r: Req, o: Outcome, u: State)
    requires !AtAnyPut(r) && !AtAnyDelete(r) && !Gives(s, rid, o) && !r.phase.AtRevoke?
    requires rid in s.reqs && r == s.reqs[rid] && r.hold.Some? && ReqFits(s.heap, r) && r.cookie in s.book.issued
    requires u == Touches(cfg, s, rid, o)
    ensures u.rows == s.rows && u.book == s.book && u.reqs == s.reqs && u.clock == s.clock
    ensures u.failures == s.failures && u.nextRef == s.nextRef && u.heap.Keys == s.heap.Keys
    ensures forall ref | ref in s.heap :: u.heap[ref] == s.heap[ref].(lastSeen := u.heap[ref].lastSeen)
  {
  }

  /** What no step of a holder changes. */
  ghost predicate Framed(s: State, t: State) {
    && t.reqs == s.reqs && t.book.csrfOf == s.book.csrfOf && t.clock == s.clock
    && s.book.deletedAt.Keys <= t.book.deletedAt.Keys
    && t.heap.Keys == s.heap.Keys && forall ref | ref in s.heap :: t.heap[ref].id == s.heap[ref].id
  }

  lemma TouchesFrame(cfg: Config, s: State, rid: Rid, o: Outcome)
    requires rid in s.reqs && s.reqs[rid].hold.Some? && ReqFits(s.heap, s.reqs[rid])
    requires s.reqs[rid].cookie in s.book.issued
    ensures Framed(s, Touches(cfg, s, rid, o))
  {
    var r, u := s.reqs[rid], Touches(cfg, s, rid, o);
    if AtAnyPut(r) {
      PutTouch(cfg, s, rid, r, o, u);
    } else if AtAnyDelete(r) {
      DeleteTouch(cfg, s, rid, r, o, u);
    } else {
      OtherFrame(cfg, s, rid, r, o, u);
    }
  }

  lemma OtherFrame(cfg: Config, s: State, rid: Rid, r: Req, o: Outcome, u: State)
    requires !AtAnyPut(r) && !AtAnyDelete(r)
    requires rid in s.reqs && r == s.reqs[rid] && r.hold.Some? && ReqFits(s.heap, r) && r.cookie in s.book.issued
    requires u == Touches(cfg, s, rid, o)
    ensures Framed(s, u)
  {
    if Gives(s, rid, o) {
      GivingTouch(cfg, s, rid, r, o, u);
    } else if r.phase.AtRevoke? {
      RevokingTouch(cfg, s, rid, r, o, u);
    } else {
      QuietTouch(cfg, s, rid, r, o, u);
    }
  }
}
