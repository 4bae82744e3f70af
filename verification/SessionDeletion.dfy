/** Deletion is final: tombstones and the requests still in flight. */
module SessionDeletion {
  import opened Options
  import opened SessionProtocol
  import opened SessionSafety

  // ---- the timing argument ---------------------------------------------------------

  /** A deleted id is a tombstone, or its tombstone was old enough to be swept. */
  predicate Dead(cfg: Config, clock: int, rows: map<Id, Row>, id: Id, at: int) {
    && at <= clock
    && if id in rows then rows[id] == Tombstone(at) else at + cfg.tombstoneTTL < clock
  }

  /** Whoever still holds a deleted session read it before the last delete. */
  predicate HoldsFromBefore(clock: int, deletedAt: map<Id, int>, r: Req) {
    r.hold.Some? ==>
      && r.hold.value.since <= clock
      && (r.cookie in deletedAt ==> r.hold.value.since <= deletedAt[r.cookie])
  }

  ghost predicate DeletionInv(cfg: Config, s: State) {
    && (forall id | id in s.book.deletedAt ::
          id in s.book.csrfOf && Dead(cfg, s.clock, s.rows, id, s.book.deletedAt[id]))
    && (forall rid | rid in s.reqs :: HoldsFromBefore(s.clock, s.book.deletedAt, s.reqs[rid]))
  }

  lemma PutKeepsDeletion(cfg: Config, s: State, rid: Rid, o: Outcome)
    requires WellFormed(s) && DeletionInv(cfg, s) && rid in s.reqs && s.reqs[rid].hold.Some?
    requires s.clock <= s.reqs[rid].hold.value.since + cfg.tombstoneTTL
    ensures DeletionInv(cfg, Put(cfg, s, s.reqs[rid].hold.value.ref, o))
  {
    var r := s.reqs[rid];
    assert ReqFits(s.heap, r) && HoldsFromBefore(s.clock, s.book.deletedAt, r);
  }

  lemma DeleteKeepsDeletion(cfg: Config, s: State, rid: Rid, id: Id, deed: Deed, o: Outcome)
    requires WellFormed(s) && DeletionInv(cfg, s) && id in s.book.csrfOf
    ensures DeletionInv(cfg, Delete(s, rid, id, deed, o))
  {
    var t := Delete(s, rid, id, deed, o);
    forall i | i in s.reqs
      ensures HoldsFromBefore(t.clock, t.book.deletedAt, t.reqs[i])
    {
      assert HoldsFromBefore(s.clock, s.book.deletedAt, s.reqs[i]);
    }
  }

  lemma OtherTouches(cfg: Config, s: State, rid: Rid, r: Req, o: Outcome, u: State)
    requires DeletionInv(cfg, s) && !AtAnyPut(r) && !AtAnyDelete(r)
    requires rid in s.reqs && r == s.reqs[rid] && r.hold.Some? && ReqFits(s.heap, r) && r.cookie in s.book.issued
    requires u == Touches(cfg, s, rid, o)
    ensures u.rows == s.rows && u.clock == s.clock && u.reqs == s.reqs
    ensures u.book.csrfOf == s.book.csrfOf && u.book.deletedAt == s.book.deletedAt
    ensures DeletionInv(cfg, u)
  {
    if Gives(s, rid, o) {
      GivingTouch(cfg, s, rid, r, o, u);
    } else if r.phase.AtRevoke? {
      RevokingTouch(cfg, s, rid, r, o, u);
    } else {
      QuietTouch(cfg, s, rid, r, o, u);
    }
  }

  lemma TouchesKeepsDeletion(cfg: Config, s: State, rid: Rid, o: Outcome)
    requires Inv(s) && DeletionInv(cfg, s) && rid in s.reqs && InFlight(s.reqs[rid])
    requires s.clock <= s.reqs[rid].hold.value.since + cfg.tombstoneTTL
    ensures DeletionInv(cfg, Touches(cfg, s, rid, o))
  {
    var r, u := s.reqs[rid], Touches(cfg, s, rid, o);
    assert ReqFits(s.heap, r);
    if AtAnyPut(r) {
      PutTouch(cfg, s, rid, r, o, u);
      PutKeepsDeletion(cfg, s, rid, o);
    } else if AtAnyDelete(r) {
      DeleteTouch(cfg, s, rid, r, o, u);
      DeleteKeepsDeletion(cfg, s, rid, r.cookie, DeleteDeed(r), o);
    } else {
      OtherTouches(cfg, s, rid, r, o, u);
    }
  }

  lemma AdvanceKeepsDeletion(cfg: Config, s: State, rid: Rid, o: Outcome)
    requires Inv(s) && DeletionInv(cfg, s) && Enabled(cfg, s, Advance(rid, o))
    requires Timely(cfg, s, Advance(rid, o))
    ensures DeletionInv(cfg, Next(cfg, s, Advance(rid, o)))
  {
    var r := s.reqs[rid];
    assert ReqFits(s.heap, r) && HoldsFromBefore(s.clock, s.book.deletedAt, r);
    if r.phase.AtGet? {
      ResolveKeepsDeletion(cfg, s, rid, o);
    } else {
      TouchesKeepsDeletion(cfg, s, rid, o);
      TouchesFrame(cfg, s, rid, o);
      var t := Touches(cfg, s, rid, o);
      assert HoldsFromBefore(t.clock, t.book.deletedAt, r);
      GotoKeepsDeletion(cfg, t, rid, NextPhase(s, r, o));
    }
  }

  lemma GotoKeepsDeletion(cfg: Config, s: State, rid: Rid, phase: Phase)
    requires DeletionInv(cfg, s) && rid in s.reqs
    ensures DeletionInv(cfg, Goto(s, rid, phase))
  {
    assert HoldsFromBefore(s.clock, s.book.deletedAt, s.reqs[rid]);
  }

  lemma ResolveKeepsDeletion(cfg: Config, s: State, rid: Rid, o: Outcome)
    requires Inv(s) && DeletionInv(cfg, s) && rid in s.reqs && s.reqs[rid].phase.AtGet?
    ensures DeletionInv(cfg, Resolve(cfg, s, rid, o))
  {
    var t := Resolve(cfg, s, rid, o);
    assert ReqFits(s.heap, s.reqs[rid]);
    forall id | id in t.book.deletedAt ensures Dead(cfg, t.clock, t.rows, id, t.book.deletedAt[id]) {
      assert Dead(cfg, s.clock, s.rows, id, s.book.deletedAt[id]);
    }
    forall i | i in t.reqs && i != rid
      ensures HoldsFromBefore(t.clock, t.book.deletedAt, t.reqs[i])
    {
      assert HoldsFromBefore(s.clock, s.book.deletedAt, s.reqs[i]);
    }
  }

  lemma ArriveKeepsDeletion(cfg: Config, s: State, rid: Rid, r: Req)
    requires DeletionInv(cfg, s) && HoldsFromBefore(s.clock, s.book.deletedAt, r)
    ensures DeletionInv(cfg, s.(reqs := s.reqs[rid := r]))
  {
  }

  lemma SweepKeepsDeletion(cfg: Config, s: State, expired: set<Id>)
    requires DeletionInv(cfg, s)
    ensures DeletionInv(cfg, s.(rows := SweepRows(cfg, s, expired)))
  {
    var t := s.(rows := SweepRows(cfg, s, expired));
    forall id | id in t.book.deletedAt ensures Dead(cfg, t.clock, t.rows, id, t.book.deletedAt[id]) {
      assert Dead(cfg, s.clock, s.rows, id, s.book.deletedAt[id]);
    }
  }

  lemma MintKeepsDeletion(cfg: Config, s: State, id: Id, csrf: string, access: string)
    requires DeletionInv(cfg, s) && id !in s.book.csrfOf
    ensures DeletionInv(cfg, MintSession(cfg, s, id, csrf, access))
  {
    var t := MintSession(cfg, s, id, csrf, access);
    forall i | i in t.book.deletedAt ensures i in t.book.csrfOf && Dead(cfg, t.clock, t.rows, i, t.book.deletedAt[i]) {
      assert i in s.book.csrfOf && Dead(cfg, s.clock, s.rows, i, s.book.deletedAt[i]);
    }
  }

  lemma NextKeepsDeletion(cfg: Config, s: State, a: Action)
    requires Inv(s) && DeletionInv(cfg, s) && Enabled(cfg, s, a) && Timely(cfg, s, a)
    ensures DeletionInv(cfg, Next(cfg, s, a))
  {
    match a {
      case Mint(id, csrf, access) => MintKeepsDeletion(cfg, s, id, csrf, access);
      case Sweep(expired) => SweepKeepsDeletion(cfg, s, expired);
      case Arrive(rid, handler, cookie, header) =>
        ArriveKeepsDeletion(cfg, s, rid, Req(handler, cookie, header, AtGet, None));
      case Detach(rid, task) =>
        assert HoldsFromBefore(s.clock, s.book.deletedAt, s.reqs[rid]);
        ArriveKeepsDeletion(cfg, s, task, s.reqs[rid].(handler := Refresher));
      case Advance(rid, o) => AdvanceKeepsDeletion(cfg, s, rid, o);
      case Tick(now) => TickKeepsDeletion(cfg, s, now);
    }
  }

  lemma TickKeepsDeletion(cfg: Config, s: State, now: int)
    requires DeletionInv(cfg, s) && s.clock <= now
    ensures DeletionInv(cfg, s.(clock := now))
  {
    forall rid | rid in s.reqs ensures HoldsFromBefore(now, s.book.deletedAt, s.reqs[rid]) {
      assert HoldsFromBefore(s.clock, s.book.deletedAt, s.reqs[rid]);
    }
  }
}
