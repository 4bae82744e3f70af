/** Refresh tokens are single-use: a refresh spends the refresh token of the token set that it
    starts from, which is named here by its access token. */
module SessionRefresh {
  import opened Options
  import opened SessionProtocol
  import opened SessionSafety
  import opened SessionTheorems
  import opened SessionSharing
  import opened SessionOrder
  import opened SessionRows

  // ---- spent tokens -------------------------------------------------------------------------

  type Spent = map<Id, set<string>>

  function Of(spent: Spent, id: Id): set<string> {
    if id in spent then spent[id] else {}
  }

  /** A successful refresh spends the token of the object it works on. */
  function SpendStep(s: State, spent: Spent, a: Action): Spent {
    if a.Advance? && Gives(s, a.rid, a.outcome) && s.reqs[a.rid].phase.AtEnsure?
       && s.reqs[a.rid].hold.Some? && s.reqs[a.rid].hold.value.ref in s.heap
    then
      var r := s.reqs[a.rid];
      spent[r.cookie := Of(spent, r.cookie) + {s.heap[r.hold.value.ref].access}]
    else spent
  }

  ghost function SpendRun(cfg: Config, s: State, spent: Spent, acts: seq<Action>): Spent
    decreases |acts|
  {
    if acts == [] || !WellFormed(s) || !Enabled(cfg, s, acts[0]) then spent
    else SpendRun(cfg, Next(cfg, s, acts[0]), SpendStep(s, spent, acts[0]), acts[1..])
  }

  /** Only tokens of the session are spent, and never its last one. */
  ghost predicate SpentOk(issued: seq<string>, spent: set<string>) {
    && (forall x | x in spent :: x in issued)
    && (issued != [] && Distinct(issued) ==> Last(issued) !in spent)
  }

  ghost predicate AllSpentOk(s: State, spent: Spent) {
    && spent.Keys <= s.book.issued.Keys
    && forall id | id in s.book.issued :: SpentOk(s.book.issued[id], Of(spent, id))
  }

  lemma SpendOne(issued: seq<string>, spent: set<string>, old': string, token: string)
    requires SpentOk(issued, spent) && old' in issued
    ensures SpentOk(issued + [token], spent + {old'}) && SpentOk(issued + [token], spent)
  {
    var more := issued + [token];
    if Distinct(more) {
      forall x | x in issued ensures x != token {
        var i :| 0 <= i < |issued| && issued[i] == x;
        assert more[i] == x && more[|issued|] == token;
      }
    }
  }

  lemma GiveSpends(cfg: Config, s: State, spent: Spent, rid: Rid, r: Req, o: Outcome, u: State)
    requires Inv(s) && AllSpentOk(s, spent) && Gives(s, rid, o)
    requires rid in s.reqs && r == s.reqs[rid] && r.hold.Some? && ReqFits(s.heap, r) && r.cookie in s.book.issued
    requires u == Touches(cfg, s, rid, o)
    ensures AllSpentOk(u, SpendStep(s, spent, Advance(rid, o)))
  {
    GivingTouch(cfg, s, rid, r, o, u);
    var held := s.heap[r.hold.value.ref];
    assert SessionOk(s.book, held);
    SpendOne(s.book.issued[r.cookie], Of(spent, r.cookie), held.access, Given(o));
  }

  lemma OtherSpends(cfg: Config, s: State, rid: Rid, r: Req, o: Outcome, u: State)
    requires !Gives(s, rid, o)
    requires rid in s.reqs && r == s.reqs[rid] && r.hold.Some? && ReqFits(s.heap, r) && r.cookie in s.book.issued
    requires u == Touches(cfg, s, rid, o)
    ensures u.book.issued == s.book.issued
  {
    if AtAnyPut(r) {
      PutTouch(cfg, s, rid, r, o, u);
    } else if AtAnyDelete(r) {
      DeleteTouch(cfg, s, rid, r, o, u);
    } else if r.phase.AtRevoke? {
      RevokingTouch(cfg, s, rid, r, o, u);
    } else {
      QuietTouch(cfg, s, rid, r, o, u);
    }
  }

  lemma NextSpends(cfg: Config, s: State, spent: Spent, a: Action, t: State)
    requires Inv(s) && AllSpentOk(s, spent) && Enabled(cfg, s, a) && t == Next(cfg, s, a)
    ensures AllSpentOk(t, SpendStep(s, spent, a))
  {
    match a {
      case Mint(id, _, access) =>
        assert Of(spent, id) == {};
      case Advance(rid, o) =>
        var r := s.reqs[rid];
        assert ReqFits(s.heap, r);
        if r.phase.AtGet? {
          assert t.book == s.book;
        } else if Gives(s, rid, o) {
          GiveSpends(cfg, s, spent, rid, r, o, Touches(cfg, s, rid, o));
        } else {
          OtherSpends(cfg, s, rid, r, o, Touches(cfg, s, rid, o));
        }
      case _ =>
    }
  }

  lemma {:induction false} RunSpends(cfg: Config, d: Discipline, s: State, spent: Spent, acts: seq<Action>, t: State)
    requires Inv(s) && AllSpentOk(s, spent) && Leads(cfg, d, s, acts, t)
    ensures AllSpentOk(t, SpendRun(cfg, s, spent, acts))
    decreases |acts|
  {
    if acts != [] {
      var u := Next(cfg, s, acts[0]);
      NextKeeps(cfg, s, acts[0]);
      NextSpends(cfg, s, spent, acts[0], u);
      RunSpends(cfg, d, u, SpendStep(s, spent, acts[0]), acts[1..], t);
    }
  }

  /** The token of the object that a request holds is one that a refresh has spent. */
  predicate HoldsSpent(s: State, spent: Spent, rid: Rid)
    requires rid in s.reqs && s.reqs[rid].hold.Some? && s.reqs[rid].hold.value.ref in s.heap
  {
    s.heap[s.reqs[rid].hold.value.ref].access in Of(spent, s.reqs[rid].cookie)
  }

  /** On the memory store no request, at any step of any run, holds a spent token: every refresh
      presents a fresh one. */
  lemma MemoryNeverPresentsASpentToken(cfg: Config, acts: seq<Action>, s: State, rid: Rid)
    requires cfg.kind.Memory? && Leads(cfg, ANY_RUN, INIT, acts, s)
    requires rid in s.reqs && s.reqs[rid].hold.Some?
    requires s.reqs[rid].cookie in s.book.issued && Distinct(s.book.issued[s.reqs[rid].cookie])
    ensures s.reqs[rid].hold.value.ref in s.heap && !HoldsSpent(s, SpendRun(cfg, INIT, map[], acts), rid)
  {
    RunKeeps(cfg, ANY_RUN, INIT, acts, s);
    RunKeepsShared(cfg, ANY_RUN, INIT, acts, s);
    RunSpends(cfg, ANY_RUN, INIT, map[], acts, s);
    assert ReqFits(s.heap, s.reqs[rid]) && LatestIn(s.book, s.heap[s.reqs[rid].hold.value.ref]);
  }

  /** On the rehydrating store a copy that is in order is not spent. */
  lemma InOrderIsUnspent(cfg: Config, acts: seq<Action>, s: State, rid: Rid)
    requires cfg.kind.Durable? && Leads(cfg, ANY_RUN, INIT, acts, s)
    requires rid in s.reqs && s.reqs[rid].hold.Some? && CopyInOrder(s, TrackRun(cfg, INIT, UNTRACKED, acts), rid)
    requires s.reqs[rid].cookie in s.book.issued && Distinct(s.book.issued[s.reqs[rid].cookie])
    ensures s.reqs[rid].hold.value.ref in s.heap && !HoldsSpent(s, SpendRun(cfg, INIT, map[], acts), rid)
  {
    CopyIsTheLatest(cfg, acts, s, TrackRun(cfg, INIT, UNTRACKED, acts), rid);
    RunSpends(cfg, ANY_RUN, INIT, map[], acts, s);
  }
}
