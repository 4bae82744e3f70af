/** The rehydrating store: every request works on its own copy of the session, so it is the order
    of reads, issued tokens and write-backs that decides whose token the session serves. */
module SessionOrder {
  import opened Options
  import opened SessionProtocol
  import opened SessionSafety
  import opened SessionTheorems
  import opened SessionSharing

  // ---- the order of reads and tokens ----------------------------------------------------

  /** What a request's read of the row brought: the token it served, and how many tokens the
      session had been given by then. */
  datatype Read = Read(token: string, count: nat)

  /** A run's history: the object each token of a session was put into, and every read. */
  datatype Track = Track(givenTo: map<Id, seq<Ref>>, seen: map<Rid, Read>)

  const UNTRACKED := Track(map[], map[])

  function TrackStep(s: State, tr: Track, a: Action): Track {
    match a
    case Mint(id, _, _) => tr.(givenTo := tr.givenTo[id := [s.nextRef]])
    case Detach(rid, task) => if rid in tr.seen then tr.(seen := tr.seen[task := tr.seen[rid]]) else tr
    case Advance(rid, o) =>
      if rid !in s.reqs then tr
      else
        var r := s.reqs[rid];
        if r.phase.AtGet? && r.cookie in s.rows && s.rows[r.cookie].Snapshot? && r.cookie in s.book.issued then
          tr.(seen := tr.seen[rid := Read(s.rows[r.cookie].session.access, |s.book.issued[r.cookie]|)])
        else if Gives(s, rid, o) && r.hold.Some? && r.cookie in tr.givenTo then
          tr.(givenTo := tr.givenTo[r.cookie := tr.givenTo[r.cookie] + [r.hold.value.ref]])
        else tr
    case _ => tr
  }

  ghost function TrackRun(cfg: Config, s: State, tr: Track, acts: seq<Action>): Track
    decreases |acts|
  {
    if acts == [] || !WellFormed(s) || !Enabled(cfg, s, acts[0]) then tr
    else TrackRun(cfg, Next(cfg, s, acts[0]), TrackStep(s, tr, acts[0]), acts[1..])
  }

  // ---- what an object holds ---------------------------------------------------------------

  /** The token of an object that was read with a token: the last one given to it, if any. */
  function Holding(issued: seq<string>, givenTo: seq<Ref>, ref: Ref, read: string): string
    requires |issued| == |givenTo|
  {
    if issued == [] then read
    else
      var n := |issued| - 1;
      if givenTo[n] == ref then issued[n] else Holding(issued[..n], givenTo[..n], ref, read)
  }

  lemma GivenToIt(issued: seq<string>, givenTo: seq<Ref>, ref: Ref, read: string, token: string, to: Ref)
    requires |issued| == |givenTo|
    ensures Holding(issued + [token], givenTo + [to], ref, read)
            == if to == ref then token else Holding(issued, givenTo, ref, read)
  {
    assert (issued + [token])[..|issued|] == issued && (givenTo + [to])[..|givenTo|] == givenTo;
  }

  lemma {:induction false} NeverGiven(issued: seq<string>, givenTo: seq<Ref>, ref: Ref, read: string)
    requires |issued| == |givenTo| && ref !in givenTo
    ensures Holding(issued, givenTo, ref, read) == read
  {
    if issued != [] {
      var n := |issued| - 1;
      NeverGiven(issued[..n], givenTo[..n], ref, read);
    }
  }

  /** It holds its read token, or one given to it. */
  lemma {:induction false} HeldFrom(issued: seq<string>, givenTo: seq<Ref>, ref: Ref, read: string) returns (k: nat)
    requires |issued| == |givenTo|
    ensures Holding(issued, givenTo, ref, read) == read
         || (k < |issued| && givenTo[k] == ref && Holding(issued, givenTo, ref, read) == issued[k])
  {
    k := 0;
    if issued != [] {
      var n := |issued| - 1;
      if givenTo[n] == ref { k := n; } else { k := HeldFrom(issued[..n], givenTo[..n], ref, read); }
    }
  }

  /** The history of one request's object: it is private, so nothing was given to it before the
      read, and the read token was one of the session's. */
  ghost predicate HistoryOk(issued: seq<string>, givenTo: seq<Ref>, ref: Ref, access: string, read: Read) {
    && |issued| == |givenTo| && 1 <= read.count <= |issued| && read.token in issued[..read.count]
    && (forall i | 0 <= i < read.count :: givenTo[i] != ref)
    && access == Holding(issued, givenTo, ref, read.token)
  }

  ghost predicate Distinct(tokens: seq<string>) {
    forall i, j | 0 <= i < j < |tokens| :: tokens[i] != tokens[j]
  }

  /** The row was up to date at the read and the session has been given no token since, or the
      last token since was given to the request's own object. */
  predicate InOrder(issued: seq<string>, givenTo: seq<Ref>, ref: Ref, read: Read) {
    || (|issued| == read.count && issued != [] && read.token == issued[|issued| - 1])
    || (|issued| > read.count && |issued| == |givenTo| && givenTo[|givenTo| - 1] == ref)
  }

  lemma HoldsTheLatest(issued: seq<string>, givenTo: seq<Ref>, ref: Ref, access: string, read: Read)
    requires HistoryOk(issued, givenTo, ref, access, read) && Distinct(issued)
    ensures access == issued[|issued| - 1] <==> InOrder(issued, givenTo, ref, read)
  {
    var last := |issued| - 1;
    if givenTo[last] != ref {
      var k := HeldFrom(issued, givenTo, ref, read.token);
      if |issued| == read.count {
        NeverGiven(issued, givenTo, ref, read.token);
      } else {
        var j :| 0 <= j < read.count && issued[j] == read.token;
        assert j < last && (k < |givenTo| && givenTo[k] == ref ==> k != last);
      }
    }
  }

  // ---- every run keeps the history ----------------------------------------------------------

  ghost predicate ReqHistory(issued: map<Id, seq<string>>, tr: Track, heap: map<Ref, Session>, rid: Rid, r: Req) {
    r.hold.Some? ==>
      && rid in tr.seen && r.hold.value.ref in heap && r.cookie in issued && r.cookie in tr.givenTo
      && var ref := r.hold.value.ref;
         HistoryOk(issued[r.cookie], tr.givenTo[r.cookie], ref, heap[ref].access, tr.seen[rid])
  }

  ghost predicate GivenOk(nextRef: Ref, issued: seq<string>, givenTo: seq<Ref>) {
    issued != [] && |issued| == |givenTo| && forall i | 0 <= i < |givenTo| :: givenTo[i] < nextRef
  }

  ghost predicate TrackOk(s: State, tr: Track) {
    && (forall id | id in s.rows :: !s.rows[id].Pointer?)
    && tr.givenTo.Keys == s.book.issued.Keys
    && (forall id | id in s.book.issued :: GivenOk(s.nextRef, s.book.issued[id], tr.givenTo[id]))
    && (forall rid | rid in s.reqs :: ReqHistory(s.book.issued, tr, s.heap, rid, s.reqs[rid]))
  }

  /** Tokens and objects as before, apart from lastSeen: so are the histories. */
  lemma QuietStep(s: State, tr: Track, t: State)
    requires TrackOk(s, tr) && t.reqs.Keys == s.reqs.Keys
    requires t.book.issued == s.book.issued && s.nextRef == t.nextRef
    requires forall id | id in t.rows :: !t.rows[id].Pointer?
    requires s.heap.Keys <= t.heap.Keys && forall ref | ref in s.heap :: t.heap[ref].access == s.heap[ref].access
    requires forall i | i in s.reqs :: t.reqs[i].hold == s.reqs[i].hold && t.reqs[i].cookie == s.reqs[i].cookie
    ensures TrackOk(t, tr)
  {
    forall i | i in t.reqs ensures ReqHistory(t.book.issued, tr, t.heap, i, t.reqs[i]) {
      assert ReqHistory(s.book.issued, tr, s.heap, i, s.reqs[i]);
    }
  }

  /** What a read leaves for everybody else. */
  lemma ReadFrame(cfg: Config, s: State, rid: Rid, r: Req, o: Outcome, t: State)
    requires cfg.kind.Durable? && WellFormed(s) && rid in s.reqs && r == s.reqs[rid] && r.phase.AtGet?
    requires (forall id | id in s.rows :: !s.rows[id].Pointer?) && t == Resolve(cfg, s, rid, o)
    ensures t.book == s.book && t.rows == s.rows && t.nextRef >= s.nextRef && t.reqs.Keys == s.reqs.Keys
    ensures forall i | i in s.reqs && i != rid :: t.reqs[i] == s.reqs[i]
    ensures forall ref | ref in s.heap :: ref in t.heap && t.heap[ref] == s.heap[ref]
    ensures t.reqs[rid].cookie == r.cookie
    ensures t.reqs[rid].hold.Some? ==>
            && IsLive(s, r.cookie) && t.reqs[rid].hold.value.ref == s.nextRef
            && s.nextRef in t.heap && t.heap[s.nextRef] == s.rows[r.cookie].session
  {
    assert ReqFits(s.heap, r);
  }

  lemma ReadStep(cfg: Config, s: State, tr: Track, rid: Rid, o: Outcome, t: State)
    requires cfg.kind.Durable? && Inv(s) && TrackOk(s, tr) && rid in s.reqs && s.reqs[rid].phase.AtGet?
    requires t == Resolve(cfg, s, rid, o)
    ensures TrackOk(t, TrackStep(s, tr, Advance(rid, o)))
  {
    var r, tr' := s.reqs[rid], TrackStep(s, tr, Advance(rid, o));
    ReadFrame(cfg, s, rid, r, o, t);
    ReadTracks(s, tr, rid, r, t, tr');
  }

  lemma ReadTracks(s: State, tr: Track, rid: Rid, r: Req, t: State, tr': Track)
    requires Inv(s) && TrackOk(s, tr) && rid in s.reqs && r == s.reqs[rid]
    requires t.book == s.book && t.rows == s.rows && t.nextRef >= s.nextRef && t.reqs.Keys == s.reqs.Keys
    requires forall i | i in s.reqs && i != rid :: t.reqs[i] == s.reqs[i]
    requires forall ref | ref in s.heap :: ref in t.heap && t.heap[ref] == s.heap[ref]
    requires t.reqs[rid].cookie == r.cookie && tr'.givenTo == tr.givenTo
    requires forall i | i in tr.seen && i != rid :: i in tr'.seen && tr'.seen[i] == tr.seen[i]
    requires t.reqs[rid].hold.Some? ==>
             && IsLive(s, r.cookie) && t.reqs[rid].hold.value.ref == s.nextRef && r.cookie in s.book.issued
             && s.nextRef in t.heap && t.heap[s.nextRef] == s.rows[r.cookie].session && rid in tr'.seen
             && tr'.seen[rid] == Read(s.rows[r.cookie].session.access, |s.book.issued[r.cookie]|)
    ensures TrackOk(t, tr')
  {
    forall i | i in t.reqs ensures ReqHistory(t.book.issued, tr', t.heap, i, t.reqs[i]) {
      if i != rid {
        assert ReqHistory(s.book.issued, tr, s.heap, i, s.reqs[i]);
      } else if t.reqs[i].hold.Some? {
        FreshRead(s, tr, r.cookie, tr'.seen[i]);
      }
    }
    forall id | id in t.book.issued ensures GivenOk(t.nextRef, t.book.issued[id], tr'.givenTo[id]) {
      assert GivenOk(s.nextRef, s.book.issued[id], tr.givenTo[id]);
    }
  }

  lemma FreshRead(s: State, tr: Track, id: Id, read: Read)
    requires Inv(s) && TrackOk(s, tr) && IsLive(s, id) && id in s.book.issued
    requires s.rows[id].Snapshot? && read == Read(s.rows[id].session.access, |s.book.issued[id]|)
    ensures HistoryOk(s.book.issued[id], tr.givenTo[id], s.nextRef, s.rows[id].session.access, read)
  {
    var issued, givenTo := s.book.issued[id], tr.givenTo[id];
    assert SessionOk(s.book, s.rows[id].session) && RowFits(s.heap, s.book, id, s.rows[id]);
    assert GivenOk(s.nextRef, issued, givenTo) && issued[..|issued|] == issued;
    NeverGiven(issued, givenTo, s.nextRef, read.token);
  }

  lemma HistoryGrows(issued: seq<string>, givenTo: seq<Ref>, ref: Ref, access: string, read: Read, token: string,
                     to: Ref)
    requires HistoryOk(issued, givenTo, ref, access, read)
    ensures HistoryOk(issued + [token], givenTo + [to], ref, if to == ref then token else access, read)
  {
    GivenToIt(issued, givenTo, ref, read.token, token, to);
    assert (issued + [token])[..read.count] == issued[..read.count];
  }

  lemma GiveStep(s: State, tr: Track, rid: Rid, token: string, deed: Deed, t: State, tr': Track)
    requires Inv(s) && TrackOk(s, tr) && rid in s.reqs && s.reqs[rid].hold.Some?
    requires var r := s.reqs[rid];
             && r.hold.value.ref in s.heap && s.heap[r.hold.value.ref].id == r.cookie && r.cookie in s.book.issued
             && t == SetTokens(s, rid, r.hold.value.ref, token, deed)
             && tr' == tr.(givenTo := tr.givenTo[r.cookie := tr.givenTo[r.cookie] + [r.hold.value.ref]])
    ensures TrackOk(t, tr')
  {
    var id, to := s.reqs[rid].cookie, s.reqs[rid].hold.value.ref;
    assert to < s.nextRef && GivenOk(s.nextRef, s.book.issued[id], tr.givenTo[id]);
    forall i | i in t.reqs ensures ReqHistory(t.book.issued, tr', t.heap, i, t.reqs[i]) {
      var r := s.reqs[i];
      assert ReqHistory(s.book.issued, tr, s.heap, i, r) && ReqFits(s.heap, r);
      if r.hold.Some? && r.cookie == id {
        var ref := r.hold.value.ref;
        HistoryGrows(s.book.issued[id], tr.givenTo[id], ref, s.heap[ref].access, tr.seen[i], token, to);
      }
    }
    forall i | i in t.book.issued ensures GivenOk(t.nextRef, t.book.issued[i], tr'.givenTo[i]) {
      assert GivenOk(s.nextRef, s.book.issued[i], tr.givenTo[i]);
    }
  }

  /** A step that hands out no token. */
  ghost predicate NoToken(s: State, u: State) {
    && u.book.issued == s.book.issued && u.nextRef == s.nextRef && u.reqs == s.reqs
    && (forall ref | ref in s.heap :: ref in u.heap && u.heap[ref].access == s.heap[ref].access)
    && (forall id | id in u.rows && u.rows[id].Pointer? :: id in s.rows && s.rows[id].Pointer?)
  }

  lemma NothingGiven(cfg: Config, s: State, rid: Rid, r: Req, o: Outcome, u: State)
    requires cfg.kind.Durable? && !Gives(s, rid, o)
    requires rid in s.reqs && r == s.reqs[rid] && r.hold.Some? && ReqFits(s.heap, r) && r.cookie in s.book.issued
    requires u == Touches(cfg, s, rid, o)
    ensures NoToken(s, u)
  {
    if AtAnyPut(r) {
      PutTouch(cfg, s, rid, r, o, u);
    } else if AtAnyDelete(r) {
      DeleteTouch(cfg, s, rid, r, o, u);
    } else if r.phase.AtRevoke? {
      RevokingTouch(cfg, s, rid, r, o, u);
    } else {
      QuietTouch(cfg, s, rid, r, o, u);
    }
  }

  lemma TouchStep(cfg: Config, s: State, tr: Track, rid: Rid, r: Req, o: Outcome, u: State)
    requires cfg.kind.Durable? && Inv(s) && TrackOk(s, tr)
    requires rid in s.reqs && r == s.reqs[rid] && r.hold.Some? && ReqFits(s.heap, r) && r.cookie in s.book.issued
    requires u == Touches(cfg, s, rid, o) && !r.phase.AtGet?
    ensures TrackOk(u, TrackStep(s, tr, Advance(rid, o)))
  {
    if Gives(s, rid, o) {
      GivingTouch(cfg, s, rid, r, o, u);
      var deed := if r.phase.AtEnsure? then Refreshed else SteppedUp;
      GiveStep(s, tr, rid, Given(o), deed, u, TrackStep(s, tr, Advance(rid, o)));
    } else {
      NothingGiven(cfg, s, rid, r, o, u);
      QuietStep(s, tr, u);
    }
  }

  lemma MintStep(cfg: Config, s: State, tr: Track, a: Action, t: State)
    requires cfg.kind.Durable? && Inv(s) && TrackOk(s, tr) && a.Mint? && Enabled(cfg, s, a) && t == Next(cfg, s, a)
    ensures TrackOk(t, TrackStep(s, tr, a))
  {
    var tr' := TrackStep(s, tr, a);
    forall rid | rid in t.reqs ensures ReqHistory(t.book.issued, tr', t.heap, rid, t.reqs[rid]) {
      assert ReqHistory(s.book.issued, tr, s.heap, rid, s.reqs[rid]) && ReqFits(s.heap, s.reqs[rid]);
    }
    forall id | id in t.book.issued ensures GivenOk(t.nextRef, t.book.issued[id], tr'.givenTo[id]) {
      assert id in s.book.issued ==> GivenOk(s.nextRef, s.book.issued[id], tr.givenTo[id]);
    }
  }

  lemma ComingStep(s: State, tr: Track, rid: Rid, r: Req, tr': Track)
    requires TrackOk(s, tr) && rid !in s.reqs && tr'.givenTo == tr.givenTo
    requires forall i | i in tr.seen && i != rid :: i in tr'.seen && tr'.seen[i] == tr.seen[i]
    requires ReqHistory(s.book.issued, tr', s.heap, rid, r)
    ensures TrackOk(s.(reqs := s.reqs[rid := r]), tr')
  {
    forall i | i in s.reqs ensures ReqHistory(s.book.issued, tr', s.heap, i, s.reqs[i]) {
      assert ReqHistory(s.book.issued, tr, s.heap, i, s.reqs[i]);
    }
  }

  lemma AdvanceTracks(cfg: Config, s: State, tr: Track, rid: Rid, o: Outcome, t: State)
    requires cfg.kind.Durable? && Inv(s) && TrackOk(s, tr) && Enabled(cfg, s, Advance(rid, o))
             && !s.reqs[rid].phase.AtGet?
    requires t == Next(cfg, s, Advance(rid, o))
    ensures TrackOk(t, TrackStep(s, tr, Advance(rid, o)))
  {
    assert ReqFits(s.heap, s.reqs[rid]);
    var u := Touches(cfg, s, rid, o);
    TouchStep(cfg, s, tr, rid, s.reqs[rid], o, u);
    TouchesFrame(cfg, s, rid, o);
    QuietStep(u, TrackStep(s, tr, Advance(rid, o)), t);
  }

  lemma NextTracks(cfg: Config, s: State, tr: Track, a: Action, t: State)
    requires cfg.kind.Durable? && Inv(s) && TrackOk(s, tr) && Enabled(cfg, s, a) && t == Next(cfg, s, a)
    ensures TrackOk(t, TrackStep(s, tr, a))
  {
    match a {
      case Mint(_, _, _) => MintStep(cfg, s, tr, a, t);
      case Arrive(rid, handler, cookie, header) =>
        ComingStep(s, tr, rid, Req(handler, cookie, header, AtGet, None), tr);
      case Detach(rid, task) =>
        assert ReqHistory(s.book.issued, tr, s.heap, rid, s.reqs[rid]) && ReqFits(s.heap, s.reqs[rid]);
        ComingStep(s, tr, task, s.reqs[rid].(handler := Refresher), TrackStep(s, tr, a));
      case Advance(rid, o) =>
        if s.reqs[rid].phase.AtGet? { ReadStep(cfg, s, tr, rid, o, t); } else { AdvanceTracks(cfg, s, tr, rid, o, t); }
      case _ => QuietStep(s, tr, t);
    }
  }

  lemma {:induction false} RunTracks(cfg: Config, d: Discipline, s: State, tr: Track, acts: seq<Action>, t: State)
    requires cfg.kind.Durable? && Inv(s) && TrackOk(s, tr) && Leads(cfg, d, s, acts, t)
    ensures TrackOk(t, TrackRun(cfg, s, tr, acts))
    decreases |acts|
  {
    if acts != [] {
      var u := Next(cfg, s, acts[0]);
      NextKeeps(cfg, s, acts[0]);
      NextTracks(cfg, s, tr, acts[0], u);
      RunTracks(cfg, d, u, TrackStep(s, tr, acts[0]), acts[1..], t);
    }
  }

  // ---- who serves whose token -----------------------------------------------------------------

  /** Of every request that holds a session, at any step: its copy has the session's latest token
      exactly when the order says so. */
  lemma CopyIsTheLatest(cfg: Config, acts: seq<Action>, s: State, tr: Track, rid: Rid)
    requires cfg.kind.Durable? && Leads(cfg, ANY_RUN, INIT, acts, s) && tr == TrackRun(cfg, INIT, UNTRACKED, acts)
    requires rid in s.reqs && s.reqs[rid].hold.Some?
    requires s.reqs[rid].cookie in s.book.issued && Distinct(s.book.issued[s.reqs[rid].cookie])
    ensures Inv(s) && TrackOk(s, tr) && rid in tr.seen && s.reqs[rid].hold.value.ref in s.heap
    ensures var id, ref := s.reqs[rid].cookie, s.reqs[rid].hold.value.ref;
            && id in tr.givenTo && s.book.issued[id] != []
            && (s.heap[ref].access == Last(s.book.issued[id])
                <==> InOrder(s.book.issued[id], tr.givenTo[id], ref, tr.seen[rid]))
  {
    RunKeeps(cfg, ANY_RUN, INIT, acts, s);
    RunTracks(cfg, ANY_RUN, INIT, UNTRACKED, acts, s);
    var r := s.reqs[rid];
    assert ReqHistory(s.book.issued, tr, s.heap, rid, r);
    var ref := r.hold.value.ref;
    HoldsTheLatest(s.book.issued[r.cookie], tr.givenTo[r.cookie], ref, s.heap[ref].access, tr.seen[rid]);
  }
}
