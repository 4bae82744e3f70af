/** Why a handler answered what it answered: every answer of every finished request is explained
    by what its own calls brought, and a session ends for the reasons given in the source only. */
module SessionStories {
  import opened Options
  import opened SessionProtocol
  import opened SessionSafety
  import opened SessionTheorems
  import opened SessionAnswers

  /** What a request's own calls brought so far: the write-back of the slid window, EnsureFresh and
      the write-back of what it refreshed, the step-up's upstream and its write-back, and the delete;
      and whether the tokens were revoked. */
  datatype Story = Story(slide: Option<Outcome>, refresh: Option<Outcome>, saved: Option<Outcome>,
                         upstream: Option<Outcome>, stored: Option<Outcome>, deleted: Option<Outcome>, revoked: bool)

  const UNTOLD := Story(None, None, None, None, None, None, false)

  type Stories = map<Rid, Story>

  function Of(stories: Stories, rid: Rid): Story {
    if rid in stories then stories[rid] else UNTOLD
  }

  /** What a step at the given phase adds to its request's story. */
  function Told(phase: Phase, story: Story, o: Outcome): Story {
    match phase
    case AtPut => story.(slide := Some(o))
    case AtEnsure => story.(refresh := Some(o))
    case AtPutFresh => story.(saved := Some(o))
    case AtUpstream => story.(upstream := Some(o))
    case AtPutElevated => story.(stored := Some(o))
    case AtRevoke => story.(revoked := true)
    case AtDelete(_) | AtFatalDelete => story.(deleted := Some(o))
    case _ => story
  }

  function StoryStep(s: State, stories: Stories, a: Action): Stories {
    match a
    case Arrive(rid, _, _, _) => stories[rid := UNTOLD]
    case Detach(rid, task) => stories[task := Of(stories, rid)]
    case Advance(rid, o) =>
      if rid in s.reqs then stories[rid := Told(s.reqs[rid].phase, Of(stories, rid), o)] else stories
    case _ => stories
  }

  ghost function StoryRun(cfg: Config, s: State, stories: Stories, acts: seq<Action>): Stories
    decreases |acts|
  {
    if acts == [] || !WellFormed(s) || !Enabled(cfg, s, acts[0]) then stories
    else StoryRun(cfg, Next(cfg, s, acts[0]), StoryStep(s, stories, acts[0]), acts[1..])
  }

  // ---- what the answers mean --------------------------------------------------------------

  /** The access token is fresh: it was, or a refresh brought a new one. */
  predicate IsFresh(refresh: Option<Outcome>) {
    refresh.Some? && (refresh.value.Done? || (refresh.value.NewToken? && refresh.value.access != ""))
  }

  predicate IsRejected(refresh: Option<Outcome>) {
    refresh == Some(Rejected)
  }

  /** The upstream's answer to a step-up, and what the browser is told. */
  predicate StepUpTold(upstream: Outcome, status: int) {
    match upstream
    case BadRequest => status == 500
    case NoReply => status == 502
    case Reply(code, parsed, token, expiresIn) =>
      if code == 200 then status == if parsed && token != "" && expiresIn > 0 then 204 else 502
      else status == if 400 <= code <= 499 then code else 502
    case _ => status == 502
  }

  /** Nothing but the window was touched. */
  predicate OnlySlid(story: Story) {
    story == UNTOLD.(slide := story.slide)
  }

  /** The answer of a handler that goes through EnsureFresh: a new token is written back, a rejected
      refresh deletes the session, and any other failure does nothing. */
  predicate RefreshTold(story: Story, status: int) {
    && story.refresh.Some? && !story.revoked
    && (story.saved.Some? <==> story.refresh.value.NewToken? && IsFresh(story.refresh))
    && (story.deleted.Some? <==> IsRejected(story.refresh))
    && (IsRejected(story.refresh) ==> status == 401)
    && (!IsRejected(story.refresh) && !IsFresh(story.refresh) ==> status == 502)
  }

  /** Every finished request that found its session, by handler. */
  predicate Explained(r: Req, matches: bool, story: Story, status: int) {
    && story.slide.Some?
    && match r.handler
       case SessionInfo => status == 200 && OnlySlid(story)
       case Logout =>
         if matches
         then (status == 204 || status == 500) && OnlySlid(story.(revoked := false, deleted := None))
              && story.revoked && story.deleted.Some?
         else status == 403 && OnlySlid(story)
       case Elevate =>
         if !matches then status == 403 && OnlySlid(story)
         else
           && RefreshTold(story, status)
           && (story.upstream.Some? <==> IsFresh(story.refresh))
           && (story.stored.Some? <==> story.upstream.Some? && StepUpTold(story.upstream.value, 204))
           && (story.upstream.Some? ==> StepUpTold(story.upstream.value, status))
       case Gateway | Refresher =>
         && RefreshTold(story, status) && (IsFresh(story.refresh) ==> status == 200)
         && story.upstream.None? && story.stored.None?
  }

  /** And every one that found none. */
  predicate Unresolved(handler: Handler, story: Story, status: int) {
    && story == UNTOLD
    && match handler
       case SessionInfo => status == 200
       case Logout => status == 204
       case Elevate | Gateway | Refresher => status == 401
  }

  // ---- the invariant ------------------------------------------------------------------------

  predicate StoryOk(r: Req, matches: bool, story: Story) {
    match r.phase
    case AtGet | AtTouch | AtPut => story == UNTOLD
    case AtCheck | AtRevoke | AtEnsure => story.slide.Some? && OnlySlid(story)
    case AtLoad | AtDelete(_) => story.slide.Some? && OnlySlid(story.(revoked := false)) && story.revoked
    case AtCompare(_) =>
      && story.slide.Some? && OnlySlid(story.(revoked := false, deleted := None))
      && story.revoked && story.deleted.Some?
    case AtPutFresh =>
      && story.slide.Some? && OnlySlid(story.(refresh := None))
      && IsFresh(story.refresh) && story.refresh.value.NewToken?
    case AtFatalDelete => story.slide.Some? && OnlySlid(story.(refresh := None)) && IsRejected(story.refresh)
    case AtUpstream =>
      && story.slide.Some? && OnlySlid(story.(refresh := None, saved := None)) && IsFresh(story.refresh)
      && (story.saved.Some? <==> story.refresh.value.NewToken?)
    case AtPutElevated =>
      && story.slide.Some? && OnlySlid(story.(refresh := None, saved := None, upstream := None))
      && IsFresh(story.refresh) && (story.saved.Some? <==> story.refresh.value.NewToken?)
      && story.upstream.Some? && StepUpTold(story.upstream.value, 204)
    case Answered(status) =>
      if r.hold.Some? then Explained(r, matches, story, status) else Unresolved(r.handler, story, status)
  }

  ghost predicate StoriesOk(s: State, stories: Stories) {
    forall rid | rid in s.reqs :: StoryOk(s.reqs[rid], Matches(s.book, s.reqs[rid]), Of(stories, rid))
  }

  predicate InEnsureOrLater(r: Req) {
    r.phase.AtEnsure? || r.phase.AtPutFresh? || r.phase.AtFatalDelete? || r.phase.AtUpstream? || r.phase.AtPutElevated?
  }

  lemma RefreshMoves(s: State, r: Req, o: Outcome, matches: bool, story: Story)
    requires r.hold.Some? && r.hold.value.ref in s.heap && InEnsureOrLater(r) && OnPath(r)
    requires StoryOk(r, matches, story) && (r.handler.Elevate? ==> matches)
    ensures StoryOk(r.(phase := NextPhase(s, r, o)), matches, Told(r.phase, story, o))
  {
  }

  lemma OtherMoves(s: State, r: Req, o: Outcome, matches: bool, story: Story)
    requires r.hold.Some? && r.hold.value.ref in s.heap && !InEnsureOrLater(r) && OnPath(r)
    requires !r.phase.AtGet? && !r.phase.Answered? && StoryOk(r, matches, story)
    requires r.phase.AtCheck? ==> matches == (r.header != "" && r.header == s.heap[r.hold.value.ref].csrf)
    requires r.phase.AtCompare? ==> matches
    ensures StoryOk(r.(phase := NextPhase(s, r, o)), matches, Told(r.phase, story, o))
  {
  }

  lemma HolderFits(s: State, rid: Rid, r: Req)
    requires Inv(s) && rid in s.reqs && r == s.reqs[rid] && InFlight(r)
    ensures r.hold.value.ref in s.heap && ReqFits(s.heap, r) && ReqOk(s.book, r)
    ensures r.cookie in s.book.issued && r.cookie in s.book.csrfOf
    ensures s.heap[r.hold.value.ref].csrf == s.book.csrfOf[r.cookie]
  {
    assert SessionOk(s.book, s.heap[r.hold.value.ref]);
  }

  /** A request's own step. */
  lemma OwnStory(s: State, r: Req, o: Outcome, story: Story)
    requires InFlight(r) && r.hold.value.ref in s.heap && !r.phase.AtGet? && OnPath(r) && ReqOk(s.book, r)
    requires r.cookie in s.book.csrfOf && s.heap[r.hold.value.ref].csrf == s.book.csrfOf[r.cookie]
    requires StoryOk(r, Matches(s.book, r), story)
    ensures StoryOk(r.(phase := NextPhase(s, r, o)), Matches(s.book, r), Told(r.phase, story, o))
  {
    if InEnsureOrLater(r) {
      RefreshMoves(s, r, o, Matches(s.book, r), story);
    } else {
      OtherMoves(s, r, o, Matches(s.book, r), story);
    }
  }

  lemma AdvanceStory(cfg: Config, s: State, stories: Stories, rid: Rid, o: Outcome, t: State)
    requires Inv(s) && PathsOk(s) && StoriesOk(s, stories) && Enabled(cfg, s, Advance(rid, o))
    requires !s.reqs[rid].phase.AtGet? && t == Next(cfg, s, Advance(rid, o))
    ensures StoriesOk(t, StoryStep(s, stories, Advance(rid, o)))
  {
    var r, stories' := s.reqs[rid], StoryStep(s, stories, Advance(rid, o));
    assert ReqFits(s.heap, r) && OnPath(r);
    HolderFits(s, rid, r);
    TouchesFrame(cfg, s, rid, o);
    OwnStory(s, r, o, Of(stories, rid));
    forall i | i in t.reqs ensures StoryOk(t.reqs[i], Matches(t.book, t.reqs[i]), Of(stories', i)) {
      if i != rid {
        assert t.reqs[i] == s.reqs[i] && Of(stories', i) == Of(stories, i);
      }
    }
  }

  lemma ReadStory(cfg: Config, s: State, stories: Stories, rid: Rid, o: Outcome, t: State)
    requires Inv(s) && StoriesOk(s, stories) && Enabled(cfg, s, Advance(rid, o))
    requires s.reqs[rid].phase.AtGet? && t == Next(cfg, s, Advance(rid, o))
    ensures StoriesOk(t, stories)
  {
    assert ReqFits(s.heap, s.reqs[rid]) && t.book == s.book;
    forall i | i in t.reqs ensures StoryOk(t.reqs[i], Matches(t.book, t.reqs[i]), Of(stories, i)) {
      assert StoryOk(s.reqs[i], Matches(s.book, s.reqs[i]), Of(stories, i));
      if i != rid { assert t.reqs[i] == s.reqs[i]; }
    }
  }

  /** Sessions come and go without changing whose CSRF token a waiting request presented. */
  lemma MintStory(cfg: Config, s: State, stories: Stories, a: Action, t: State)
    requires Inv(s) && StoriesOk(s, stories) && a.Mint? && Enabled(cfg, s, a) && t == Next(cfg, s, a)
    ensures StoriesOk(t, stories)
  {
    forall i | i in t.reqs ensures StoryOk(t.reqs[i], Matches(t.book, t.reqs[i]), Of(stories, i)) {
      assert ReqFits(s.heap, s.reqs[i]);
      assert s.reqs[i].hold.Some? ==> s.reqs[i].cookie in s.book.csrfOf;
    }
  }

  lemma NextStory(cfg: Config, s: State, stories: Stories, a: Action, t: State)
    requires Inv(s) && PathsOk(s) && StoriesOk(s, stories) && Enabled(cfg, s, a) && t == Next(cfg, s, a)
    ensures StoriesOk(t, StoryStep(s, stories, a))
  {
    match a {
      case Mint(_, _, _) => MintStory(cfg, s, stories, a, t);
      case Advance(rid, o) =>
        if s.reqs[rid].phase.AtGet? {
          ReadStory(cfg, s, stories, rid, o, t);
        } else {
          AdvanceStory(cfg, s, stories, rid, o, t);
        }
      case _ =>
    }
  }

  lemma {:induction false} RunStory(cfg: Config, d: Discipline, s: State, stories: Stories, acts: seq<Action>, t: State)
    requires Inv(s) && AnswersOk(s) && PathsOk(s) && StoriesOk(s, stories) && Leads(cfg, d, s, acts, t)
    ensures StoriesOk(t, StoryRun(cfg, s, stories, acts))
    decreases |acts|
  {
    if acts != [] {
      var u := Next(cfg, s, acts[0]);
      NextKeeps(cfg, s, acts[0]);
      NextAnswers(cfg, s, acts[0], u);
      NextStory(cfg, s, stories, acts[0], u);
      RunStory(cfg, d, u, StoryStep(s, stories, acts[0]), acts[1..], t);
    }
  }

  // ---- the theorems -----------------------------------------------------------------------------

  /** In every reachable state, every finished request's status is explained by its own calls: which
      session it found, whether it presented that session's CSRF token, what the refresh and what
      the upstream brought. */
  lemma EveryAnswerIsExplained(cfg: Config, acts: seq<Action>, s: State, rid: Rid)
    requires Leads(cfg, ANY_RUN, INIT, acts, s) && rid in s.reqs && s.reqs[rid].phase.Answered?
    ensures var r, story := s.reqs[rid], Of(StoryRun(cfg, INIT, map[], acts), rid);
            if r.hold.Some? then Explained(r, Matches(s.book, r), story, r.phase.status)
            else Unresolved(r.handler, story, r.phase.status)
  {
    RunStory(cfg, ANY_RUN, INIT, map[], acts, s);
  }

  /** A session is found exactly when the store still serves it and the statement goes through. */
  lemma FindsExactlyIf(cfg: Config, s: State, rid: Rid, o: Outcome, t: State)
    requires WellFormed(s) && Enabled(cfg, s, Advance(rid, o)) && s.reqs[rid].phase.AtGet?
    requires t == Next(cfg, s, Advance(rid, o))
    ensures t.reqs[rid].hold.Some? <==> o.Done? && IsLive(s, s.reqs[rid].cookie)
    ensures t.reqs[rid].hold.Some? ==> Served(s, s.reqs[rid].cookie) == t.heap[t.reqs[rid].hold.value.ref]
  {
    assert ReqFits(s.heap, s.reqs[rid]);
    assert IsLive(s, s.reqs[rid].cookie) ==> RowFits(s.heap, s.book, s.reqs[rid].cookie, s.rows[s.reqs[rid].cookie]);
  }

  /** A sign-in stores its session: it is served from then on, with its tokens and seen just now. */
  lemma SignInIsServed(cfg: Config, s: State, id: Id, csrf: string, access: string, t: State)
    requires WellFormed(s) && Enabled(cfg, s, Mint(id, csrf, access)) && t == Next(cfg, s, Mint(id, csrf, access))
    requires WellFormed(t)
    ensures IsLive(t, id) && Served(t, id) == Session(id, csrf, access, s.clock)
    ensures forall other | other != id :: IsLive(t, other) <==> IsLive(s, other)
  {
  }

  /** The reasons for which a live session ends. */
  predicate EndsFor(s: State, stories: Stories, a: Action, id: Id) {
    match a
    case Sweep(expired) => id in expired
    case Advance(rid, o) =>
      && rid in s.reqs && s.reqs[rid].cookie == id && !o.Failed?
      && ((s.reqs[rid].phase.AtDelete? && s.reqs[rid].handler.Logout? && Matches(s.book, s.reqs[rid]))
          || (s.reqs[rid].phase.AtFatalDelete? && IsRejected(Of(stories, rid).refresh)))
    case _ => false
  }

  lemma EndsAreExplained(s: State, stories: Stories, rid: Rid, r: Req, o: Outcome, id: Id)
    requires rid in s.reqs && r == s.reqs[rid] && OnPath(r) && ReqOk(s.book, r)
    requires StoryOk(r, Matches(s.book, r), Of(stories, rid))
    ensures EndsBy(s, Advance(rid, o), id) <==> EndsFor(s, stories, Advance(rid, o), id)
  {
  }

  /** Over every run a live session ends exactly by expiry, by a logout that presented its CSRF
      token, or by a request whose own refresh the issuer rejected. */
  lemma SessionsEndExactlyFor(cfg: Config, acts: seq<Action>, s: State, stories: Stories, a: Action, id: Id)
    requires Leads(cfg, ANY_RUN, INIT, acts, s) && WellFormed(s) && Enabled(cfg, s, a) && IsLive(s, id)
    requires stories == StoryRun(cfg, INIT, map[], acts)
    ensures !IsLive(Next(cfg, s, a), id) <==> EndsFor(s, stories, a, id)
  {
    RunStory(cfg, ANY_RUN, INIT, map[], acts, s);
    RunAnswers(cfg, ANY_RUN, INIT, acts, s);
    RunKeeps(cfg, ANY_RUN, INIT, acts, s);
    OnlyTheseEndASession(cfg, acts, s, a, id);
    if a.Advance? { EndsAreExplained(s, stories, a.rid, s.reqs[a.rid], a.outcome, id); }
  }

  /** A transient refresh failure answers 502 and changes nothing else. */
  lemma TransientFailureChangesNothing(cfg: Config, s: State, rid: Rid, t: State)
    requires WellFormed(s) && rid in s.reqs && s.reqs[rid].phase.AtEnsure?
    requires t == Next(cfg, s, Advance(rid, Transient))
    ensures t.reqs[rid].phase == Answered(502) && t == s.(reqs := t.reqs)
    ensures t.reqs == s.reqs[rid := s.reqs[rid].(phase := Answered(502))]
  {
    assert ReqFits(s.heap, s.reqs[rid]);
  }

  /** So does an upstream that brings no usable token, apart from the status. */
  lemma UpstreamFailureChangesNothing(cfg: Config, s: State, rid: Rid, o: Outcome, t: State)
    requires WellFormed(s) && Enabled(cfg, s, Advance(rid, o)) && s.reqs[rid].phase.AtUpstream?
    requires !StepUpTold(o, 204) && t == Next(cfg, s, Advance(rid, o))
    ensures t.reqs[rid].phase.Answered? && StepUpTold(o, t.reqs[rid].phase.status)
    ensures t == s.(reqs := s.reqs[rid := s.reqs[rid].(phase := t.reqs[rid].phase)])
  {
    assert ReqFits(s.heap, s.reqs[rid]);
  }

  // ---- the idle window ------------------------------------------------------------------------

  /** Whoever is past the touch holds an object that was seen when it was read, or later. */
  predicate Slid(heap: map<Ref, Session>, clock: int, r: Req) {
    r.hold.Some? ==>
      && r.hold.value.since <= clock
      && (!r.phase.AtTouch? ==> r.hold.value.ref in heap && r.hold.value.since <= heap[r.hold.value.ref].lastSeen)
  }

  predicate SeenBy(clock: int, row: Row) {
    row.Snapshot? ==> row.session.lastSeen <= clock
  }

  ghost predicate WindowsSlid(s: State) {
    && (forall ref | ref in s.heap :: s.heap[ref].lastSeen <= s.clock)
    && (forall id | id in s.rows :: SeenBy(s.clock, s.rows[id]))
    && (forall rid | rid in s.reqs :: Slid(s.heap, s.clock, s.reqs[rid]))
  }

  /** The touch sets the last use of the object held to the time of the step; no other step of a
      holder changes it. */
  lemma OnlyTheTouchSlides(cfg: Config, s: State, rid: Rid, r: Req, o: Outcome, u: State)
    requires rid in s.reqs && r == s.reqs[rid] && r.hold.Some? && ReqFits(s.heap, r) && r.cookie in s.book.issued
    requires u == Touches(cfg, s, rid, o)
    ensures u.heap.Keys == s.heap.Keys && u.clock == s.clock && u.reqs == s.reqs
    ensures forall ref | ref in s.heap ::
              u.heap[ref].lastSeen ==
              if r.phase.AtTouch? && ref == r.hold.value.ref then s.clock else s.heap[ref].lastSeen
    ensures forall id | id in u.rows && u.rows[id].Snapshot? ::
              u.rows[id].session == s.heap[r.hold.value.ref] || (id in s.rows && u.rows[id] == s.rows[id])
  {
    if AtAnyPut(r) {
      PutTouch(cfg, s, rid, r, o, u);
    } else if AtAnyDelete(r) {
      DeleteTouch(cfg, s, rid, r, o, u);
    } else if Gives(s, rid, o) {
      GivingTouch(cfg, s, rid, r, o, u);
    } else if r.phase.AtRevoke? {
      RevokingTouch(cfg, s, rid, r, o, u);
    } else {
      QuietTouch(cfg, s, rid, r, o, u);
    }
  }

  lemma HolderWindows(cfg: Config, s: State, rid: Rid, r: Req, o: Outcome, t: State)
    requires Inv(s) && WindowsSlid(s) && Enabled(cfg, s, Advance(rid, o)) && r == s.reqs[rid] && !r.phase.AtGet?
    requires t == Next(cfg, s, Advance(rid, o))
    ensures WindowsSlid(t)
  {
    assert ReqFits(s.heap, r) && Slid(s.heap, s.clock, r);
    var u := Touches(cfg, s, rid, o);
    OnlyTheTouchSlides(cfg, s, rid, r, o, u);
    forall id | id in t.rows ensures SeenBy(t.clock, t.rows[id]) {
      assert id in s.rows ==> SeenBy(s.clock, s.rows[id]);
    }
    forall i | i in t.reqs ensures Slid(t.heap, t.clock, t.reqs[i]) {
      assert Slid(s.heap, s.clock, s.reqs[i]) && ReqFits(s.heap, s.reqs[i]);
    }
  }

  lemma ReadWindows(cfg: Config, s: State, rid: Rid, r: Req, o: Outcome, t: State)
    requires Inv(s) && WindowsSlid(s) && Enabled(cfg, s, Advance(rid, o)) && r == s.reqs[rid] && r.phase.AtGet?
    requires t == Next(cfg, s, Advance(rid, o))
    ensures WindowsSlid(t)
  {
    assert ReqFits(s.heap, r);
    assert IsLive(s, r.cookie) ==> SeenBy(s.clock, s.rows[r.cookie]);
    assert IsLive(s, r.cookie) ==> RowFits(s.heap, s.book, r.cookie, s.rows[r.cookie]);
    assert t.rows == s.rows;
    forall i | i in t.reqs ensures Slid(t.heap, t.clock, t.reqs[i]) {
      assert Slid(s.heap, s.clock, s.reqs[i]) && ReqFits(s.heap, s.reqs[i]);
    }
  }

  lemma RestWindows(cfg: Config, s: State, a: Action, t: State)
    requires Inv(s) && WindowsSlid(s) && Enabled(cfg, s, a) && t == Next(cfg, s, a) && !a.Advance?
    ensures WindowsSlid(t)
  {
    forall id | id in t.rows ensures SeenBy(t.clock, t.rows[id]) {
      assert id in s.rows ==> SeenBy(s.clock, s.rows[id]);
    }
    forall i | i in t.reqs ensures Slid(t.heap, t.clock, t.reqs[i]) {
      assert i in s.reqs ==> Slid(s.heap, s.clock, s.reqs[i]) && ReqFits(s.heap, s.reqs[i]);
      assert a.Detach? ==> Slid(s.heap, s.clock, s.reqs[a.rid]);
    }
  }

  lemma NextWindows(cfg: Config, s: State, a: Action, t: State)
    requires Inv(s) && WindowsSlid(s) && Enabled(cfg, s, a) && t == Next(cfg, s, a)
    ensures WindowsSlid(t)
  {
    if !a.Advance? {
      RestWindows(cfg, s, a, t);
    } else if s.reqs[a.rid].phase.AtGet? {
      ReadWindows(cfg, s, a.rid, s.reqs[a.rid], a.outcome, t);
    } else {
      HolderWindows(cfg, s, a.rid, s.reqs[a.rid], a.outcome, t);
    }
  }

  lemma {:induction false} RunWindows(cfg: Config, d: Discipline, s: State, acts: seq<Action>, t: State)
    requires Inv(s) && WindowsSlid(s) && Leads(cfg, d, s, acts, t)
    ensures Inv(t) && WindowsSlid(t)
    decreases |acts|
  {
    if acts != [] {
      var u := Next(cfg, s, acts[0]);
      NextKeeps(cfg, s, acts[0]);
      NextWindows(cfg, s, acts[0], u);
      RunWindows(cfg, d, u, acts[1..], t);
    }
  }

  /** Over every run, whichever write-back of a request goes through over no tombstone leaves a
      live session whose idle window reaches at least to the moment the request read it. */
  lemma UseSlidesTheWindow(cfg: Config, acts: seq<Action>, s: State, rid: Rid, r: Req, o: Outcome, t: State)
    requires Leads(cfg, ANY_RUN, INIT, acts, s) && WellFormed(s) && Enabled(cfg, s, Advance(rid, o))
    requires r == s.reqs[rid] && AtAnyPut(r) && !o.Failed? && t == Next(cfg, s, Advance(rid, o)) && WellFormed(t)
    requires r.cookie in s.rows ==> !s.rows[r.cookie].Tombstone?
    ensures IsLive(t, r.cookie) && r.hold.value.since <= Served(t, r.cookie).lastSeen <= t.clock
  {
    RunWindows(cfg, ANY_RUN, INIT, acts, s);
    assert ReqFits(s.heap, r) && Slid(s.heap, s.clock, r);
    PutTouch(cfg, s, rid, r, o, Touches(cfg, s, rid, o));
  }

  // ---- progress ---------------------------------------------------------------------------

  /** How many steps of its own a request takes at most. */
  function StepsLeft(phase: Phase): nat {
    match phase
    case AtGet => 10
    case AtTouch => 9
    case AtPut => 8
    case AtCheck => 7
    case AtRevoke => 4
    case AtLoad => 3
    case AtDelete(_) => 2
    case AtCompare(_) => 1
    case AtEnsure => 4
    case AtPutFresh => 3
    case AtFatalDelete => 1
    case AtUpstream => 2
    case AtPutElevated => 1
    case Answered(_) => 0
  }

  function OwnSteps(rid: Rid, acts: seq<Action>): nat {
    if acts == [] then 0
    else (if TakenBy(rid, acts[0]) then 1 else 0) + OwnSteps(rid, acts[1..])
  }

  predicate TakenBy(rid: Rid, a: Action) {
    a.Advance? && a.rid == rid
  }

  lemma PhaseMoves(s: State, r: Req, o: Outcome)
    requires r.hold.Some? && r.hold.value.ref in s.heap && !r.phase.AtGet? && !r.phase.Answered?
    ensures StepsLeft(NextPhase(s, r, o)) < StepsLeft(r.phase)
  {
  }

  lemma NextMoves(cfg: Config, s: State, a: Action, rid: Rid, t: State)
    requires WellFormed(s) && Enabled(cfg, s, a) && rid in s.reqs && t == Next(cfg, s, a)
    ensures rid in t.reqs && StepsLeft(t.reqs[rid].phase) <= StepsLeft(s.reqs[rid].phase)
    ensures TakenBy(rid, a) ==> StepsLeft(t.reqs[rid].phase) < StepsLeft(s.reqs[rid].phase)
  {
    if a.Advance? && !s.reqs[a.rid].phase.AtGet? {
      assert ReqFits(s.heap, s.reqs[a.rid]);
      TouchesFrame(cfg, s, a.rid, a.outcome);
      PhaseMoves(s, s.reqs[a.rid], a.outcome);
    }
  }

  /** No request takes more than ten steps, and it can take one more unless it has answered: every
      handler ends, and only by answering. */
  lemma {:induction false} EveryHandlerEnds(cfg: Config, d: Discipline, s: State, acts: seq<Action>, t: State, rid: Rid)
    requires Leads(cfg, d, s, acts, t) && rid in s.reqs
    ensures rid in t.reqs && OwnSteps(rid, acts) + StepsLeft(t.reqs[rid].phase) <= StepsLeft(s.reqs[rid].phase) <= 10
    ensures Enabled(cfg, t, Advance(rid, Done)) <==> StepsLeft(t.reqs[rid].phase) > 0
    decreases |acts|
  {
    if acts != [] {
      NextMoves(cfg, s, acts[0], rid, Next(cfg, s, acts[0]));
      EveryHandlerEnds(cfg, d, Next(cfg, s, acts[0]), acts[1..], t, rid);
    }
  }
}
