/** One dialog for all, and every waiter settled once. */
module StepUpTheorems {
  import opened Options
  import opened StepUp

  // ---- what every step keeps --------------------------------------------------------------------

  /** The one unsettled promise is the pending one, and the dialog is open for it. */
  ghost predicate StoreInv(s: Store) {
    && (s.visible <==> s.pending.Some?)
    && s.resolvePending == s.rejectPending == s.pending
    && (s.pending.Some? ==> s.pending.value < |s.promises|)
    && forall p | 0 <= p < |s.promises| :: s.promises[p] == Unsettled <==> s.pending == Some(p)
  }

  /** A call asks once, and its second request is behind a resolved promise. */
  predicate CallInv(c: Call, promises: seq<Settlement>) {
    && c.fetches == (if c.elevated then 2 else 1)
    && (c.asked.Some? ==> c.asked.value < |promises|)
    && (c.elevated ==> c.asked.Some? && promises[c.asked.value] == Resolved)
    && match c.phase
       case Fetching => c.asked.Some? ==> c.elevated
       case ReadingBody => c.asked == None && !c.elevated
       case Waiting(p) => c.asked == Some(p) && !c.elevated
       case Finished(outcome) =>
         && (outcome == StepUpCancelled <==> c.asked.Some? && promises[c.asked.value] == Rejected)
         && (c.asked.Some? ==> promises[c.asked.value] != Unsettled)
         && (c.asked.Some? && promises[c.asked.value] == Resolved ==> c.elevated)
  }

  ghost predicate CallsInv(calls: seq<Call>, promises: seq<Settlement>) {
    forall i | 0 <= i < |calls| :: CallInv(calls[i], promises)
  }

  ghost predicate Inv(s: State) {
    && StoreInv(s.store) && CallsInv(s.calls, s.store.promises)
    && s.dialogs == |s.store.promises|
    && s.dialogs == s.settled + if s.store.visible then 1 else 0
  }

  /** Settled promises stay as they are. */
  ghost predicate Later(before: seq<Settlement>, after: seq<Settlement>) {
    && |before| <= |after|
    && forall p | 0 <= p < |before| :: before[p] != Unsettled ==> after[p] == before[p]
  }

  lemma CallsSurvive(calls: seq<Call>, before: seq<Settlement>, after: seq<Settlement>)
    requires CallsInv(calls, before) && Later(before, after)
    ensures CallsInv(calls, after)
  {
    forall i | 0 <= i < |calls| ensures CallInv(calls[i], after) {
      assert CallInv(calls[i], before);
    }
  }

  lemma AsksKeeps(s: State, i: nat, t: State)
    requires Inv(s) && InPhase(s, i, ReadingBody) && t == Asked(s, i)
    ensures Inv(t) && Later(s.store.promises, t.store.promises)
  {
    CallsSurvive(s.calls, s.store.promises, t.store.promises);
    assert CallInv(s.calls[i], s.store.promises);
  }

  lemma SettlesKeeps(s: State, a: Action, t: State)
    requires Inv(s) && (a.Complete? || a.Cancel?) && t == Next(s, a)
    ensures Inv(t) && Later(s.store.promises, t.store.promises)
  {
    CallsSurvive(s.calls, s.store.promises, t.store.promises);
  }

  lemma CallStepKeeps(s: State, a: Action, i: nat, t: State)
    requires Inv(s) && Enabled(s, a) && t == Next(s, a)
    requires a == Resume(i) || a == Fail(i) || (a.Respond? && a.i == i) || a == BodyRead(i, false)
    ensures Inv(t) && t.store == s.store
  {
    assert CallInv(s.calls[i], s.store.promises);
  }

  lemma NextKeeps(s: State, a: Action, t: State)
    requires Inv(s) && Enabled(s, a) && t == Next(s, a)
    ensures Inv(t) && Later(s.store.promises, t.store.promises)
  {
    match a
    case Begin =>
    case Respond(i, _) => CallStepKeeps(s, a, i, t);
    case Fail(i) => CallStepKeeps(s, a, i, t);
    case BodyRead(i, elevationRequired) =>
      if elevationRequired { AsksKeeps(s, i, t); } else { CallStepKeeps(s, a, i, t); }
    case Resume(i) => CallStepKeeps(s, a, i, t);
    case Complete => SettlesKeeps(s, a, t);
    case Cancel => SettlesKeeps(s, a, t);
  }

  lemma {:induction false} RunKeeps(s: State, run: seq<Action>, t: State)
    requires Inv(s) && Leads(s, run, t)
    ensures Inv(t) && Later(s.store.promises, t.store.promises)
    decreases |run|
  {
    if run != [] {
      NextKeeps(s, run[0], Next(s, run[0]));
      RunKeeps(Next(s, run[0]), run[1..], t);
    }
  }

  // ---- the theorems -----------------------------------------------------------------------------

  /** In every reachable state the dialog is open exactly while a promise is pending, and every
      dialog but an open one has been answered. */
  lemma OneDialogAtATime(run: seq<Action>, t: State)
    requires Leads(START, run, t)
    ensures t.store.visible <==> t.store.pending.Some?
    ensures t.dialogs == t.settled + if t.store.visible then 1 else 0
  {
    RunKeeps(START, run, t);
  }

  /** Whoever waits for an unsettled promise waits for the open dialog's. */
  lemma WaitersShareTheDialog(run: seq<Action>, t: State, i: nat)
    requires Leads(START, run, t) && i < |t.calls| && t.calls[i].phase.Waiting?
    ensures !CanResume(t, i) <==> t.store.visible && t.store.pending == Some(t.calls[i].phase.promise)
  {
    RunKeeps(START, run, t);
    assert CallInv(t.calls[i], t.store.promises);
  }

  /** The promise the call waited for was settled this way. */
  predicate Settled(c: Call, promises: seq<Settlement>, how: Settlement) {
    c.asked.Some? && c.asked.value < |promises| && promises[c.asked.value] == how
  }

  /** A call sends at most two requests: the second exactly when the dialog it asked for was
      completed, and it gives up exactly when that dialog was cancelled. */
  lemma AtMostTwoFetches(run: seq<Action>, t: State, i: nat)
    requires Leads(START, run, t) && i < |t.calls|
    ensures var c := t.calls[i];
            && 1 <= c.fetches <= 2
            && (c.fetches == 2 <==> Settled(c, t.store.promises, Resolved) && !c.phase.Waiting?)
            && (c.phase == Finished(StepUpCancelled) <==> Settled(c, t.store.promises, Rejected) && !c.phase.Waiting?)
  {
    RunKeeps(START, run, t);
    assert CallInv(t.calls[i], t.store.promises);
  }

  predicate NoAnswer(run: seq<Action>) {
    forall i | 0 <= i < |run| :: !run[i].Complete? && !run[i].Cancel?
  }

  /** Call i of s, later in t: it asked for p, and either waits still or has gone on. */
  ghost predicate Follows(t: State, i: nat, p: nat) {
    i < |t.calls| && t.calls[i].asked == Some(p)
  }

  lemma AskedStays(s: State, a: Action, t: State, i: nat, p: nat)
    requires Inv(s) && Enabled(s, a) && t == Next(s, a) && Follows(s, i, p)
    ensures Follows(t, i, p)
  {
    assert CallInv(s.calls[i], s.store.promises);
  }

  lemma {:induction false} AskedForGood(s: State, run: seq<Action>, t: State, i: nat, p: nat)
    requires Inv(s) && Leads(s, run, t) && Follows(s, i, p)
    ensures Inv(t) && Follows(t, i, p) && Later(s.store.promises, t.store.promises)
    decreases |run|
  {
    if run != [] {
      var u := Next(s, run[0]);
      NextKeeps(s, run[0], u);
      AskedStays(s, run[0], u, i, p);
      AskedForGood(u, run[1..], t, i, p);
    }
  }

  lemma {:induction false} StaysPending(s: State, run: seq<Action>, t: State, p: nat)
    requires Inv(s) && Leads(s, run, t) && NoAnswer(run) && s.store.pending == Some(p)
    ensures t.store.pending == Some(p)
    decreases |run|
  {
    if run != [] {
      assert !run[0].Complete? && !run[0].Cancel?;
      NextKeeps(s, run[0], Next(s, run[0]));
      StaysPending(Next(s, run[0]), run[1..], t, p);
    }
  }

  lemma AnswerSettles(s: State, answer: Action, t: State, p: nat)
    requires Inv(s) && s.store.pending == Some(p) && (answer.Complete? || answer.Cancel?) && t == Next(s, answer)
    ensures Inv(t) && p < |t.store.promises| && t.store.promises[p] == if answer.Complete? then Resolved else Rejected
    ensures forall q | 0 <= q < |t.store.promises| :: t.store.promises[q] != Unsettled
  {
    SettlesKeeps(s, answer, t);
  }

  /** A waiter is settled by the next answer to the dialog, once and for all: from then on it can
      go on, and it retries if the answer was complete() and gives up if it was cancel().  No
      promise is left unsettled when the dialog closes. */
  lemma NextAnswerDecides(s: State, wait: seq<Action>, u: State, answer: Action, v: State, rest: seq<Action>, t: State,
                          i: nat, p: nat)
    requires Inv(s) && Follows(s, i, p) && s.store.pending == Some(p)
    requires Leads(s, wait, u) && NoAnswer(wait)
    requires (answer.Complete? || answer.Cancel?) && v == Next(u, answer) && Leads(v, rest, t)
    ensures forall q | 0 <= q < |v.store.promises| :: v.store.promises[q] != Unsettled
    ensures i < |t.calls| && (CanResume(t, i) || !t.calls[i].phase.Waiting?)
    ensures !t.calls[i].phase.Waiting? ==>
            if answer.Complete? then t.calls[i].fetches == 2
            else t.calls[i].fetches == 1 && t.calls[i].phase == Finished(StepUpCancelled)
  {
    AskedForGood(s, wait, u, i, p);
    StaysPending(s, wait, u, p);
    AnswerSettles(u, answer, v, p);
    AskedStays(u, answer, v, i, p);
    AskedForGood(v, rest, t, i, p);
    assert CallInv(t.calls[i], t.store.promises);
  }

  // ---- expired sessions ---------------------------------------------------------------------------

  function Expired(calls: seq<Call>): nat {
    if calls == [] then 0
    else Expired(calls[..|calls| - 1]) + if calls[|calls| - 1].phase == Finished(SessionExpired) then 1 else 0
  }

  lemma {:induction false} ExpiredUpdate(calls: seq<Call>, i: nat, c: Call)
    requires i < |calls| && calls[i].phase != Finished(SessionExpired)
    ensures Expired(calls[i := c]) == Expired(calls) + if c.phase == Finished(SessionExpired) then 1 else 0
  {
    var n := |calls| - 1;
    if i == n {
      assert calls[i := c][..n] == calls[..n];
    } else {
      ExpiredUpdate(calls[..n], i, c);
      assert calls[i := c][..n] == calls[..n][i := c];
    }
  }

  function On(a: Action): Option<nat> {
    match a
    case Respond(i, _) => Some(i)
    case Fail(i) => Some(i)
    case BodyRead(i, _) => Some(i)
    case Resume(i) => Some(i)
    case _ => None
  }

  /** The 401 answers along a run, to first requests and to retries alike. */
  function Unauthorised(run: seq<Action>): nat {
    if run == [] then 0 else (if run[0].Respond? && run[0].status == 401 then 1 else 0) + Unauthorised(run[1..])
  }

  lemma ExpiredStep(s: State, a: Action, t: State)
    requires Enabled(s, a) && t == Next(s, a)
    ensures t.logins - s.logins == Expired(t.calls) - Expired(s.calls) == Unauthorised([a])
  {
    assert [a][1..] == [];
    if On(a).Some? {
      var i := On(a).value;
      ExpiredUpdate(s.calls, i, t.calls[i]);
      assert t.calls == s.calls[i := t.calls[i]];
    } else if a.Begin? {
      assert t.calls[..|t.calls| - 1] == s.calls;
    }
  }

  /** Every 401 on the way, to a first request or to a retry, ends its call as expired and sends the
      browser to the login, once; nothing else does either. */
  lemma {:induction false} LoginsMatchExpiredCalls(s: State, run: seq<Action>, t: State)
    requires Leads(s, run, t)
    ensures t.logins - s.logins == Expired(t.calls) - Expired(s.calls) == Unauthorised(run)
    decreases |run|
  {
    if run != [] {
      ExpiredStep(s, run[0], Next(s, run[0]));
      assert [run[0]][1..] == [];
      LoginsMatchExpiredCalls(Next(s, run[0]), run[1..], t);
    }
  }

  // ---- what the caller gets -------------------------------------------------------------------------

  /** The last thing that happened to call i along a run, given the last before it. */
  function LastOn(i: nat, run: seq<Action>, before: Option<Action>): Option<Action> {
    if run == [] then before else LastOn(i, run[1..], if On(run[0]) == Some(i) then Some(run[0]) else before)
  }

  /** Where the last event leaves a call. */
  predicate Told(i: nat, last: Option<Action>, c: Call, promises: seq<Settlement>) {
    match last
    case None => c.phase == Fetching && !c.elevated
    case Some(Respond(_, 401)) => c.phase == Finished(SessionExpired)
    case Some(Respond(_, 403)) => c.phase == if c.elevated then Finished(Response(403)) else ReadingBody
    case Some(Respond(_, status)) => c.phase == Finished(Response(status))
    case Some(Fail(_)) => c.phase == Finished(FetchFailed)
    case Some(BodyRead(_, true)) => c.phase.Waiting?
    case Some(BodyRead(_, false)) => c.phase == Finished(Response(403))
    case Some(Resume(_)) =>
      if c.elevated then c.phase == Fetching && Settled(c, promises, Resolved)
      else c.phase == Finished(StepUpCancelled) && Settled(c, promises, Rejected)
    case _ => false
  }

  ghost predicate TellsCall(s: State, i: nat, last: Option<Action>) {
    && (last.Some? ==> On(last.value) == Some(i))
    && if i < |s.calls| then Told(i, last, s.calls[i], s.store.promises) else last == None
  }

  lemma OwnStepTells(s: State, a: Action, t: State, i: nat)
    requires Inv(s) && Enabled(s, a) && t == Next(s, a) && On(a) == Some(i)
    ensures TellsCall(t, i, Some(a))
  {
    assert CallInv(s.calls[i], s.store.promises);
  }

  lemma OtherStepTells(s: State, a: Action, t: State, i: nat, last: Option<Action>)
    requires Inv(s) && Enabled(s, a) && t == Next(s, a) && On(a) != Some(i) && TellsCall(s, i, last)
    ensures TellsCall(t, i, last)
  {
    NextKeeps(s, a, t);
    if i < |s.calls| { assert t.calls[i] == s.calls[i]; }
  }

  lemma {:induction false} RunTells(s: State, run: seq<Action>, t: State, i: nat, last: Option<Action>)
    requires Inv(s) && Leads(s, run, t) && TellsCall(s, i, last)
    ensures Inv(t) && TellsCall(t, i, LastOn(i, run, last))
    decreases |run|
  {
    if run != [] {
      var u := Next(s, run[0]);
      NextKeeps(s, run[0], u);
      if On(run[0]) == Some(i) {
        OwnStepTells(s, run[0], u, i);
        RunTells(u, run[1..], t, i, Some(run[0]));
      } else {
        OtherStepTells(s, run[0], u, i, last);
        RunTells(u, run[1..], t, i, last);
      }
    }
  }

  /** After every run, what a call of fetchWithAuth has come to is what last happened to it: it
      returns the response it got, whatever the status, unless that was a 401, or a first 403 that
      asks for elevation; it throws the network's failure exactly if the network failed. */
  lemma CallersGetTheirAnswer(run: seq<Action>, t: State, i: nat, c: Call, last: Option<Action>)
    requires Leads(START, run, t) && i < |t.calls| && c == t.calls[i] && last == LastOn(i, run, None)
    ensures forall status ::
              c.phase == Finished(Response(status)) <==>
              (last == Some(Respond(i, status)) && status != 401 && (status != 403 || c.fetches == 2))
              || (status == 403 && last == Some(BodyRead(i, false)))
    ensures c.phase == Finished(FetchFailed) <==> last == Some(Fail(i))
    ensures c.phase == Finished(SessionExpired) <==> last == Some(Respond(i, 401))
    ensures c.phase == ReadingBody <==> last == Some(Respond(i, 403)) && c.fetches == 1
    ensures c.phase.Waiting? <==> last == Some(BodyRead(i, true))
    ensures c.phase == Finished(StepUpCancelled) <==> last == Some(Resume(i)) && Settled(c, t.store.promises, Rejected)
    ensures c.phase == Fetching <==> last == None || (last == Some(Resume(i)) && Settled(c, t.store.promises, Resolved))
  {
    RunTells(START, run, t, i, None);
    assert CallInv(c, t.store.promises);
  }
}
