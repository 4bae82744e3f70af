/** What useSSE.ts promises about its connections over every run. */
module SseReconnectTheorems {
  import opened Options
  import opened SseReconnect

  // ---- what every step keeps ----------------------------------------------------------------

  predicate Live(c: Connection) {
    c.phase != Finished && !c.aborted
  }

  /** Only the connection in abortController can be unfinished and not aborted. */
  ghost predicate OneLive(s: State) {
    && (s.controller.Some? ==> s.controller.value < |s.conns|)
    && forall i | 0 <= i < |s.conns| :: Live(s.conns[i]) ==> s.controller == Some(i)
  }

  predicate Pending(c: Connection) {
    (c.phase == Fetching || c.phase == Refused) && !c.aborted
  }

  /** While isConnecting is set there is a connection that will clear it. */
  ghost predicate ConnectingIsReal(s: State) {
    s.isConnecting ==>
      && s.controller.Some?
      && s.controller.value < |s.conns|
      && Pending(s.conns[s.controller.value])
  }

  ghost predicate TimersAreBackedOff(s: State) {
    s.attempts <= MAX_ATTEMPTS && forall d | d in s.timers :: exists k | 1 <= k <= MAX_ATTEMPTS :: d == DELAY * k
  }

  /** Continuations still to come, at most. */
  function Remaining(conns: seq<Connection>): nat {
    if conns == [] then 0
    else Remaining(conns[..|conns| - 1]) + Due(conns[|conns| - 1].phase)
  }

  function Due(phase: Phase): nat {
    match phase
    case Fetching => 2
    case Refused => 1
    case Reading => 1
    case Finished => 0
  }

  ghost predicate Accounted(s: State) {
    && |s.conns| <= s.tally.userConnects + s.tally.fired
    && s.tally.fired + |s.timers| <= MAX_ATTEMPTS * s.tally.successes + s.attempts
    && s.tally.moves + Remaining(s.conns) <= 2 * |s.conns|
  }

  lemma AbortKeepsRemaining(conns: seq<Connection>, c: Option<nat>)
    ensures Remaining(Aborted(conns, c)) == Remaining(conns) && |Aborted(conns, c)| == |conns|
  {
    if c.Some? && c.value < |conns| { RemainingUpdate(conns, c.value, conns[c.value].(aborted := true)); }
  }

  lemma {:induction false} RemainingUpdate(conns: seq<Connection>, i: nat, c: Connection)
    requires i < |conns|
    ensures Remaining(conns[i := c]) == Remaining(conns) - Due(conns[i].phase) + Due(c.phase)
  {
    var n := |conns| - 1;
    if i == n {
      assert conns[i := c][..n] == conns[..n];
    } else {
      RemainingUpdate(conns[..n], i, c);
      assert conns[i := c][..n] == conns[..n][i := c];
    }
  }

  ghost predicate Inv(s: State) {
    OneLive(s) && ConnectingIsReal(s) && TimersAreBackedOff(s) && Accounted(s)
  }

  // ---- one step -----------------------------------------------------------------------------

  lemma DisconnectedKeeps(s: State, t: State)
    requires Inv(s) && t == Disconnected(s)
    ensures Inv(t) && forall i | 0 <= i < |t.conns| :: !Live(t.conns[i])
  {
    AbortKeepsRemaining(s.conns, s.controller);
  }

  lemma Connects(s: State, t: State)
    requires Inv(s.(tally := t.tally, timers := t.timers)) && |s.conns| < t.tally.userConnects + t.tally.fired
    requires t == Connected(s.(tally := t.tally, timers := t.timers))
    ensures Inv(t)
  {
    var u := s.(tally := t.tally, timers := t.timers);
    if !u.isConnecting {
      var d := Disconnected(u);
      DisconnectedKeeps(u, d);
      if u.authenticated {
        assert t.conns[..|t.conns| - 1] == d.conns;
      }
    }
  }

  lemma MovedCounts(s: State, i: nat, phase: Phase, t: State)
    requires Accounted(s) && i < |s.conns| && Due(phase) < Due(s.conns[i].phase) && t == Moved(s, i, phase)
    ensures Accounted(t)
  {
    RemainingUpdate(s.conns, i, s.conns[i].(phase := phase));
  }

  lemma CaughtKeeps(s: State, abortError: bool, t: State)
    requires OneLive(s) && TimersAreBackedOff(s) && Accounted(s) && t == Caught(s, abortError)
    requires abortError ==> ConnectingIsReal(s)
    ensures Inv(t)
  {
    if !abortError && s.attempts < MAX_ATTEMPTS {
      assert DELAY * (s.attempts + 1) == DELAY * t.attempts;
      forall d | d in t.timers ensures exists k | 1 <= k <= MAX_ATTEMPTS :: d == DELAY * k {
        if d == DELAY * t.attempts { assert 1 <= t.attempts <= MAX_ATTEMPTS; }
      }
    }
  }

  lemma FinishKeeps(s: State, i: nat, abortError: bool)
    requires Inv(s) && i < |s.conns| && s.conns[i].phase != Finished && (abortError ==> s.conns[i].aborted)
    ensures Inv(Caught(Moved(s, i, Finished), abortError))
  {
    var t := Moved(s, i, Finished);
    MovedCounts(s, i, Finished, t);
    CaughtKeeps(t, abortError, Caught(t, abortError));
  }

  lemma MoveKeeps(s: State, i: nat, phase: Phase, t: State)
    requires Inv(s) && i < |s.conns| && t == Moved(s, i, phase)
    requires (s.conns[i].phase == Fetching && phase == Refused) || (s.conns[i].phase == Reading && phase == Finished)
    ensures Inv(t)
  {
    MovedCounts(s, i, phase, t);
  }

  lemma AcceptKeeps(s: State, i: nat, t: State)
    requires Inv(s) && InPhase(s, i, Fetching) && t == Next(s, Accept(i))
    ensures Inv(t)
  {
    MovedCounts(s, i, Reading, Moved(s, i, Reading));
  }

  lemma NextKeeps(s: State, a: Action)
    requires Inv(s) && Enabled(s, a)
    ensures Inv(Next(s, a))
  {
    match a
    case UserConnect =>
      Connects(s, Connected(s.(tally := s.tally.(userConnects := s.tally.userConnects + 1))));
    case UserDisconnect => DisconnectedKeeps(s, Disconnected(s));
    case SetAuthenticated(yes) =>
    case TimerFires(delay) =>
      Connects(s, Next(s, a));
    case Accept(i) => AcceptKeeps(s, i, Next(s, a));
    case Refuse(i) => MoveKeeps(s, i, Refused, Next(s, a));
    case RefusalRead(i) => FinishKeeps(s, i, false);
    case NoBody(i) => FinishKeeps(s, i, false);
    case Reject(i, abortError) => FinishKeeps(s, i, abortError);
    case Chunk(i) =>
    case StreamEnds(i) => MoveKeeps(s, i, Finished, Next(s, a));
  }

  // ---- every run ----------------------------------------------------------------------------

  lemma {:induction false} RunKeeps(s: State, run: seq<Action>, t: State)
    requires Inv(s) && Leads(s, run, t)
    ensures Inv(t)
    decreases |run|
  {
    if run != [] {
      NextKeeps(s, run[0]);
      RunKeeps(Next(s, run[0]), run[1..], t);
    }
  }

  /** At every moment at most one connection is unfinished and not aborted, and it is the one
      that disconnect() would abort. */
  lemma AtMostOneConnection(run: seq<Action>, t: State, i: nat, j: nat)
    requires Leads(START, run, t) && i < |t.conns| && j < |t.conns| && Live(t.conns[i]) && Live(t.conns[j])
    ensures i == j && t.controller == Some(i)
  {
    RunKeeps(START, run, t);
  }

  /** isConnecting is never left set: there is a fetch, not aborted, whose end will clear it. */
  lemma ConnectingEnds(run: seq<Action>, t: State)
    requires Leads(START, run, t) && t.isConnecting
    ensures t.controller.Some? && t.controller.value < |t.conns| && Pending(t.conns[t.controller.value])
  {
    RunKeeps(START, run, t);
  }

  lemma BackoffIsBounded(run: seq<Action>, t: State)
    requires Leads(START, run, t)
    ensures t.attempts <= 5
    ensures forall d | d in t.timers :: 3000 <= d <= 15000
  {
    RunKeeps(START, run, t);
  }

  // ---- the machine comes to rest ----------------------------------------------------------

  function UserConnects(run: seq<Action>): nat {
    if run == [] then 0 else (if run[0].UserConnect? then 1 else 0) + UserConnects(run[1..])
  }

  function Accepts(run: seq<Action>): nat {
    if run == [] then 0 else (if run[0].Accept? then 1 else 0) + Accepts(run[1..])
  }

  predicate IsOwn(a: Action) {
    !a.UserConnect? && !a.UserDisconnect? && !a.SetAuthenticated? && !a.Chunk?
  }

  /** What the machine does by itself: timers firing and connections moving on. */
  function OwnSteps(run: seq<Action>): nat {
    if run == [] then 0 else (if IsOwn(run[0]) then 1 else 0) + OwnSteps(run[1..])
  }

  lemma TallyStep(s: State, a: Action, t: Tally)
    requires Enabled(s, a) && t == Next(s, a).tally
    ensures t.userConnects == s.tally.userConnects + (if a.UserConnect? then 1 else 0)
    ensures t.successes == s.tally.successes + (if a.Accept? then 1 else 0)
    ensures t.moves + t.fired == s.tally.moves + s.tally.fired + (if IsOwn(a) then 1 else 0)
  {
  }

  lemma {:induction false} TallyRun(s: State, run: seq<Action>, t: State)
    requires Leads(s, run, t)
    ensures t.tally.userConnects == s.tally.userConnects + UserConnects(run)
    ensures t.tally.successes == s.tally.successes + Accepts(run)
    ensures t.tally.moves + t.tally.fired == s.tally.moves + s.tally.fired + OwnSteps(run)
    decreases |run|
  {
    if run != [] {
      TallyStep(s, run[0], Next(s, run[0]).tally);
      TallyRun(Next(s, run[0]), run[1..], t);
    }
  }

  /** The machine does a bounded amount by itself for every user's connect and every opened
      stream; with no stream ever opened it makes at most five fetches more than the user asked
      for, and then rests. */
  lemma RetriesAreBounded(run: seq<Action>, t: State)
    requires Leads(START, run, t)
    ensures |t.conns| + |t.timers| <= UserConnects(run) + MAX_ATTEMPTS * Accepts(run) + t.attempts
    ensures OwnSteps(run) <= 2 * UserConnects(run) + 3 * MAX_ATTEMPTS * (Accepts(run) + 1)
    ensures Accepts(run) == 0 ==> |t.conns| <= UserConnects(run) + MAX_ATTEMPTS
  {
    RunKeeps(START, run, t);
    TallyRun(START, run, t);
    Books(t.tally, |t.conns|, |t.timers|, Remaining(t.conns), t.attempts);
  }

  /** The arithmetic of Accounted. */
  lemma Books(y: Tally, fetches: nat, timers: nat, remaining: nat, attempts: nat)
    requires fetches <= y.userConnects + y.fired && y.fired + timers <= MAX_ATTEMPTS * y.successes + attempts
    requires y.moves + remaining <= 2 * fetches && attempts <= MAX_ATTEMPTS
    ensures fetches + timers <= y.userConnects + MAX_ATTEMPTS * y.successes + attempts
    ensures y.moves + y.fired <= 2 * y.userConnects + 3 * MAX_ATTEMPTS * (y.successes + 1)
  {
  }

  // ---- what schedules a reconnect -------------------------------------------

  predicate IsFailure(a: Action) {
    a.RefusalRead? || a.NoBody? || (a.Reject? && !a.abortError)
  }

  function Failures(run: seq<Action>): nat {
    if run == [] then 0 else (if IsFailure(run[0]) then 1 else 0) + Failures(run[1..])
  }

  lemma FailureStep(s: State, a: Action, t: State)
    requires Enabled(s, a) && t == Next(s, a)
    ensures |t.timers| + t.tally.fired <= |s.timers| + s.tally.fired + if IsFailure(a) then 1 else 0
    ensures |t.timers| + t.tally.fired == |s.timers| + s.tally.fired + 1 <==> IsFailure(a) && s.attempts < MAX_ATTEMPTS
    ensures |t.timers| + t.tally.fired >= |s.timers| + s.tally.fired
    ensures t.attempts
            == if a.Accept? then 0
               else if IsFailure(a) && s.attempts < MAX_ATTEMPTS then s.attempts + 1
               else s.attempts
  {
  }

  /** A connection schedules a reconnect exactly when it ends in an error that is not an AbortError
      and attempts are left; that it was aborted makes no difference.  A refused response that is
      aborted while its body is read is such a case: the body's AbortError is caught on the way. */
  lemma SchedulesExactlyIf(s: State, a: Action, t: State)
    requires Enabled(s, a) && t == Next(s, a) && On(a).Some?
    ensures |t.timers| == |s.timers| + (if IsFailure(a) && s.attempts < MAX_ATTEMPTS then 1 else 0)
  {
    FailureStep(s, a, t);
  }

  /** Over every run there are no more timers than failures; AbortErrors, ends of streams and
      disconnects schedule none. */
  lemma {:induction false} OnlyFailuresSchedule(s: State, run: seq<Action>, t: State)
    requires Leads(s, run, t)
    ensures |t.timers| + t.tally.fired <= |s.timers| + s.tally.fired + Failures(run)
    decreases |run|
  {
    if run != [] {
      FailureStep(s, run[0], Next(s, run[0]));
      OnlyFailuresSchedule(Next(s, run[0]), run[1..], t);
    }
  }

  /** From any moment on, as long as no stream opens, the timers scheduled are the attempts
      counted, and the attempts never exceed five: at most five timers since the last success. */
  lemma {:induction false} TimersSinceSuccess(s: State, run: seq<Action>, t: State)
    requires Leads(s, run, t) && Accepts(run) == 0 && s.attempts <= MAX_ATTEMPTS
    ensures (|t.timers| + t.tally.fired) - (|s.timers| + s.tally.fired) == t.attempts - s.attempts
    ensures s.attempts <= t.attempts <= MAX_ATTEMPTS
    decreases |run|
  {
    if run != [] {
      FailureStep(s, run[0], Next(s, run[0]));
      TimersSinceSuccess(Next(s, run[0]), run[1..], t);
    }
  }

  /** So after the last stream opened, however long the run, at most five are scheduled. */
  lemma FiveTimersSinceSuccess(before: seq<Action>, s: State, i: nat, after: seq<Action>, t: State)
    requires Leads(START, before, s) && Enabled(s, Accept(i)) && Accepts(after) == 0
    requires Leads(Next(s, Accept(i)), after, t)
    ensures (|t.timers| + t.tally.fired) - (|s.timers| + s.tally.fired) == t.attempts <= MAX_ATTEMPTS
  {
    TimersSinceSuccess(Next(s, Accept(i)), after, t);
  }

  // ---- which delays --------------------------------------------------------------------------

  /** The delays of the timers a run schedules, in milliseconds, given the failures since the last
      opened stream: 3 seconds more for each one in a row, five times. */
  function Backoff(failed: nat, run: seq<Action>): multiset<nat>
    decreases |run|
  {
    if run == [] then multiset{}
    else if run[0].Accept? then Backoff(0, run[1..])
    else if IsFailure(run[0]) && failed < 5 then multiset{3000 * (failed + 1)} + Backoff(failed + 1, run[1..])
    else Backoff(failed, run[1..])
  }

  function FiredBy(a: Action): multiset<nat> {
    if a.TimerFires? then multiset{a.delay} else multiset{}
  }

  /** The delays of the timers that have fired. */
  function Fired(run: seq<Action>): multiset<nat> {
    if run == [] then multiset{}
    else FiredBy(run[0]) + Fired(run[1..])
  }

  function Added(s: State, a: Action): multiset<nat> {
    if IsFailure(a) && s.attempts < 5 then multiset{3000 * (s.attempts + 1)} else multiset{}
  }

  lemma FailureBacksOff(s: State, a: Action, t: State)
    requires Enabled(s, a) && t == Next(s, a) && IsFailure(a)
    ensures t.timers == s.timers + Added(s, a) && t.attempts == if s.attempts < 5 then s.attempts + 1 else s.attempts
  {
  }

  lemma BackoffStep(s: State, a: Action, t: State)
    requires Enabled(s, a) && t == Next(s, a)
    ensures t.timers + FiredBy(a) == s.timers + Added(s, a)
    ensures t.attempts
            == if a.Accept? then 0 else if IsFailure(a) && s.attempts < 5 then s.attempts + 1 else s.attempts
  {
    if IsFailure(a) { FailureBacksOff(s, a, t); }
  }

  lemma BackoffUnfolds(s: State, run: seq<Action>, later: multiset<nat>, attempts: nat)
    requires run != [] && later == Backoff(attempts, run[1..])
    requires attempts == if run[0].Accept? then 0
                         else if IsFailure(run[0]) && s.attempts < 5 then s.attempts + 1
                         else s.attempts
    ensures Backoff(s.attempts, run) == Added(s, run[0]) + later
  {
  }

  lemma Balance(start: multiset<nat>, added: multiset<nat>, middle: multiset<nat>, fired: multiset<nat>,
                end: multiset<nat>, firedLater: multiset<nat>, addedLater: multiset<nat>)
    requires middle + fired == start + added && end + firedLater == middle + addedLater
    ensures end + (fired + firedLater) == start + (added + addedLater)
  {
    assert end + (fired + firedLater) == (end + firedLater) + fired == (middle + fired) + addedLater;
  }

  lemma {:induction false} BackoffRun(s: State, run: seq<Action>, t: State)
    requires Leads(s, run, t)
    ensures t.timers + Fired(run) == s.timers + Backoff(s.attempts, run)
    decreases |run|
  {
    if run != [] {
      var u := Next(s, run[0]);
      BackoffRun(u, run[1..], t);
      BackoffStep(s, run[0], u);
      BackoffUnfolds(s, run, Backoff(u.attempts, run[1..]), u.attempts);
      Balance(s.timers, Added(s, run[0]), u.timers, FiredBy(run[0]), t.timers, Fired(run[1..]),
              Backoff(u.attempts, run[1..]));
    }
  }

  /** Over every run the timers that have fired and those still scheduled are together exactly what
      its failures ask for: the k-th failure in a row one of 3000 * k milliseconds, up to the fifth. */
  lemma TimersAreTheBackoff(run: seq<Action>, t: State)
    requires Leads(START, run, t)
    ensures t.timers + Fired(run) == Backoff(0, run)
  {
    BackoffRun(START, run, t);
  }

  // ---- what connects, and what aborts ----------------------------------------------------------

  predicate CallsConnect(a: Action) {
    a.UserConnect? || a.TimerFires?
  }

  /** A step makes a connection exactly when connect() is called, by the user or by a timer, with a
      user signed in and no other attempt on its way; it makes one, and that is the current one. */
  lemma ConnectsExactlyIf(s: State, a: Action, t: State)
    requires Enabled(s, a) && t == Next(s, a)
    ensures |t.conns| == |s.conns| + if CallsConnect(a) && s.authenticated && !s.isConnecting then 1 else 0
    ensures |t.conns| > |s.conns| ==>
              t.controller == Some(|s.conns|) && t.isConnecting && t.conns[|s.conns|] == Connection(Fetching, false)
  {
  }

  lemma CallsAbort(s: State, t: State, i: nat)
    requires t == Connected(s) && i < |s.conns| && !s.conns[i].aborted
    ensures i < |t.conns| && (t.conns[i].aborted <==> s.controller == Some(i) && !s.isConnecting)
  {
  }

  lemma OthersAbortNothing(s: State, a: Action, t: State, i: nat)
    requires Enabled(s, a) && t == Next(s, a) && i < |s.conns| && !CallsConnect(a) && !a.UserDisconnect?
    ensures i < |t.conns| && t.conns[i].aborted == s.conns[i].aborted
  {
  }

  predicate Disconnects(s: State, a: Action) {
    a.UserDisconnect? || (CallsConnect(a) && !s.isConnecting)
  }

  /** A step aborts a connection exactly when it is the current one and disconnect() is called, by the
      user or by a connect() that is not already under way. */
  lemma AbortsExactlyIf(s: State, a: Action, t: State, i: nat)
    requires Enabled(s, a) && t == Next(s, a) && i < |s.conns| && !s.conns[i].aborted
    ensures i < |t.conns| && (t.conns[i].aborted <==> s.controller == Some(i) && Disconnects(s, a))
  {
    match a
    case UserConnect => CallsAbort(s.(tally := t.tally), t, i);
    case TimerFires(_) => CallsAbort(s.(tally := t.tally, timers := t.timers), t, i);
    case UserDisconnect =>
    case _ => OthersAbortNothing(s, a, t, i);
  }

  // ---- disconnect does not cancel a scheduled reconnect -------------------------------------

  predicate NoUserConnect(run: seq<Action>) {
    forall i | 0 <= i < |run| :: !run[i].UserConnect?
  }

  predicate CanFail(s: State, i: nat) {
    i < |s.conns| && s.conns[i].phase != Finished && (s.attempts < MAX_ATTEMPTS || s.conns[i].phase == Fetching)
  }

  /** Something is left that can schedule a reconnect, or has. */
  ghost predicate MayReturn(s: State) {
    s.timers != multiset{} || exists i: nat :: CanFail(s, i)
  }

  function On(a: Action): Option<nat> {
    match a
    case Accept(i) => Some(i)
    case Refuse(i) => Some(i)
    case RefusalRead(i) => Some(i)
    case NoBody(i) => Some(i)
    case Reject(i, _) => Some(i)
    case StreamEnds(i) => Some(i)
    case _ => None
  }

  lemma StaysAway(s: State, a: Action)
    requires Enabled(s, a) && !a.UserConnect? && !MayReturn(s)
    ensures !MayReturn(Next(s, a)) && |Next(s, a).conns| == |s.conns|
  {
    var t := Next(s, a);
    assert On(a).Some? ==> !CanFail(s, On(a).value);
    forall i: nat ensures !CanFail(t, i) {
      assert !CanFail(s, i);
    }
  }

  lemma {:induction false} RunStaysAway(s: State, run: seq<Action>, t: State)
    requires Leads(s, run, t) && NoUserConnect(run) && !MayReturn(s)
    ensures |t.conns| == |s.conns|
    decreases |run|
  {
    if run != [] {
      assert !run[0].UserConnect?;
      StaysAway(s, run[0]);
      RunStaysAway(Next(s, run[0]), run[1..], t);
    }
  }

  lemma TimerReturns(s: State, delay: nat) returns (run: seq<Action>, t: State)
    requires delay in s.timers && !s.isConnecting
    ensures Leads(s, run, t) && NoUserConnect(run) && |t.conns| > |s.conns|
  {
    var a, b := SetAuthenticated(true), TimerFires(delay);
    var u := Next(s, a);
    run, t := [a, b], Next(u, b);
    assert run[1..] == [b] && [b][1..] == [] && Leads(t, [], t) && Leads(u, [b], t);
  }

  lemma Before(s: State, a: Action, run: seq<Action>, t: State)
    requires Enabled(s, a) && !a.UserConnect? && Leads(Next(s, a), run, t) && NoUserConnect(run)
    ensures Leads(s, [a] + run, t) && NoUserConnect([a] + run)
  {
    assert ([a] + run)[1..] == run;
  }

  lemma FailureReturns(s: State, i: nat) returns (run: seq<Action>, t: State)
    requires CanFail(s, i) && s.attempts < MAX_ATTEMPTS && !s.isConnecting
    ensures Leads(s, run, t) && NoUserConnect(run) && |t.conns| > |s.conns|
  {
    var a := if s.conns[i].phase == Refused then RefusalRead(i) else Reject(i, false);
    var u := Next(s, a);
    assert DELAY * (s.attempts + 1) in u.timers;
    run, t := TimerReturns(u, DELAY * (s.attempts + 1));
    Before(s, a, run, t);
    run := [a] + run;
  }

  lemma Returns(s: State) returns (run: seq<Action>, t: State)
    requires MayReturn(s) && !s.isConnecting
    ensures Leads(s, run, t) && NoUserConnect(run) && |t.conns| > |s.conns|
  {
    if s.timers != multiset{} {
      var delay :| delay in s.timers;
      run, t := TimerReturns(s, delay);
    } else {
      var i: nat :| CanFail(s, i);
      if s.attempts < MAX_ATTEMPTS {
        run, t := FailureReturns(s, i);
      } else {
        var u := Next(s, Accept(i));
        run, t := FailureReturns(u, i);
        Before(s, Accept(i), run, t);
        run := [Accept(i)] + run;
      }
    }
  }

  /** A run without the user's help that ends with a new connection. */
  ghost predicate ComesBack(d: State, run: seq<Action>, t: State) {
    Leads(d, run, t) && NoUserConnect(run) && |t.conns| > |d.conns|
  }

  /** After disconnect() a new connection is made without the user asking exactly when a timer is
      already scheduled or an unfinished connection can still schedule one. */
  lemma DisconnectIsNotFinal(s: State, d: State)
    requires d == Disconnected(s)
    ensures (exists run, t :: ComesBack(d, run, t)) <==> MayReturn(d)
  {
    if MayReturn(d) {
      var run, t := Returns(d);
      assert ComesBack(d, run, t);
    } else {
      forall run, t ensures !ComesBack(d, run, t) {
        if Leads(d, run, t) && NoUserConnect(run) { RunStaysAway(d, run, t); }
      }
    }
  }

  // ---- when isSSEConnected is to be believed --------------------------------------------------

  /** The current connection is reading its stream. */
  predicate HasStream(s: State) {
    s.controller.Some? && s.controller.value < |s.conns| && s.conns[s.controller.value] == Connection(Reading, false)
  }

  /** The flag promises a stream that is there. */
  predicate Truthful(s: State) {
    s.isConnected ==> HasStream(s)
  }

  /** The stream that is there shows. */
  predicate Noticed(s: State) {
    HasStream(s) ==> s.isConnected
  }

  /** The current stream ends, or a fetch that was aborted is accepted all the same with no stream
      there to excuse it. */
  predicate Misleads(s: State, a: Action) {
    || (a.StreamEnds? && s.isConnected && s.controller == Some(a.i))
    || (a.Accept? && a.i < |s.conns| && s.conns[a.i].aborted && !HasStream(s))
  }

  /** An aborted connection fails, and clears the flag of the current stream. */
  predicate Hides(s: State, a: Action) {
    IsFailure(a) && On(a) != s.controller && HasStream(s)
  }

  /** The two steps that make the flag claim too much, and no others. */
  lemma FlagStaysTruthful(s: State, a: Action, t: State)
    requires Inv(s) && Truthful(s) && Enabled(s, a) && t == Next(s, a)
    ensures Truthful(t) <==> !Misleads(s, a)
  {
  }

  lemma FailureHides(s: State, a: Action, t: State)
    requires Enabled(s, a) && t == Next(s, a) && IsFailure(a)
    ensures !t.isConnected && (HasStream(t) <==> HasStream(s) && On(a) != s.controller)
  {
  }

  lemma NoFailureHides(s: State, a: Action, t: State)
    requires Noticed(s) && Enabled(s, a) && t == Next(s, a) && !IsFailure(a)
    ensures Noticed(t)
  {
  }

  /** The one step that makes it claim too little, and no other. */
  lemma FlagStaysNoticed(s: State, a: Action, t: State)
    requires Noticed(s) && Enabled(s, a) && t == Next(s, a)
    ensures Noticed(t) <==> !Hides(s, a)
  {
    if IsFailure(a) { FailureHides(s, a, t); } else { NoFailureHides(s, a, t); }
  }

  /** Nothing on the way misleads or hides. */
  ghost predicate Honest(s: State, run: seq<Action>)
    decreases |run|
  {
    run == [] ||
    (Enabled(s, run[0]) && !Misleads(s, run[0]) && !Hides(s, run[0]) && Honest(Next(s, run[0]), run[1..]))
  }

  lemma {:induction false} FlagIsRightFrom(s: State, run: seq<Action>, t: State)
    requires Inv(s) && Leads(s, run, t) && Honest(s, run) && (s.isConnected <==> HasStream(s))
    ensures t.isConnected <==> HasStream(t)
    decreases |run|
  {
    if run != [] {
      var u := Next(s, run[0]);
      NextKeeps(s, run[0]);
      FlagStaysTruthful(s, run[0], u);
      FlagStaysNoticed(s, run[0], u);
      FlagIsRightFrom(u, run[1..], t);
    }
  }

  /** Over every run without such a step, isSSEConnected is set exactly while the stream is there;
      a run is wrong for the first time exactly at such a step. */
  lemma FlagIsRightUntil(run: seq<Action>, s: State, a: Action, t: State)
    requires Leads(START, run, s) && Honest(START, run) && Enabled(s, a) && t == Next(s, a)
    ensures s.isConnected <==> HasStream(s)
    ensures (t.isConnected <==> HasStream(t)) <==> !Misleads(s, a) && !Hides(s, a)
  {
    RunKeeps(START, run, s);
    FlagIsRightFrom(START, run, s);
    FlagStaysTruthful(s, a, t);
    FlagStaysNoticed(s, a, t);
  }
}
