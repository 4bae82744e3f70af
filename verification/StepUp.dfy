/** The step-up store of stepUpStore.ts and the calls of fetchWithAuth (useApi.ts) that wait on
    it.  Promises are numbered in the order they are made; a call is a step machine between its
    awaits. */
module StepUp {
  import opened Options

  datatype Settlement = Unsettled | Resolved | Rejected

  // ---- the store ------------------------------------------------------------------------------

  datatype Store = Store(
    visible: bool,
    pending: Option<nat>,
    resolvePending: Option<nat>,
    rejectPending: Option<nat>,
    promises: seq<Settlement>)

  /** The promise request() returns. */
  function Requested(s: Store): nat {
    if s.pending.Some? then s.pending.value else |s.promises|
  }

  function AfterRequest(s: Store): Store {
    if s.pending.Some? then s
    else
      var p := Some(|s.promises|);
      Store(true, p, p, p, s.promises + [Unsettled])
  }

  /** Calling a promise's resolve or reject; only the first call counts. */
  function Settle(promises: seq<Settlement>, p: Option<nat>, how: Settlement): seq<Settlement> {
    if p.Some? && p.value < |promises| && promises[p.value] == Unsettled then promises[p.value := how] else promises
  }

  function AfterComplete(s: Store): Store {
    Store(false, None, None, None, Settle(s.promises, s.resolvePending, Resolved))
  }

  function AfterCancel(s: Store): Store {
    Store(false, None, None, None, Settle(s.promises, s.rejectPending, Rejected))
  }

  class StepUpStore {
    var visible: bool
    var pending: Option<nat>
    var resolvePending: Option<nat>
    var rejectPending: Option<nat>
    var promises: seq<Settlement>

    constructor ()
      ensures Now() == Store(false, None, None, None, [])
    {
      visible, pending, resolvePending, rejectPending, promises := false, None, None, None, [];
    }

    ghost function Now(): Store
      reads this
    {
      Store(visible, pending, resolvePending, rejectPending, promises)
    }

    method Request() returns (p: nat)
      modifies this
      ensures p == Requested(old(Now())) && Now() == AfterRequest(old(Now()))
    {
      if pending.Some? {
        return pending.value;
      }
      visible := true;
      p := |promises|;
      promises := promises + [Unsettled];
      resolvePending := Some(p);
      rejectPending := Some(p);
      pending := Some(p);
    }

    method Complete()
      modifies this
      ensures Now() == AfterComplete(old(Now()))
    {
      visible := false;
      if resolvePending.Some? {
        Call(resolvePending.value, Resolved);
      }
      Reset();
    }

    method Cancel()
      modifies this
      ensures Now() == AfterCancel(old(Now()))
    {
      visible := false;
      if rejectPending.Some? {
        Call(rejectPending.value, Rejected);
      }
      Reset();
    }

    method Call(p: nat, how: Settlement)
      modifies `promises
      ensures promises == Settle(old(promises), Some(p), how)
    {
      if p < |promises| && promises[p] == Unsettled {
        promises := promises[p := how];
      }
    }

    method Reset()
      modifies `pending, `resolvePending, `rejectPending
      ensures pending == resolvePending == rejectPending == None
    {
      pending, resolvePending, rejectPending := None, None, None;
    }
  }

  // ---- the calls --------------------------------------------------------------------------------

  datatype Outcome = Response(status: int) | SessionExpired | StepUpCancelled | FetchFailed

  /** ReadingBody: a 403 whose body is being parsed. */
  datatype Phase = Fetching | ReadingBody | Waiting(promise: nat) | Finished(outcome: Outcome)

  /** A call of fetchWithAuth: the requests it has sent, its elevated flag, and the promise it has
      waited for, if any. */
  datatype Call = Call(phase: Phase, fetches: nat, elevated: bool, asked: Option<nat>)

  /** dialogs, settled: dialogs shown and pending promises settled; logins: navigations to login. */
  datatype State = State(store: Store, calls: seq<Call>, dialogs: nat, settled: nat, logins: nat)

  datatype Action =
    | Begin
    | Respond(i: nat, status: int)
    | Fail(i: nat)
    | BodyRead(i: nat, elevationRequired: bool)
    | Resume(i: nat)
    | Complete
    | Cancel

  const START := State(Store(false, None, None, None, []), [], 0, 0, 0)

  predicate InPhase(s: State, i: nat, phase: Phase) {
    i < |s.calls| && s.calls[i].phase == phase
  }

  /** The promise call i waits for, once it is settled. */
  predicate CanResume(s: State, i: nat) {
    && i < |s.calls| && s.calls[i].phase.Waiting?
    && s.calls[i].phase.promise < |s.store.promises|
    && s.store.promises[s.calls[i].phase.promise] != Unsettled
  }

  predicate Enabled(s: State, a: Action) {
    match a
    case Begin => true
    case Respond(i, _) => InPhase(s, i, Fetching)
    case Fail(i) => InPhase(s, i, Fetching)
    case BodyRead(i, _) => InPhase(s, i, ReadingBody)
    case Resume(i) => CanResume(s, i)
    case Complete => true
    case Cancel => true
  }

  function WithCall(s: State, i: nat, c: Call): State
    requires i < |s.calls|
  {
    s.(calls := s.calls[i := c])
  }

  function Ended(s: State, i: nat, outcome: Outcome): State
    requires i < |s.calls|
  {
    WithCall(s, i, s.calls[i].(phase := Finished(outcome)))
  }

  function Asked(s: State, i: nat): State
    requires i < |s.calls|
  {
    var p := Requested(s.store);
    WithCall(s, i, s.calls[i].(phase := Waiting(p), asked := Some(p))).(
      store := AfterRequest(s.store),
      dialogs := s.dialogs + if s.store.pending.Some? then 0 else 1)
  }

  function Next(s: State, a: Action): State
    requires Enabled(s, a)
  {
    match a
    case Begin => s.(calls := s.calls + [Call(Fetching, 1, false, None)])
    case Respond(i, status) =>
      if status == 401 then Ended(s, i, SessionExpired).(logins := s.logins + 1)
      else if status == 403 && !s.calls[i].elevated then WithCall(s, i, s.calls[i].(phase := ReadingBody))
      else Ended(s, i, Response(status))
    case Fail(i) => Ended(s, i, FetchFailed)
    case BodyRead(i, elevationRequired) =>
      if elevationRequired then Asked(s, i) else Ended(s, i, Response(403))
    case Resume(i) =>
      var c := s.calls[i];
      if s.store.promises[c.phase.promise] == Resolved
      then WithCall(s, i, c.(phase := Fetching, fetches := c.fetches + 1, elevated := true))
      else Ended(s, i, StepUpCancelled)
    case Complete => s.(store := AfterComplete(s.store), settled := s.settled + if s.store.pending.Some? then 1 else 0)
    case Cancel => s.(store := AfterCancel(s.store), settled := s.settled + if s.store.pending.Some? then 1 else 0)
  }

  ghost predicate Leads(s: State, run: seq<Action>, t: State)
    decreases |run|
  {
    if run == [] then s == t else Enabled(s, run[0]) && Leads(Next(s, run[0]), run[1..], t)
  }
}
