/** The connect, abort and reconnect machine of useSSE.ts.  Every call of connect() that gets to
    fetch() is a connection with its own abort controller, numbered in order; connections, timers
    and the user interleave freely.  An aborted connection may still settle as it would have
    without the abort, because its promise may have settled just before. */
module SseReconnect {
  import opened Options

  const MAX_ATTEMPTS := 5
  const DELAY := 3000

  /** Refused: the response was not ok and its body is being read for the log. */
  datatype Phase = Fetching | Refused | Reading | Finished

  datatype Connection = Connection(phase: Phase, aborted: bool)

  /** What has happened so far: calls of connect() by the user, streams opened, timers fired, and
      continuations of connections run (other than reads of a chunk). */
  datatype Tally = Tally(userConnects: nat, successes: nat, fired: nat, moves: nat)

  datatype State = State(
    controller: Option<nat>,
    attempts: nat,
    isConnecting: bool,
    isConnected: bool,
    authenticated: bool,
    conns: seq<Connection>,
    timers: multiset<nat>,
    tally: Tally)

  datatype Action =
    | UserConnect
    | UserDisconnect
    | SetAuthenticated(yes: bool)
    | TimerFires(delay: nat)
    | Accept(i: nat)
    | Refuse(i: nat)
    | RefusalRead(i: nat)
    | NoBody(i: nat)
    | Reject(i: nat, abortError: bool)
    | Chunk(i: nat)
    | StreamEnds(i: nat)

  const START := State(None, 0, false, false, false, [], multiset{}, Tally(0, 0, 0, 0))

  // ---- the steps ----------------------------------------------------------------------------

  function Aborted(conns: seq<Connection>, c: Option<nat>): seq<Connection> {
    if c.Some? && c.value < |conns| then conns[c.value := conns[c.value].(aborted := true)] else conns
  }

  function Disconnected(s: State): State {
    s.(conns := Aborted(s.conns, s.controller), controller := None, isConnected := false, isConnecting := false)
  }

  function Connected(s: State): State {
    if s.isConnecting then s
    else
      var d := Disconnected(s);
      if !s.authenticated then d
      else d.(isConnecting := true, controller := Some(|d.conns|), conns := d.conns + [Connection(Fetching, false)])
  }

  predicate InPhase(s: State, i: nat, phase: Phase) {
    i < |s.conns| && s.conns[i].phase == phase
  }

  /** A continuation of connection i that leaves it in the given phase. */
  function Moved(s: State, i: nat, phase: Phase): State
    requires i < |s.conns|
  {
    s.(conns := s.conns[i := s.conns[i].(phase := phase)], tally := s.tally.(moves := s.tally.moves + 1))
  }

  /** The catch block. */
  function Caught(s: State, abortError: bool): State {
    if abortError then s
    else
      var t := s.(isConnected := false, isConnecting := false);
      if s.attempts < MAX_ATTEMPTS then
        t.(attempts := s.attempts + 1, timers := s.timers + multiset{DELAY * (s.attempts + 1)})
      else t
  }

  predicate Enabled(s: State, a: Action) {
    match a
    case UserConnect => true
    case UserDisconnect => true
    case SetAuthenticated(_) => true
    case TimerFires(delay) => delay in s.timers
    case Accept(i) => InPhase(s, i, Fetching)
    case Refuse(i) => InPhase(s, i, Fetching)
    case RefusalRead(i) => InPhase(s, i, Refused)
    case NoBody(i) => InPhase(s, i, Fetching)
    case Reject(i, abortError) =>
      (InPhase(s, i, Fetching) || InPhase(s, i, Reading)) && (abortError ==> s.conns[i].aborted)
    case Chunk(i) => InPhase(s, i, Reading)
    case StreamEnds(i) => InPhase(s, i, Reading)
  }

  function Next(s: State, a: Action): State
    requires Enabled(s, a)
  {
    match a
    case UserConnect => Connected(s.(tally := s.tally.(userConnects := s.tally.userConnects + 1)))
    case UserDisconnect => Disconnected(s)
    case SetAuthenticated(yes) => s.(authenticated := yes)
    case TimerFires(delay) =>
      Connected(s.(timers := s.timers - multiset{delay}, tally := s.tally.(fired := s.tally.fired + 1)))
    case Accept(i) =>
      var t := Moved(s, i, Reading);
      t.(isConnected := true, attempts := 0, isConnecting := false,
         tally := t.tally.(successes := t.tally.successes + 1))
    case Refuse(i) => Moved(s, i, Refused)
    case RefusalRead(i) => Caught(Moved(s, i, Finished), false)
    case NoBody(i) => Caught(Moved(s, i, Finished), false)
    case Reject(i, abortError) => Caught(Moved(s, i, Finished), abortError)
    case Chunk(i) => s
    case StreamEnds(i) => Moved(s, i, Finished)
  }

  /** The run of these actions leads from s to t. */
  ghost predicate Leads(s: State, run: seq<Action>, t: State)
    decreases |run|
  {
    if run == [] then s == t else Enabled(s, run[0]) && Leads(Next(s, run[0]), run[1..], t)
  }

  // ---- the composable -----------------------------------------------------------------------

  class UseSSE {
    var abortController: Option<nat>
    var reconnectAttempts: nat
    var isConnecting: bool
    var isSSEConnected: bool          // monitorStore
    var isAuthenticated: bool         // authStore
    var conns: seq<Connection>
    var timers: multiset<nat>
    ghost var tally: Tally

    ghost function Now(): State
      reads this
    {
      State(abortController, reconnectAttempts, isConnecting, isSSEConnected, isAuthenticated, conns, timers, tally)
    }

    method Abort(c: nat)
      modifies `conns
      ensures conns == Aborted(old(conns), Some(c))
    {
      if c < |conns| {
        conns := conns[c := conns[c].(aborted := true)];
      }
    }

    method Disconnect()
      modifies this
      ensures Now() == Disconnected(old(Now()))
    {
      if abortController.Some? {
        Abort(abortController.value);
        abortController := None;
      }
      isSSEConnected := false;
      isConnecting := false;
    }

    /** connect() up to its first await. */
    method Connect()
      modifies this
      ensures Now() == Connected(old(Now()))
    {
      if isConnecting {
        return;
      }
      Disconnect();
      isConnecting := true;
      if !isAuthenticated {
        isConnecting := false;
        return;
      }
      abortController := Some(|conns|);
      conns := conns + [Connection(Fetching, false)];
    }

    method SetPhase(i: nat, phase: Phase)
      requires i < |conns|
      modifies `conns, `tally
      ensures Now() == Moved(old(Now()), i, phase)
    {
      conns := conns[i := conns[i].(phase := phase)];
      tally := tally.(moves := tally.moves + 1);
    }

    /** fetch() has resolved: the code up to the read loop, or up to the throw. */
    method OnResponse(i: nat, ok: bool, hasBody: bool)
      requires InPhase(Now(), i, Fetching)
      modifies this
      ensures Now() == Next(old(Now()), if !ok then Refuse(i) else if !hasBody then NoBody(i) else Accept(i))
    {
      if !ok {
        SetPhase(i, Refused);
        return;
      }
      if !hasBody {
        SetPhase(i, Finished);
        Catch(false);
        return;
      }
      SetPhase(i, Reading);
      tally := tally.(successes := tally.successes + 1);
      isSSEConnected := true;
      reconnectAttempts := 0;
      isConnecting := false;
    }

    method Catch(abortError: bool)
      modifies this
      ensures Now() == Caught(old(Now()), abortError)
    {
      if abortError {
        return;
      }
      isSSEConnected := false;
      isConnecting := false;
      if reconnectAttempts < MAX_ATTEMPTS {
        reconnectAttempts := reconnectAttempts + 1;
        timers := timers + multiset{DELAY * reconnectAttempts};
      }
    }
  }
}
