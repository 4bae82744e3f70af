/** Runs of the reconnect machine that end where its user would not expect it. */
module SseReconnectWitnesses {
  import opened Options
  import opened SseReconnect
  import opened SseReconnectTheorems

  lemma FourSteps(s: State, a: Action, b: Action, c: Action, d: Action, run: seq<Action>, t: State)
    requires run == [a, b, c, d]
    requires Enabled(s, a) && Enabled(Next(s, a), b) && Enabled(Next(Next(s, a), b), c)
    requires Enabled(Next(Next(Next(s, a), b), c), d) && t == Next(Next(Next(Next(s, a), b), c), d)
    ensures Leads(s, run, t)
  {
    var u := Next(Next(Next(s, a), b), c);
    assert run[1..] == [b, c, d] && [b, c, d][1..] == [c, d] && [c, d][1..] == [d] && [d][1..] == [];
    assert Leads(t, [], t) && Leads(u, [d], t) && Leads(Next(Next(s, a), b), [c, d], t);
  }

  const CONNECT := [SetAuthenticated(true), UserConnect]

  /** Authenticated, with a first fetch under way. */
  const FETCHING := START.(authenticated := true, isConnecting := true, controller := Some(0),
                           conns := [Connection(Fetching, false)], tally := Tally(1, 0, 0, 0))

  /** That fetch failed, its reconnect is scheduled, and then the user disconnected. */
  const RETRYING := FETCHING.(isConnecting := false, controller := None, attempts := 1,
                              conns := [Connection(Finished, true)], timers := multiset{DELAY},
                              tally := Tally(1, 0, 0, 1))

  lemma Fetches()
    ensures Next(Next(START, SetAuthenticated(true)), UserConnect) == FETCHING
  {
  }

  /** Authenticate, connect, fail, disconnect. */
  lemma FailAndDisconnect(run: seq<Action>, s: State)
    requires run == CONNECT + [Reject(0, false), UserDisconnect]
    requires s == RETRYING
    ensures Leads(START, run, s)
  {
    Fetches();
    var u := Next(FETCHING, Reject(0, false));
    assert u.conns == [Connection(Finished, false)] && Next(u, UserDisconnect).conns == [Connection(Finished, true)];
    FourSteps(START, SetAuthenticated(true), UserConnect, Reject(0, false), UserDisconnect, run, s);
  }

  /** After that disconnect the timer brings a connection back. */
  lemma TimerOutlivesDisconnect() returns (run: seq<Action>, s: State, t: State)
    ensures Leads(START, run, s) && run != [] && run[|run| - 1] == UserDisconnect
    ensures forall i | 0 <= i < |s.conns| :: !Live(s.conns[i])
    ensures Enabled(s, TimerFires(DELAY)) && t == Next(s, TimerFires(DELAY))
    ensures |t.conns| == 2 && Live(t.conns[1])
  {
    run := CONNECT + [Reject(0, false), UserDisconnect];
    s := RETRYING;
    FailAndDisconnect(run, s);
    t := Next(s, TimerFires(DELAY));
  }

  /** A stream that ends leaves the composable looking connected, with nothing left to change it. */
  lemma EndedStreamLooksConnected() returns (run: seq<Action>, t: State)
    ensures Leads(START, run, t) && t.isConnected && !MayReturn(t)
    ensures forall i | 0 <= i < |t.conns| :: t.conns[i].phase == Finished
  {
    run := CONNECT + [Accept(0), StreamEnds(0)];
    Fetches();
    t := Next(Next(FETCHING, Accept(0)), StreamEnds(0));
    FourSteps(START, SetAuthenticated(true), UserConnect, Accept(0), StreamEnds(0), run, t);
  }

  /** So does a fetch that resolves just before disconnect() aborts it. */
  lemma AbortedFetchLooksConnected() returns (run: seq<Action>, t: State)
    ensures Leads(START, run, t) && t.isConnected && t.controller == None
    ensures forall i | 0 <= i < |t.conns| :: t.conns[i].aborted
  {
    run := CONNECT + [UserDisconnect, Accept(0)];
    Fetches();
    t := Next(Next(FETCHING, UserDisconnect), Accept(0));
    FourSteps(START, SetAuthenticated(true), UserConnect, UserDisconnect, Accept(0), run, t);
  }

  // ---- a refused connection, aborted while its body is read --------------------------------------

  /** Its error comes late: a second connection is reading its stream by then. */
  const LATE_REFUSAL := START.(authenticated := true, isConnected := true, controller := Some(1),
                               conns := [Connection(Refused, true), Connection(Reading, false)],
                               tally := Tally(2, 1, 0, 2))

  lemma RefusedThenConnected(s: State)
    requires s == FETCHING.(controller := None, isConnecting := false, conns := [Connection(Refused, true)],
                            tally := Tally(1, 0, 0, 1))
    ensures Enabled(s, UserConnect) && Enabled(Next(s, UserConnect), Accept(1))
    ensures Next(Next(s, UserConnect), Accept(1)) == LATE_REFUSAL
  {
    var u := Next(s, UserConnect);
    assert u.conns == [Connection(Refused, true), Connection(Fetching, false)];
    assert Next(u, Accept(1)).conns == LATE_REFUSAL.conns;
  }

  lemma LateRefusalReached(run: seq<Action>)
    requires run == CONNECT + [Refuse(0), UserDisconnect] + [UserConnect, Accept(1)]
    ensures Leads(START, run, LATE_REFUSAL)
  {
    var first, s := CONNECT + [Refuse(0), UserDisconnect], Next(Next(FETCHING, Refuse(0)), UserDisconnect);
    Fetches();
    assert s.conns == [Connection(Refused, true)];
    FourSteps(START, SetAuthenticated(true), UserConnect, Refuse(0), UserDisconnect, first, s);
    RefusedThenConnected(s);
    var rest := [UserConnect, Accept(1)];
    assert rest[1..] == [Accept(1)] && [Accept(1)][1..] == [];
    var u := Next(s, UserConnect);
    assert Leads(LATE_REFUSAL, [], LATE_REFUSAL) && Leads(u, [Accept(1)], LATE_REFUSAL);
    LeadsOn(START, first, s, rest, LATE_REFUSAL);
  }

  lemma {:induction false} LeadsOn(s: State, run: seq<Action>, t: State, rest: seq<Action>, u: State)
    requires Leads(s, run, t) && Leads(t, rest, u)
    ensures Leads(s, run + rest, u)
    decreases |run|
  {
    if run == [] {
      assert run + rest == rest;
    } else {
      assert (run + rest)[1..] == run[1..] + rest;
      LeadsOn(Next(s, run[0]), run[1..], t, rest, u);
    }
  }

  /** The late error of the aborted connection clears the flag of the stream that is there and
      schedules a reconnect, which then aborts that stream. */
  lemma AbortedRefusalHidesTheStream() returns (run: seq<Action>, s: State, t: State, u: State)
    ensures Leads(START, run, s) && HasStream(s) && s.isConnected
    ensures Enabled(s, RefusalRead(0)) && s.conns[0].aborted && t == Next(s, RefusalRead(0))
    ensures HasStream(t) && !t.isConnected && t.timers == multiset{DELAY}
    ensures Enabled(t, TimerFires(DELAY)) && u == Next(t, TimerFires(DELAY)) && u.conns[1].aborted
  {
    run := CONNECT + [Refuse(0), UserDisconnect] + [UserConnect, Accept(1)];
    LateRefusalReached(run);
    s := LATE_REFUSAL;
    t := Next(s, RefusalRead(0));
    u := Next(t, TimerFires(DELAY));
  }
}
