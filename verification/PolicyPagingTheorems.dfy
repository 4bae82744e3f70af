/** The paged list agrees with the server's growing log, over every run of load and loadOlder. */
module PolicyPagingTheorems {
  import opened JsStrings
  import opened Options
  import opened PolicyPaging

  // ---- the rows a filter selects -----------------------------------------------------------

  /** The filters without their window. */
  function Base(f: Filters): Query {
    ToQuery(f, 0).(since := None)
  }

  /** All rows of the log that the filters select, whatever their age, newest first. */
  function Rows(log: Log, f: Filters): seq<Row> {
    Select(log, Base(f))
  }

  /** What a user of the view asks for: "denied" and "allowed" select by verdict, and an empty
      filter selects nothing away. */
  predicate Wanted(f: Filters, r: Row) {
    var id, client := Trim(f.correlationId), Trim(f.clientId);
    && (id == "" || r.correlationId == id)
    && (f.outcome == Denied ==> !r.allow)
    && (f.outcome == Allowed ==> r.allow)
    && (f.divergenceOnly ==> r.divergence)
    && (f.source == "" || r.source == f.source)
    && (client == "" || r.clientId == client)
  }

  /** Naming a correlation id lifts the window. */
  predicate YoungEnough(f: Filters, now: int, r: Row) {
    Trim(f.correlationId) != "" || f.period.None? || now - r.created <= f.period.value
  }

  lemma QueryIsWhatIsWanted(f: Filters, now: int, r: Row)
    ensures Matches(Base(f), r) <==> Wanted(f, r)
    ensures InWindow(ToQuery(f, now).since, r) <==> YoungEnough(f, now, r)
  {
  }

  ghost predicate Descending(rows: seq<Row>) {
    forall i, j | 0 <= i < j < |rows| :: rows[i].id > rows[j].id && rows[i].created >= rows[j].created
  }

  lemma {:induction false} Selected(log: Log, q: Query, r: Row)
    ensures r in Select(log, q) <==> r in log && Matches(q, r) && InWindow(q.since, r) && IsBefore(q.beforeId, r)
  {
    if log != [] {
      var init := log[..|log| - 1];
      Selected(init, q, r);
      assert log == init + [log[|log| - 1]];
    }
  }

  lemma {:induction false} SelectDescends(log: Log, q: Query)
    requires InOrder(log)
    ensures Descending(Select(log, q))
  {
    if log != [] {
      var init, r, older := log[..|log| - 1], log[|log| - 1], Select(log[..|log| - 1], q);
      SelectDescends(init, q);
      forall k | 0 <= k < |older| ensures r.id > older[k].id && r.created >= older[k].created {
        Selected(init, q, older[k]);
        var i :| 0 <= i < |init| && init[i] == older[k];
        assert log[i] == init[i];
      }
    }
  }

  /** New rows come in front. */
  lemma {:induction false} SelectAppend(log: Log, more: Log, q: Query)
    ensures Select(log + more, q) == Select(more, q) + Select(log, q)
    decreases |more|
  {
    if more == [] {
      assert log + more == log;
    } else {
      var init := more[..|more| - 1];
      assert (log + more)[..|log + more| - 1] == log + init;
      SelectAppend(log, init, q);
    }
  }

  // ---- a page is the next stretch of those rows --------------------------------------------

  /** The rows of a list that a window and a cursor leave. */
  function Kept(rows: seq<Row>, since: Option<int>, cursor: Option<int>): seq<Row> {
    if rows == [] then []
    else
      (if InWindow(since, rows[0]) && IsBefore(cursor, rows[0]) then [rows[0]] else [])
      + Kept(rows[1..], since, cursor)
  }

  lemma {:induction false} SelectKeeps(log: Log, base: Query, q: Query)
    requires q == base.(since := q.since, beforeId := q.beforeId) && base.since == base.beforeId == None
    ensures Select(log, q) == Kept(Select(log, base), q.since, q.beforeId)
  {
    if log != [] {
      var init, r, older := log[..|log| - 1], log[|log| - 1], Select(log[..|log| - 1], base);
      SelectKeeps(init, base, q);
      if Matches(base, r) {
        assert ([r] + older)[1..] == older;
      } else {
        assert [] + older == older;
      }
    }
  }

  lemma {:induction false} CursorIsPassed(rows: seq<Row>, since: Option<int>, id: int)
    requires forall i | 0 <= i < |rows| :: rows[i].id < id
    ensures Kept(rows, since, Some(id)) == Kept(rows, since, None)
  {
    if rows != [] {
      CursorIsPassed(rows[1..], since, id);
    }
  }

  /** The cursor skips exactly the rows up to its own. */
  lemma {:induction false} CursorSkips(rows: seq<Row>, since: Option<int>, j: nat)
    requires Descending(rows) && 1 <= j <= |rows|
    ensures Kept(rows, since, Some(rows[j - 1].id)) == Kept(rows[j..], since, None)
  {
    var rest := rows[1..];
    if j == 1 {
      CursorIsPassed(rest, since, rows[0].id);
    } else {
      CursorSkips(rest, since, j - 1);
      assert rest[j - 1..] == rows[j..] && rest[j - 2] == rows[j - 1];
      assert !IsBefore(Some(rows[j - 1].id), rows[0]);
    }
  }

  /** The window cuts off the oldest rows. */
  lemma {:induction false} WindowKeepsTheNewest(rows: seq<Row>, since: Option<int>) returns (n: nat)
    requires Descending(rows)
    ensures n <= |rows| && Kept(rows, since, None) == rows[..n]
    ensures forall i | n <= i < |rows| :: !InWindow(since, rows[i])
  {
    if rows == [] {
      n := 0;
    } else {
      var rest := rows[1..];
      n := WindowKeepsTheNewest(rest, since);
      if InWindow(since, rows[0]) {
        assert [rows[0]] + rest[..n] == rows[..n + 1];
        n := n + 1;
        assert forall i | n <= i < |rows| :: rows[i] == rest[i - 1];
      } else {
        assert forall i | 0 <= i < |rows| :: !InWindow(since, rows[i]);
        assert n == 0 by {
          if n > 0 {
            assert rest[..n][0] in Kept(rest, since, None);
            KeptAreInWindow(rest, since, rest[0]);
          }
        }
      }
    }
  }

  lemma {:induction false} KeptAreInWindow(rows: seq<Row>, since: Option<int>, r: Row)
    requires r in Kept(rows, since, None)
    ensures InWindow(since, r)
  {
    if rows != [] && r in Kept(rows[1..], since, None) {
      KeptAreInWindow(rows[1..], since, r);
    }
  }

  /** A page is what comes next in rows, behind j of them. */
  ghost predicate IsPage(rows: seq<Row>, j: nat, page: seq<Row>, since: Option<int>) {
    && j + |page| <= |rows| && |page| <= PAGE_SIZE && page == rows[j..j + |page|]
    && (|page| < PAGE_SIZE ==> forall i | j + |page| <= i < |rows| :: !InWindow(since, rows[i]))
  }

  lemma TakenIsPage(rows: seq<Row>, j: nat, since: Option<int>, page: seq<Row>)
    requires Descending(rows) && j <= |rows| && page == Take(PAGE_SIZE, Kept(rows[j..], since, None))
    ensures IsPage(rows, j, page, since)
  {
    var rest := rows[j..];
    assert Descending(rest);
    var n := WindowKeepsTheNewest(rest, since);
    assert page == rest[..|page|] == rows[j..j + |page|];
    forall i | j + |page| <= i < |rows| && |page| < PAGE_SIZE ensures !InWindow(since, rows[i]) {
      assert rows[i] == rest[i - j];
    }
  }

  lemma FirstIsPage(log: Log, f: Filters, now: int, page: seq<Row>)
    requires InOrder(log) && page == FirstPage(f, now, log)
    ensures IsPage(Rows(log, f), 0, page, ToQuery(f, now).since)
  {
    var rows, q := Rows(log, f), ToQuery(f, now);
    SelectDescends(log, Base(f));
    SelectKeeps(log, Base(f), q);
    assert rows[0..] == rows;
    TakenIsPage(rows, 0, q.since, page);
  }

  lemma OlderIsPage(log: Log, f: Filters, now: int, rows: seq<Row>, j: nat, page: seq<Row>)
    requires InOrder(log) && rows == Rows(log, f) && 1 <= j <= |rows| && rows[j - 1].id != 0
    requires page == OlderPage(f, now, log, rows[j - 1])
    ensures IsPage(rows, j, page, ToQuery(f, now).since)
  {
    var q := ToQuery(f, now).(beforeId := Some(rows[j - 1].id));
    SelectDescends(log, Base(f));
    SelectKeeps(log, Base(f), q);
    CursorSkips(rows, q.since, j);
    TakenIsPage(rows, j, q.since, page);
  }

  // ---- runs ----------------------------------------------------------------------------------

  datatype Call = Load(now: int, reply: Reply) | Older(now: int, reply: Reply)

  function AfterCall(p: Paging, c: Call): Paging {
    match c
    case Load(now, reply) => Loaded(p, now, reply)
    case Older(now, reply) => LoadedOlder(p, now, reply)
  }

  /** The run's history: the log as last answered from, the matching rows it has that are newer
      than the list, the window of the last answer, the pages fetched since the last load, and when
      the last answer was asked for. */
  datatype Track = Track(log: Log, newer: nat, since: Option<int>, pages: nat, asked: int)

  /** The rows appended since. */
  function Appended(log: Log, log': Log): Log {
    if |log| <= |log'| then log'[|log|..] else []
  }

  function TrackCall(p: Paging, t: Track, c: Call): Track {
    if c.reply.Failed? then t
    else
      var log, since := c.reply.log, ToQuery(p.filters, c.now).since;
      if c.Load? then Track(log, 0, since, 1, c.now)
      else if !CanLoadOlder(p) then t
      else Track(log, t.newer + |Rows(Appended(t.log, log), p.filters)|, since, t.pages + 1, c.now)
  }

  /** The server only appends, in order; no id is 0. */
  ghost predicate Grows(t: Track, c: Call) {
    c.reply.Answered? ==>
      t.log <= c.reply.log && InOrder(c.reply.log) && forall r | r in c.reply.log :: r.id != 0
  }

  ghost predicate AllGrow(p: Paging, t: Track, calls: seq<Call>)
    decreases |calls|
  {
    calls == [] || (Grows(t, calls[0]) && AllGrow(AfterCall(p, calls[0]), TrackCall(p, t, calls[0]), calls[1..]))
  }

  function After(p: Paging, calls: seq<Call>): Paging
    decreases |calls|
  {
    if calls == [] then p else After(AfterCall(p, calls[0]), calls[1..])
  }

  function TrackAfter(p: Paging, t: Track, calls: seq<Call>): Track
    decreases |calls|
  {
    if calls == [] then t else TrackAfter(AfterCall(p, calls[0]), TrackCall(p, t, calls[0]), calls[1..])
  }

  /** The list is a stretch of the matching rows, and nothing older is left when exhausted. */
  ghost predicate Agrees(list: seq<Row>, exhausted: bool, rows: seq<Row>, t: Track) {
    && t.newer + |list| <= |rows| && list == rows[t.newer..t.newer + |list|]
    && (list == [] ==> t.newer == 0)
    && (exhausted ==> forall i | t.newer + |list| <= i < |rows| :: !InWindow(t.since, rows[i]))
  }

  predicate Counted(list: seq<Row>, exhausted: bool, pages: nat) {
    if exhausted then pages >= 1 && PAGE_SIZE * (pages - 1) <= |list| < PAGE_SIZE * pages
    else |list| == PAGE_SIZE * pages
  }

  ghost predicate Inv(p: Paging, t: Track) {
    && InOrder(t.log) && (forall r | r in t.log :: r.id != 0)
    && Agrees(p.decisions, p.exhausted, Rows(t.log, p.filters), t)
    && Counted(p.decisions, p.exhausted, t.pages)
    && (t.pages >= 1 ==> t.since == ToQuery(p.filters, t.asked).since)
  }

  lemma LoadKeeps(p: Paging, t: Track, c: Call)
    requires Inv(p, t) && Grows(t, c) && c.Load? && c.reply.Answered?
    ensures Inv(AfterCall(p, c), TrackCall(p, t, c))
  {
    var page := FirstPage(p.filters, c.now, c.reply.log);
    FirstIsPage(c.reply.log, p.filters, c.now, page);
  }

  lemma GrownRows(log: Log, log': Log, f: Filters)
    requires log <= log'
    ensures Rows(log', f) == Rows(Appended(log, log'), f) + Rows(log, f)
  {
    assert log' == log + log'[|log|..];
    SelectAppend(log, log'[|log|..], Base(f));
  }

  /** Appending the next page to the list. */
  lemma AppendPage(list: seq<Row>, page: seq<Row>, rows: seq<Row>, t: Track, pages: nat)
    requires list != [] && t.newer + |list| <= |rows| && list == rows[t.newer..t.newer + |list|]
    requires IsPage(rows, t.newer + |list|, page, t.since) && |list| == PAGE_SIZE * pages
    ensures Agrees(list + page, |page| < PAGE_SIZE, rows, t)
    ensures Counted(list + page, |page| < PAGE_SIZE, pages + 1)
  {
    var a, b := t.newer, t.newer + |list|;
    assert rows[a..b] + rows[b..b + |page|] == rows[a..b + |page|];
  }

  /** Newer rows in front move a stretch, and change nothing else about it. */
  lemma Shifted(more: seq<Row>, known: seq<Row>, a: nat, list: seq<Row>, rows: seq<Row>, j: nat)
    requires a + |list| <= |known| && list == known[a..a + |list|]
    requires rows == more + known && j == |more| + a + |list|
    ensures j <= |rows| && list == rows[j - |list|..j]
    ensures list != [] ==> rows[j - 1] == list[|list| - 1]
  {
  }

  lemma OlderRows(log: Log, log': Log, f: Filters, list: seq<Row>, t: Track, t': Track, now: int, page: seq<Row>)
    requires list != [] && Agrees(list, false, Rows(log, f), t) && |list| == PAGE_SIZE * t.pages
    requires log <= log' && InOrder(log') && forall r | r in log' :: r.id != 0
    requires t'.newer == t.newer + |Rows(Appended(log, log'), f)| && t'.since == ToQuery(f, now).since
    requires page == OlderPage(f, now, log', list[|list| - 1])
    ensures Agrees(list + page, |page| < PAGE_SIZE, Rows(log', f), t')
    ensures Counted(list + page, |page| < PAGE_SIZE, t.pages + 1)
  {
    var known, more, rows := Rows(log, f), Rows(Appended(log, log'), f), Rows(log', f);
    var j := t'.newer + |list|;
    GrownRows(log, log', f);
    Shifted(more, known, t.newer, list, rows, j);
    Selected(log', Base(f), rows[j - 1]);
    OlderIsPage(log', f, now, rows, j, page);
    AppendPage(list, page, rows, t', t.pages);
  }

  lemma OlderKeeps(p: Paging, t: Track, c: Call)
    requires Inv(p, t) && Grows(t, c) && c.Older? && c.reply.Answered? && CanLoadOlder(p)
    ensures Inv(AfterCall(p, c), TrackCall(p, t, c))
  {
    var log := c.reply.log;
    var page := OlderPage(p.filters, c.now, log, LastRow(p));
    OlderRows(t.log, log, p.filters, p.decisions, t, TrackCall(p, t, c), c.now, page);
  }

  lemma CallKeeps(p: Paging, t: Track, c: Call)
    requires Inv(p, t) && Grows(t, c)
    ensures Inv(AfterCall(p, c), TrackCall(p, t, c)) && AfterCall(p, c).filters == p.filters
  {
    if c.reply.Answered? {
      if c.Load? {
        LoadKeeps(p, t, c);
      } else if CanLoadOlder(p) {
        OlderKeeps(p, t, c);
      }
    }
  }

  lemma {:induction false} CallsKeep(p: Paging, t: Track, calls: seq<Call>)
    requires Inv(p, t) && AllGrow(p, t, calls)
    ensures Inv(After(p, calls), TrackAfter(p, t, calls)) && After(p, calls).filters == p.filters
    decreases |calls|
  {
    if calls != [] {
      CallKeeps(p, t, calls[0]);
      CallsKeep(AfterCall(p, calls[0]), TrackCall(p, t, calls[0]), calls[1..]);
    }
  }

  // ---- the theorems ---------------------------------------------------------------------------

  /** A fresh composable with these filters, before the server has answered anything. */
  function Fresh(f: Filters): Paging {
    Paging(f, [], false, false, None)
  }

  const UNASKED := Track([], 0, None, 0, 0)

  lemma MembersOf(log: Log, f: Filters, r: Row)
    ensures r in Rows(log, f) <==> r in log && Matches(Base(f), r)
  {
    Selected(log, Base(f), r);
  }

  /** The list is strictly descending and holds exactly the matching rows between its ends. */
  lemma ListHasNoGaps(f: Filters, calls: seq<Call>, p: Paging, log: Log, r: Row)
    requires AllGrow(Fresh(f), UNASKED, calls)
    requires p == After(Fresh(f), calls) && log == TrackAfter(Fresh(f), UNASKED, calls).log
    ensures Descending(p.decisions)
    ensures r in p.decisions <==>
            p.decisions != [] && r in log && Wanted(f, r) && LastRow(p).id <= r.id <= p.decisions[0].id
  {
    QueryIsWhatIsWanted(f, 0, r);
    var t := TrackAfter(Fresh(f), UNASKED, calls);
    CallsKeep(Fresh(f), UNASKED, calls);
    var rows := Rows(log, f);
    SelectDescends(log, Base(f));
    MembersOf(log, f, r);
    StretchMembers(rows, t.newer, p.decisions, r);
  }

  lemma StretchMembers(rows: seq<Row>, a: nat, list: seq<Row>, r: Row)
    requires Descending(rows) && a + |list| <= |rows| && list == rows[a..a + |list|]
    ensures Descending(list)
    ensures r in list <==> list != [] && r in rows && list[|list| - 1].id <= r.id <= list[0].id
  {
    if r in list {
      var k :| 0 <= k < |list| && list[k] == r;
      assert rows[a + k] == r;
    }
    if list != [] && r in rows && list[|list| - 1].id <= r.id <= list[0].id {
      var i :| 0 <= i < |rows| && rows[i] == r;
      assert list[0] == rows[a] && list[|list| - 1] == rows[a + |list| - 1];
      assert r == list[i - a];
    }
  }

  /** When the list is exhausted, every matching row no newer than its first and inside the
      window of the last answer is in it; without a window, every matching row. */
  lemma ExhaustedIsComplete(f: Filters, calls: seq<Call>, p: Paging, t: Track, r: Row)
    requires AllGrow(Fresh(f), UNASKED, calls)
    requires p == After(Fresh(f), calls) && t == TrackAfter(Fresh(f), UNASKED, calls)
    requires p.exhausted && r in t.log && Wanted(f, r) && YoungEnough(f, t.asked, r)
    ensures p.decisions == [] || r.id <= p.decisions[0].id ==> r in p.decisions
  {
    CallsKeep(Fresh(f), UNASKED, calls);
    QueryIsWhatIsWanted(f, t.asked, r);
    var rows, list := Rows(t.log, f), p.decisions;
    SelectDescends(t.log, Base(f));
    MembersOf(t.log, f, r);
    NothingOlder(list, rows, t, r);
  }

  lemma NothingOlder(list: seq<Row>, rows: seq<Row>, t: Track, r: Row)
    requires Descending(rows) && Agrees(list, true, rows, t) && r in rows && InWindow(t.since, r)
    ensures list == [] || r.id <= list[0].id ==> r in list
  {
    var i :| 0 <= i < |rows| && rows[i] == r;
    assert i < t.newer + |list|;
    if i >= t.newer {
      assert list[i - t.newer] == r;
    } else {
      assert list != [] && list[0] == rows[t.newer];
    }
  }

  /** Every page but the last is full: the number of pages is bounded by the matching rows. */
  lemma PagesAreBounded(f: Filters, calls: seq<Call>, t: Track)
    requires AllGrow(Fresh(f), UNASKED, calls) && t == TrackAfter(Fresh(f), UNASKED, calls)
    ensures 100 * (t.pages - 1) <= |Rows(t.log, f)|
    ensures t.pages <= |Rows(t.log, f)| / 100 + 1
  {
    CallsKeep(Fresh(f), UNASKED, calls);
  }

  /** load() shows the newest: a row to show is in the list unless the list is a full page of newer
      ones. */
  lemma LoadShowsTheNewest(p: Paging, now: int, log: Log, r: Row)
    requires InOrder(log) && r in log && Wanted(p.filters, r) && YoungEnough(p.filters, now, r)
    ensures var list := Loaded(p, now, Answered(log)).decisions;
            r in list || (|list| == 100 && forall newer | newer in list :: newer.id > r.id)
  {
    var q := ToQuery(p.filters, now);
    var rows := Select(log, q);
    QueryIsWhatIsWanted(p.filters, now, r);
    Selected(log, q, r);
    SelectDescends(log, q);
    var i :| 0 <= i < |rows| && rows[i] == r;
  }

  // ---- failures, error and loading ----------------------------------------------------------------

  /** The reply to the last call that sent a request: loadOlder() sends none when there is nothing
      older to ask for. */
  function LastReply(p: Paging, calls: seq<Call>, before: Option<Reply>): Option<Reply>
    decreases |calls|
  {
    if calls == [] then before
    else
      var sent := calls[0].Load? || (p.decisions != [] && !p.exhausted);
      LastReply(AfterCall(p, calls[0]), calls[1..], if sent then Some(calls[0].reply) else before)
  }

  predicate Shows(p: Paging, last: Option<Reply>) {
    && !p.loading
    && p.error == if last.Some? && last.value.Failed? then Some(last.value.message) else None
  }

  lemma {:induction false} StatusFrom(p: Paging, calls: seq<Call>, last: Option<Reply>)
    requires Shows(p, last)
    ensures Shows(After(p, calls), LastReply(p, calls, last))
    decreases |calls|
  {
    if calls != [] {
      var sent := calls[0].Load? || (p.decisions != [] && !p.exhausted);
      StatusFrom(AfterCall(p, calls[0]), calls[1..], if sent then Some(calls[0].reply) else last);
    }
  }

  /** After any calls nothing is left loading, and error is the message of the last request if that
      failed, and empty otherwise. */
  lemma StatusFollowsTheLastRequest(f: Filters, calls: seq<Call>)
    ensures Shows(After(Fresh(f), calls), LastReply(Fresh(f), calls, None))
  {
    StatusFrom(Fresh(f), calls, None);
  }

  function Succeeded(calls: seq<Call>): seq<Call> {
    if calls == [] then []
    else (if calls[0].reply.Answered? then [calls[0]] else []) + Succeeded(calls[1..])
  }

  predicate SameList(p: Paging, q: Paging) {
    p.filters == q.filters && p.decisions == q.decisions && p.exhausted == q.exhausted
  }

  /** The list and exhausted are what they would be had the failed calls never been made. */
  lemma {:induction false} FailuresChangeNoList(p: Paging, q: Paging, calls: seq<Call>)
    requires SameList(p, q)
    ensures SameList(After(p, calls), After(q, Succeeded(calls)))
    decreases |calls|
  {
    if calls != [] {
      if calls[0].reply.Answered? {
        assert Succeeded(calls)[1..] == Succeeded(calls[1..]);
        FailuresChangeNoList(AfterCall(p, calls[0]), AfterCall(q, calls[0]), calls[1..]);
      } else {
        assert [] + Succeeded(calls[1..]) == Succeeded(calls[1..]);
        FailuresChangeNoList(AfterCall(p, calls[0]), q, calls[1..]);
      }
    }
  }

  /** Row 0 as the cursor: before_id is left out, the newest page comes again, and the list stays
      in order only if the log has no row to show. */
  lemma CursorZeroRepeatsTheFirstPage(p: Paging, t: Track, now: int, log: Log)
    requires InOrder(t.log) && Agrees(p.decisions, p.exhausted, Rows(t.log, p.filters), t)
    requires CanLoadOlder(p) && t.log <= log && InOrder(log)
    ensures Descending(LoadedOlder(p, now, Answered(log)).decisions)
            <==> LastRow(p).id != 0 || forall r | r in log :: !(Wanted(p.filters, r) && YoungEnough(p.filters, now, r))
  {
    var f, list := p.filters, p.decisions;
    var known, more := Rows(t.log, f), Rows(Appended(t.log, log), f);
    GrownRows(t.log, log, f);
    var j := |more| + t.newer + |list|;
    Shifted(more, known, t.newer, list, Rows(log, f), j);
    AnyOlderPage(log, f, now, Rows(log, f), j, list);
    EmptyFirstPage(log, f, now);
  }

  /** The first page is empty when the log has nothing to show. */
  lemma EmptyFirstPage(log: Log, f: Filters, now: int)
    ensures FirstPage(f, now, log) == [] <==> forall r | r in log :: !(Wanted(f, r) && YoungEnough(f, now, r))
  {
    var q := ToQuery(f, now);
    var rows := Select(log, q);
    assert FirstPage(f, now, log) == [] <==> rows == [];
    forall r ensures r in rows <==> r in log && Wanted(f, r) && YoungEnough(f, now, r) {
      Selected(log, q, r);
      QueryIsWhatIsWanted(f, now, r);
    }
    if rows != [] { assert rows[0] in rows; }
  }

  lemma AnyOlderPage(log: Log, f: Filters, now: int, rows: seq<Row>, j: nat, list: seq<Row>)
    requires InOrder(log) && rows == Rows(log, f)
    requires list != [] && |list| <= j <= |rows| && list == rows[j - |list|..j] && rows[j - 1] == list[|list| - 1]
    ensures Descending(list + OlderPage(f, now, log, rows[j - 1]))
            <==> rows[j - 1].id != 0 || FirstPage(f, now, log) == []
  {
    var page := OlderPage(f, now, log, rows[j - 1]);
    SelectDescends(log, Base(f));
    if rows[j - 1].id != 0 {
      OlderIsPage(log, f, now, rows, j, page);
      StretchGrows(rows, j, list, page);
    } else {
      assert page == FirstPage(f, now, log);
      FirstIsPage(log, f, now, page);
      StretchRepeats(rows, j, list, page);
    }
  }

  lemma StretchGrows(rows: seq<Row>, j: nat, list: seq<Row>, page: seq<Row>)
    requires Descending(rows) && |list| <= j <= j + |page| <= |rows|
    requires list == rows[j - |list|..j] && page == rows[j..j + |page|]
    ensures Descending(list + page)
  {
    assert list + page == rows[j - |list|..j + |page|];
  }

  lemma StretchRepeats(rows: seq<Row>, j: nat, list: seq<Row>, page: seq<Row>)
    requires Descending(rows) && list != [] && |list| <= j <= |rows| && |page| <= |rows|
    requires list == rows[j - |list|..j] && page == rows[..|page|]
    ensures Descending(list + page) <==> page == []
  {
    var all := list + page;
    if page != [] {
      assert all[|list| - 1] == rows[j - 1] && all[|list|] == rows[0];
    } else {
      assert all == list;
    }
  }

  // ---- a log with a row 0 ---------------------------------------------------------------------

  function PlainRow(id: int): Row {
    Row(id, 0, "", true, false, "", "")
  }

  const EVERYTHING := Filters("", All, false, "", "", None)

  predicate Plain(log: Log) {
    forall i | 0 <= i < |log| :: log[i] == PlainRow(i)
  }

  lemma {:induction false} PlainRows(log: Log)
    requires Plain(log)
    ensures |Rows(log, EVERYTHING)| == |log|
    ensures log != [] ==> Rows(log, EVERYTHING)[|log| - 1].id == 0
  {
    if log != [] {
      var init := log[..|log| - 1];
      PlainRows(init);
      assert Matches(Base(EVERYTHING), log[|log| - 1]);
      assert Rows(log, EVERYTHING) == [log[|log| - 1]] + Rows(init, EVERYTHING);
    }
  }

  /** Rows 0 to 99 fill one page that ends with row 0; asking for older ones brings them again. */
  lemma RowZeroComesAgain(log: Log, now: int, p: Paging)
    requires Plain(log) && |log| == PAGE_SIZE && p == Loaded(Fresh(EVERYTHING), now, Answered(log))
    ensures |p.decisions| == PAGE_SIZE && LastRow(p).id == 0 && CanLoadOlder(p)
    ensures !Descending(LoadedOlder(p, now, Answered(log)).decisions)
  {
    var rows, page := Rows(log, EVERYTHING), FirstPage(EVERYTHING, now, log);
    PlainRows(log);
    FirstIsPage(log, EVERYTHING, now, page);
    NoWindow(rows, page, ToQuery(EVERYTHING, now).since);
    EmptyFirstPage(log, EVERYTHING, now);
    CursorZeroRepeatsTheFirstPage(p, Track(log, 0, None, 1, now), now, log);
  }

  lemma NoWindow(rows: seq<Row>, page: seq<Row>, since: Option<int>)
    requires IsPage(rows, 0, page, since) && |rows| == PAGE_SIZE && since == None
    ensures page == rows
  {
    assert |page| < PAGE_SIZE ==> !InWindow(since, rows[|page|]);
  }
}
