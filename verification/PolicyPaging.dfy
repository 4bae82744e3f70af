/** The cursor-paged decision list of usePolicyDecisions.ts, the query that useApi.ts sends for a
    page, and the assumed answer of a server whose log only grows. */
module PolicyPaging {
  import opened JsStrings
  import opened Options

  const PAGE_SIZE := 100

  datatype Row = Row(id: int, created: int, correlationId: string, allow: bool, divergence: bool,
                     source: string, clientId: string)

  /** The server's decision log, oldest first. */
  type Log = seq<Row>

  datatype Outcome = All | Denied | Allowed

  /** The filters of the view; period is the length of the window, if there is one. */
  datatype Filters = Filters(correlationId: string, outcome: Outcome, divergenceOnly: bool, source: string,
                             clientId: string, period: Option<nat>)

  datatype Query = Query(correlationId: Option<string>, allow: Option<bool>, divergence: bool, source: Option<string>,
                         clientId: Option<string>, since: Option<int>, beforeId: Option<int>, limit: nat)

  // ---- the query ----------------------------------------------------------------------------

  function NonEmpty(s: string): Option<string> {
    if s == "" then None else Some(s)
  }

  function ToQuery(f: Filters, now: int): Query {
    var id := NonEmpty(Trim(f.correlationId));
    Query(id,
          if f.outcome == All then None else Some(f.outcome == Allowed),
          f.divergenceOnly,
          NonEmpty(f.source),
          NonEmpty(Trim(f.clientId)),
          if id.None? && f.period.Some? then Some(now - f.period.value) else None,
          None,
          PAGE_SIZE)
  }

  /** What fetchPolicyDecisions puts into the URL: a before_id of 0 is left out. */
  function Encoded(q: Query): Query {
    if q.beforeId == Some(0) then q.(beforeId := None) else q
  }

  // ---- the server's answer -------------------------------------------------------------------

  predicate Matches(q: Query, r: Row) {
    && (q.correlationId.Some? ==> r.correlationId == q.correlationId.value)
    && (q.allow.Some? ==> r.allow == q.allow.value)
    && (q.divergence ==> r.divergence)
    && (q.source.Some? ==> r.source == q.source.value)
    && (q.clientId.Some? ==> r.clientId == q.clientId.value)
  }

  predicate InWindow(since: Option<int>, r: Row) {
    since.Some? ==> r.created >= since.value
  }

  predicate IsBefore(cursor: Option<int>, r: Row) {
    cursor.Some? ==> r.id < cursor.value
  }

  /** The rows that satisfy a query, newest first. */
  function Select(log: Log, q: Query): seq<Row> {
    if log == [] then []
    else
      var r := log[|log| - 1];
      (if Matches(q, r) && InWindow(q.since, r) && IsBefore(q.beforeId, r) then [r] else [])
      + Select(log[..|log| - 1], q)
  }

  function Take(n: nat, rows: seq<Row>): seq<Row> {
    if |rows| <= n then rows else rows[..n]
  }

  function Answer(log: Log, q: Query): seq<Row> {
    Take(q.limit, Select(log, q))
  }

  /** The log is in order of creation and so are the ids. */
  ghost predicate InOrder(log: Log) {
    forall i, j | 0 <= i < j < |log| :: log[i].id < log[j].id && log[i].created <= log[j].created
  }

  // ---- the list ------------------------------------------------------------------------------

  /** The server's reply to a request, or the message of the error thrown instead. */
  datatype Reply = Answered(log: Log) | Failed(message: string)

  datatype Paging = Paging(filters: Filters, decisions: seq<Row>, exhausted: bool, loading: bool, error: Option<string>)

  function Settled(p: Paging, decisions: seq<Row>, page: seq<Row>): Paging {
    p.(decisions := decisions, exhausted := |page| < PAGE_SIZE, loading := false, error := None)
  }

  function FirstPage(f: Filters, now: int, log: Log): seq<Row> {
    Answer(log, Encoded(ToQuery(f, now)))
  }

  function OlderPage(f: Filters, now: int, log: Log, last: Row): seq<Row> {
    Answer(log, Encoded(ToQuery(f, now).(beforeId := Some(last.id))))
  }

  function Loaded(p: Paging, now: int, reply: Reply): Paging {
    match reply
    case Failed(message) => p.(loading := false, error := Some(message))
    case Answered(log) => var page := FirstPage(p.filters, now, log); Settled(p, page, page)
  }

  predicate CanLoadOlder(p: Paging) {
    p.decisions != [] && !p.exhausted
  }

  function LastRow(p: Paging): Row
    requires p.decisions != []
  {
    p.decisions[|p.decisions| - 1]
  }

  function LoadedOlder(p: Paging, now: int, reply: Reply): Paging {
    if !CanLoadOlder(p) then p
    else
      match reply
      case Failed(message) => p.(loading := false, error := Some(message))
      case Answered(log) =>
        var page := OlderPage(p.filters, now, log, LastRow(p));
        Settled(p, p.decisions + page, page)
  }

  class PolicyDecisions {
    var filters: Filters
    var decisions: seq<Row>
    var exhausted: bool
    var loading: bool
    var error: Option<string>

    ghost function Now(): Paging
      reads this
    {
      Paging(filters, decisions, exhausted, loading, error)
    }

    /** One request, which the server answers from its log or which fails. */
    method Fetch(q: Query, reply: Reply) returns (page: Option<seq<Row>>)
      ensures page == if reply.Answered? then Some(Answer(reply.log, Encoded(q))) else None
    {
      var sent := q;
      if q.beforeId.Some? && q.beforeId.value == 0 {
        sent := q.(beforeId := None);
      }
      match reply
      case Failed(_) => page := None;
      case Answered(log) => page := Some(Answer(log, sent));
    }

    method Load(now: int, reply: Reply)
      modifies this
      ensures Now() == Loaded(old(Now()), now, reply)
    {
      loading := true;
      error := None;
      var page := Fetch(ToQuery(filters, now), reply);
      if page.Some? {
        decisions := page.value;
        exhausted := |page.value| < PAGE_SIZE;
      } else {
        error := Some(reply.message);
      }
      loading := false;
    }

    method LoadOlder(now: int, reply: Reply)
      modifies this
      ensures Now() == LoadedOlder(old(Now()), now, reply)
    {
      if decisions == [] || exhausted {
        return;
      }
      var last := decisions[|decisions| - 1];
      loading := true;
      error := None;
      var page := Fetch(ToQuery(filters, now).(beforeId := Some(last.id)), reply);
      if page.Some? {
        decisions := decisions + page.value;
        exhausted := |page.value| < PAGE_SIZE;
      } else {
        error := Some(reply.message);
      }
      loading := false;
    }
  }
}
