/** What the limiter promises over whole traces of requests and sweeps. */
module RateTraces {
  import opened Options
  import opened RateLimiter

  datatype Event = Request(key: string, at: int) | Sweep(at: int)

  ghost predicate Monotone(trace: seq<Event>) {
    forall i, j | 0 <= i < j < |trace| :: trace[i].at <= trace[j].at
  }

  function Apply(b: Budget, m: Counts, e: Event): Counts {
    match e
    case Request(key, at) => Allowed(b, m, key, at).1
    case Sweep(at) => Swept(m, at)
  }

  /** The limiter's map after a trace. */
  function After(b: Budget, trace: seq<Event>): Counts {
    if trace == [] then map[] else Apply(b, After(b, trace[..|trace| - 1]), trace[|trace| - 1])
  }

  /** The limiter's verdict on request i of a trace. */
  function VerdictAt(b: Budget, trace: seq<Event>, i: nat): Verdict
    requires i < |trace| && trace[i].Request?
  {
    Allowed(b, After(b, trace[..i]), trace[i].key, trace[i].at).0
  }

  /** One key's requests, in order: their times. */
  function TimesOf(key: string, trace: seq<Event>): seq<int> {
    if trace == [] then []
    else
      var times := TimesOf(key, trace[..|trace| - 1]);
      var e := trace[|trace| - 1];
      if e.Request? && e.key == key then times + [e.at] else times
  }

  /** The reference: one key alone, with no sweeper and no map. */
  function Alone(b: Budget, times: seq<int>): Option<Window> {
    if times == [] then None
    else Decide(b, Alone(b, times[..|times| - 1]), times[|times| - 1]).1
  }

  // ---- the sweeper is unobservable and keys are independent -----------------------------

  lemma MonotonePrefix(trace: seq<Event>, n: nat)
    requires Monotone(trace) && n <= |trace|
    ensures Monotone(trace[..n])
  {
  }

  predicate Agree(w: Option<Window>, r: Option<Window>, now: int) {
    (IsOpen(w, now) <==> IsOpen(r, now)) && (IsOpen(w, now) ==> w == r)
  }

  lemma EventKeepsAgreement(b: Budget, m: Counts, r: Option<Window>, e: Event, key: string, now: int)
    requires b.window > 0 && e.at <= now && Agree(Lookup(m, key), r, e.at)
    ensures Agree(Lookup(Apply(b, m, e), key), if e.Request? && e.key == key then Decide(b, r, e.at).1 else r, now)
  {
  }

  /** From the last event on, the map and the reference agree on every open window. */
  lemma {:induction false} MapAgrees(b: Budget, trace: seq<Event>, key: string, now: int)
    requires b.window > 0 && Monotone(trace) && forall i | 0 <= i < |trace| :: trace[i].at <= now
    ensures Agree(Lookup(After(b, trace), key), Alone(b, TimesOf(key, trace)), now)
  {
    if trace != [] {
      var before, e := trace[..|trace| - 1], trace[|trace| - 1];
      MapAgrees(b, before, key, e.at);
      var times := TimesOf(key, before);
      EventKeepsAgreement(b, After(b, before), Alone(b, times), e, key, now);
      assert (times + [e.at])[..|times|] == times;
    }
  }

  /** Every verdict, and every retry duration, is the one the key would get if it were alone
      and the sweeper never ran. */
  lemma SweepsAndOtherKeysAreInvisible(b: Budget, trace: seq<Event>, i: nat)
    requires b.window > 0 && Monotone(trace) && i < |trace| && trace[i].Request?
    ensures VerdictAt(b, trace, i) == Decide(b, Alone(b, TimesOf(trace[i].key, trace[..i])), trace[i].at).0
  {
    MonotonePrefix(trace, i);
    MapAgrees(b, trace[..i], trace[i].key, trace[i].at);
  }

  /** So two traces that agree on one key's requests give that key the same verdicts. */
  lemma VerdictsDependOnTheKeyAlone(b: Budget, s: seq<Event>, t: seq<Event>, i: nat, j: nat)
    requires b.window > 0 && Monotone(s) && Monotone(t) && i < |s| && j < |t|
    requires s[i].Request? && s[i] == t[j] && TimesOf(s[i].key, s[..i]) == TimesOf(t[j].key, t[..j])
    ensures VerdictAt(b, s, i) == VerdictAt(b, t, j)
  {
    SweepsAndOtherKeysAreInvisible(b, s, i);
    SweepsAndOtherKeysAreInvisible(b, t, j);
  }

  /** Right after a sweep the map holds exactly the keys whose window is still open. */
  lemma SweepLeavesTheOpenWindows(b: Budget, trace: seq<Event>, now: int, key: string)
    requires b.window > 0 && Monotone(trace) && forall i | 0 <= i < |trace| :: trace[i].at <= now
    ensures key in After(b, trace + [Sweep(now)]) <==> IsOpen(Alone(b, TimesOf(key, trace)), now)
  {
    assert (trace + [Sweep(now)])[..|trace|] == trace;
    MapAgrees(b, trace, key, now);
  }

  // ---- how many requests an interval admits ----------------------------------------------

  ghost predicate Sorted(times: seq<int>) {
    forall i, j | 0 <= i < j < |times| :: times[i] <= times[j]
  }

  predicate AdmittedAt(b: Budget, times: seq<int>, i: nat)
    requires i < |times|
  {
    Decide(b, Alone(b, times[..i]), times[i]).0.ok
  }

  /** The requests of one key admitted at times in [from, to). */
  function Admissions(b: Budget, times: seq<int>, from: int, to: int): nat {
    if times == [] then 0
    else
      var last := |times| - 1;
      Admissions(b, times[..last], from, to)
      + if from <= times[last] < to && AdmittedAt(b, times, last) then 1 else 0
  }

  lemma {:induction false} NothingBefore(b: Budget, times: seq<int>, from: int, to: int)
    requires forall i | 0 <= i < |times| :: times[i] < from
    ensures Admissions(b, times, from, to) == 0
  {
    if times != [] {
      NothingBefore(b, times[..|times| - 1], from, to);
    }
  }

  lemma Neighbours(k: int, w: int)
    ensures (k - 1) * w == k * w - w && (k + 1) * w == k * w + w
  {
  }

  /** n requests in the current window, which began at start, and c admissions since from:
      j full windows lie between from and the current one. */
  predicate Charged(b: Budget, from: int, n: int, start: int, c: int, j: nat) {
    && 1 <= n <= b.limit
    && (start < from ==> c <= n - 1)
    && (start >= from ==> start >= from + j * b.window && c <= b.limit - 1 + j * b.limit + n)
  }

  lemma NewWindow(b: Budget, from: int, n: int, start: int, c: int, j: nat, at: int) returns (j': nat)
    requires b.limit >= 1 && b.window > 0 && Charged(b, from, n, start, c, j) && at >= start + b.window && at >= from
    ensures Charged(b, from, 1, at, c + 1, j')
  {
    if start >= from {
      Neighbours(j, b.window);
      Neighbours(j, b.limit);
      j' := j + 1;
    } else {
      j' := 0;
    }
  }

  /** What Charged says after any sorted sequence of one key's requests. */
  lemma {:induction false} Potential(b: Budget, times: seq<int>, from: int, to: int) returns (j: nat)
    requires b.limit >= 1 && b.window > 0 && Sorted(times)
    requires forall i | 0 <= i < |times| :: times[i] < to
    ensures times == [] <==> Alone(b, times).None?
    ensures times != [] ==>
              var w := Alone(b, times).value;
              && Charged(b, from, w.n, w.reset - b.window, Admissions(b, times, from, to), j)
              && w.reset - b.window <= times[|times| - 1]
  {
    j := 0;
    if times != [] {
      var before, at := times[..|times| - 1], times[|times| - 1];
      j := Potential(b, before, from, to);
      if at < from {
        NothingBefore(b, times, from, to);
        j := 0;
      } else if before == [] {
        j := 0;
      } else if !IsOpen(Alone(b, before), at) {
        var w := Alone(b, before).value;
        j := NewWindow(b, from, w.n, w.reset - b.window, Admissions(b, before, from, to), j, at);
      }
    }
  }

  lemma Scale(j: int, k: int, w: nat)
    requires j <= k
    ensures j * w <= k * w
  {
    assert (k - j) * w == k * w - j * w;
  }

  /** The arithmetic of the bound: j full windows between from and the current one. */
  lemma BoundHolds(j: nat, k: nat, window: int, limit: int, from: int, start: int, n: int, c: int)
    requires window > 0 && limit >= 1 && 1 <= n <= limit && k >= 1
    requires from + j * window <= start < from + k * window && c <= limit - 1 + j * limit + n
    ensures c <= (k + 1) * limit - 1
  {
    if k <= j { Scale(k, j, window); } else { Scale(j + 1, k, limit); }
    assert (k + 1) * limit == k * limit + limit && (j + 1) * limit == j * limit + limit;
  }

  /** Any half-open interval of k windows admits at most (k+1)*limit - 1 requests of a key. */
  lemma {:induction false} IntervalBound(b: Budget, times: seq<int>, from: int, k: nat)
    requires b.limit >= 1 && b.window > 0 && Sorted(times) && k >= 1
    ensures Admissions(b, times, from, from + k * b.window) <= (k + 1) * b.limit - 1
  {
    var to := from + k * b.window;
    Scale(1, k + 1, b.limit);
    if times != [] {
      if times[|times| - 1] >= to {
        IntervalBound(b, times[..|times| - 1], from, k);
      } else {
        var j := Potential(b, times, from, to);
        var w := Alone(b, times).value;
        if w.reset - b.window >= from {
          BoundHolds(j, k, b.window, b.limit, from, w.reset - b.window, w.n, Admissions(b, times, from, to));
        }
      }
    }
  }

  // ---- the same bound for whole traces ----------------------------------------------------

  /** The requests of key that the limiter's map admits at times in [from, to). */
  function MapAdmissions(b: Budget, trace: seq<Event>, key: string, from: int, to: int): nat {
    if trace == [] then 0
    else
      var last := |trace| - 1;
      var e := trace[last];
      MapAdmissions(b, trace[..last], key, from, to)
      + if e.Request? && e.key == key && from <= e.at < to && VerdictAt(b, trace, last).ok then 1 else 0
  }

  lemma {:induction false} MapAdmitsLikeTheReference(b: Budget, trace: seq<Event>, key: string, from: int, to: int)
    requires b.window > 0 && Monotone(trace)
    ensures MapAdmissions(b, trace, key, from, to) == Admissions(b, TimesOf(key, trace), from, to)
  {
    if trace != [] {
      var last := |trace| - 1;
      var times := TimesOf(key, trace[..last]);
      MonotonePrefix(trace, last);
      MapAdmitsLikeTheReference(b, trace[..last], key, from, to);
      if trace[last].Request? && trace[last].key == key {
        SweepsAndOtherKeysAreInvisible(b, trace, last);
        assert (times + [trace[last].at])[..|times|] == times;
      }
    }
  }

  lemma {:induction false} TimesAreSorted(key: string, trace: seq<Event>)
    requires Monotone(trace)
    ensures Sorted(TimesOf(key, trace))
    ensures trace == [] ==> TimesOf(key, trace) == []
    ensures trace != [] ==> AllBy(TimesOf(key, trace), trace[|trace| - 1].at)
  {
    if trace != [] {
      var last := |trace| - 1;
      MonotonePrefix(trace, last);
      TimesAreSorted(key, trace[..last]);
      SortedAppend(TimesOf(key, trace[..last]), [trace[last].at], trace[last].at);
    }
  }

  ghost predicate AllBy(times: seq<int>, at: int) {
    forall i | 0 <= i < |times| :: times[i] <= at
  }

  lemma SortedAppend(times: seq<int>, more: seq<int>, at: int)
    requires Sorted(times) && AllBy(times, at) && forall i | 0 <= i < |more| :: more[i] == at
    ensures Sorted(times + more) && AllBy(times + more, at)
  {
  }

  /** Whatever the other keys and the sweeper do, k windows admit at most (k+1)*limit - 1
      requests of a key; one window, 2*limit - 1. */
  lemma SlidingWindowBound(b: Budget, trace: seq<Event>, key: string, from: int, k: nat)
    requires b.limit >= 1 && b.window > 0 && Monotone(trace) && k >= 1
    ensures MapAdmissions(b, trace, key, from, from + k * b.window) <= (k + 1) * b.limit - 1
    ensures k == 1 ==> MapAdmissions(b, trace, key, from, from + b.window) <= 2 * b.limit - 1
  {
    MapAdmitsLikeTheReference(b, trace, key, from, from + k * b.window);
    TimesAreSorted(key, trace);
    IntervalBound(b, TimesOf(key, trace), from, k);
  }

  // ---- nobody is refused within budget ------------------------------------------------------

  /** The open window has counted exactly the requests admitted since it began. */
  lemma {:induction false} WindowCountsAdmissions(b: Budget, times: seq<int>, to: int)
    requires b.limit >= 1 && b.window > 0 && Sorted(times) && forall i | 0 <= i < |times| :: times[i] < to
    ensures times != [] ==> Alone(b, times).Some?
    ensures times != [] ==>
              var w, last := Alone(b, times).value, times[|times| - 1];
              Admissions(b, times, w.reset - b.window, to) == w.n && w.reset - b.window <= last < w.reset
  {
    if times != [] {
      var before, at := times[..|times| - 1], times[|times| - 1];
      WindowCountsAdmissions(b, before, to);
      if !IsOpen(Alone(b, before), at) {
        NothingBefore(b, before, at, to);
      }
    }
  }

  lemma {:induction false} MoreAdmitted(b: Budget, times: seq<int>, from: int, from': int, to: int)
    requires from <= from'
    ensures Admissions(b, times, from', to) <= Admissions(b, times, from, to)
  {
    if times != [] { MoreAdmitted(b, times[..|times| - 1], from, from', to); }
  }

  /** Whatever the other keys and the sweeper do, a request is refused only if its key has been admitted
      limit times in the one window of time that ends with it. */
  lemma RefusedOnlyWhenSpent(b: Budget, trace: seq<Event>, i: nat)
    requires b.limit >= 1 && b.window > 0 && Monotone(trace) && i < |trace| && trace[i].Request?
    requires !VerdictAt(b, trace, i).ok
    ensures MapAdmissions(b, trace[..i], trace[i].key, trace[i].at - b.window + 1, trace[i].at + 1) >= b.limit
  {
    var key, at := trace[i].key, trace[i].at;
    SweepsAndOtherKeysAreInvisible(b, trace, i);
    EarlierTimes(key, trace, i);
    SpentWhenRefused(b, TimesOf(key, trace[..i]), at);
    MonotonePrefix(trace, i);
    MapAdmitsLikeTheReference(b, trace[..i], key, at - b.window + 1, at + 1);
  }

  lemma EarlierTimes(key: string, trace: seq<Event>, i: nat)
    requires Monotone(trace) && i < |trace|
    ensures Sorted(TimesOf(key, trace[..i])) && AllBy(TimesOf(key, trace[..i]), trace[i].at)
  {
    var before := trace[..i];
    MonotonePrefix(trace, i);
    TimesAreSorted(key, before);
    if i > 0 { assert before[i - 1] == trace[i - 1] && trace[i - 1].at <= trace[i].at; }
  }

  lemma SpentWhenRefused(b: Budget, times: seq<int>, at: int)
    requires b.limit >= 1 && b.window > 0 && Sorted(times) && AllBy(times, at)
    requires !Decide(b, Alone(b, times), at).0.ok
    ensures Admissions(b, times, at - b.window + 1, at + 1) >= b.limit
  {
    WindowCountsAdmissions(b, times, at + 1);
    MoreAdmitted(b, times, at - b.window + 1, Alone(b, times).value.reset - b.window, at + 1);
  }

  /** A limit of zero or less admits every request of every trace, and counts nothing. */
  lemma {:induction false} DisabledAdmitsAll(b: Budget, trace: seq<Event>)
    requires b.limit <= 0
    ensures After(b, trace) == map[]
    ensures forall i | 0 <= i < |trace| && trace[i].Request? :: VerdictAt(b, trace, i).ok
  {
    if trace != [] {
      var last := |trace| - 1;
      DisabledAdmitsAll(b, trace[..last]);
      forall i | 0 <= i < |trace| && trace[i].Request? ensures VerdictAt(b, trace, i).ok {
        if i < last { assert trace[..last][..i] == trace[..i] && VerdictAt(b, trace[..last], i).ok; }
      }
    }
  }

  // ---- the bound is sharp -------------------------------------------------------------------

  function Burst(at: int, m: nat): seq<int> {
    seq(m, _ => at)
  }

  predicate Fits(b: Budget, w: Option<Window>, at: int, m: nat) {
    m <= b.limit && (IsOpen(w, at) ==> 0 <= w.value.n <= b.limit - m)
  }

  lemma BurstPrefix(times: seq<int>, at: int, m: nat)
    requires m > 0
    ensures var all := times + Burst(at, m);
            all != [] && all[..|all| - 1] == times + Burst(at, m - 1) && all[|all| - 1] == at
  {
    var all := times + Burst(at, m);
    assert all[..|all| - 1] == times + Burst(at, m - 1);
  }

  lemma {:induction false} BurstWindow(b: Budget, times: seq<int>, at: int, m: nat)
    requires b.limit >= 1 && b.window > 0 && Fits(b, Alone(b, times), at, m)
    ensures var w, w' := Alone(b, times), Alone(b, times + Burst(at, m));
            if m == 0 then w' == w
            else if IsOpen(w, at) then w' == Some(w.value.(n := w.value.n + m))
            else w' == Some(Window(m, at + b.window))
  {
    if m == 0 {
      assert times + Burst(at, 0) == times;
    } else {
      BurstPrefix(times, at, m);
      BurstWindow(b, times, at, m - 1);
    }
  }

  /** A burst that fits in the budget is admitted whole. */
  lemma {:induction false} BurstAdmitted(b: Budget, times: seq<int>, at: int, m: nat, from: int, to: int)
    requires b.limit >= 1 && b.window > 0 && Fits(b, Alone(b, times), at, m)
    ensures Admissions(b, times + Burst(at, m), from, to)
            == Admissions(b, times, from, to) + if from <= at < to then m else 0
  {
    if m == 0 {
      assert times + Burst(at, 0) == times;
    } else {
      BurstPrefix(times, at, m);
      BurstWindow(b, times, at, m - 1);
      BurstAdmitted(b, times, at, m - 1, from, to);
    }
  }

  /** One request, the rest of its budget at the end of the window, then a full budget at the
      start of each of the next k windows. */
  function WorstCase(b: Budget, k: nat): seq<int>
    requires b.limit >= 1
  {
    if k == 0 then Burst(0, 1) + Burst(b.window - 1, b.limit - 1)
    else WorstCase(b, k - 1) + Burst(k * b.window, b.limit)
  }

  lemma FullBurst(b: Budget, times: seq<int>, at: int, to: int)
    requires b.limit >= 1 && b.window > 0 && Alone(b, times) == Some(Window(b.limit, at)) && b.window <= at < to
    ensures Alone(b, times + Burst(at, b.limit)) == Some(Window(b.limit, at + b.window))
    ensures Admissions(b, times + Burst(at, b.limit), b.window - 1, to)
            == Admissions(b, times, b.window - 1, to) + b.limit
  {
    BurstWindow(b, times, at, b.limit);
    BurstAdmitted(b, times, at, b.limit, b.window - 1, to);
  }

  lemma FirstWindow(b: Budget, to: int)
    requires b.limit >= 1 && b.window >= 2 && b.window <= to
    ensures Alone(b, WorstCase(b, 0)) == Some(Window(b.limit, b.window))
    ensures Admissions(b, WorstCase(b, 0), b.window - 1, to) == b.limit - 1
  {
    assert [] + Burst(0, 1) == Burst(0, 1);
    BurstWindow(b, [], 0, 1);
    BurstAdmitted(b, [], 0, 1, b.window - 1, to);
    BurstWindow(b, Burst(0, 1), b.window - 1, b.limit - 1);
    BurstAdmitted(b, Burst(0, 1), b.window - 1, b.limit - 1, b.window - 1, to);
  }

  /** One more full window at the end. */
  lemma OneMoreWindow(b: Budget, times: seq<int>, k: nat, at: int, to: int)
    requires b.limit >= 1 && b.window >= 2 && k >= 1 && at == k * b.window && b.window <= at < to
    requires Alone(b, times) == Some(Window(b.limit, at))
    requires Admissions(b, times, b.window - 1, to) == k * b.limit - 1
    ensures Alone(b, times + Burst(at, b.limit)) == Some(Window(b.limit, (k + 1) * b.window))
    ensures Admissions(b, times + Burst(at, b.limit), b.window - 1, to) == (k + 1) * b.limit - 1
  {
    Neighbours(k, b.window);
    Neighbours(k, b.limit);
    FullBurst(b, times, at, to);
  }

  lemma {:induction false} WorstCaseAdmits(b: Budget, k: nat, to: int)
    requires b.limit >= 1 && b.window >= 2 && k * b.window < to && b.window <= to
    ensures Alone(b, WorstCase(b, k)) == Some(Window(b.limit, (k + 1) * b.window))
    ensures Admissions(b, WorstCase(b, k), b.window - 1, to) == (k + 1) * b.limit - 1
  {
    if k == 0 {
      FirstWindow(b, to);
    } else {
      Neighbours(k, b.window);
      Scale(1, k, b.window);
      var at, before := k * b.window, WorstCase(b, k - 1);
      WorstCaseAdmits(b, k - 1, to);
      assert (k - 1 + 1) * b.window == at && (k - 1 + 1) * b.limit == k * b.limit;
      OneMoreWindow(b, before, k, at, to);
    }
  }

  lemma {:induction false} WorstCaseIsSorted(b: Budget, k: nat)
    requires b.limit >= 1 && b.window >= 2
    ensures Sorted(WorstCase(b, k)) && AllBy(WorstCase(b, k), if k == 0 then b.window - 1 else k * b.window)
  {
    if k == 0 {
      SortedAppend([], Burst(0, 1), 0);
      assert [] + Burst(0, 1) == Burst(0, 1);
      SortedAppend(Burst(0, 1), Burst(b.window - 1, b.limit - 1), b.window - 1);
    } else {
      WorstCaseIsSorted(b, k - 1);
      assert k * b.window == (k - 1) * b.window + b.window;
      Scale(1, k, b.window);
      SortedAppend(WorstCase(b, k - 1), Burst(k * b.window, b.limit), k * b.window);
    }
  }

  /** k windows admit as many requests as the bound allows. */
  ghost predicate ReachesTheBound(b: Budget, k: nat, times: seq<int>, from: int) {
    Sorted(times) && Admissions(b, times, from, from + k * b.window) == (k + 1) * b.limit - 1
  }

  /** For every budget and every k the bound is reached. */
  lemma BoundIsSharp(b: Budget, k: nat)
    requires b.limit >= 1 && b.window >= 2 && k >= 1
    ensures exists times, from :: ReachesTheBound(b, k, times, from)
  {
    WorstCaseIsSorted(b, k);
    Scale(1, k, b.window);
    WorstCaseAdmits(b, k, b.window - 1 + k * b.window);
    assert ReachesTheBound(b, k, WorstCase(b, k), b.window - 1);
  }

  // ---- Retry-After ---------------------------------------------------------------------------

  /** A refusal reports exactly how long the key stays closed: with no other request of its
      own in between, the next one is admitted if and only if it comes that much later. */
  lemma RetryIsExact(b: Budget, trace: seq<Event>, i: nat, j: nat)
    requires b.limit >= 1 && b.window > 0 && Monotone(trace) && i < j < |trace|
    requires trace[i].Request? && trace[j].Request? && trace[i].key == trace[j].key
    requires forall h | i < h < j :: !(trace[h].Request? && trace[h].key == trace[i].key)
    requires !VerdictAt(b, trace, i).ok
    ensures 0 < VerdictAt(b, trace, i).retry <= b.window
    ensures VerdictAt(b, trace, j).ok <==> trace[j].at >= trace[i].at + VerdictAt(b, trace, i).retry
  {
    var key := trace[i].key;
    SweepsAndOtherKeysAreInvisible(b, trace, i);
    SweepsAndOtherKeysAreInvisible(b, trace, j);
    MonotonePrefix(trace, i);
    TimesAreSorted(key, trace[..i]);
    ResetIsNear(b, TimesOf(key, trace[..i]), trace[i].at);
    OnlyOneMore(b, trace, i, j);
  }

  lemma {:induction false} ResetIsNear(b: Budget, times: seq<int>, now: int)
    requires AllBy(times, now)
    ensures Alone(b, times).Some? ==> Alone(b, times).value.reset <= now + b.window
  {
    if times != [] {
      ResetIsNear(b, times[..|times| - 1], now);
    }
  }

  lemma {:induction false} OnlyOneMore(b: Budget, trace: seq<Event>, i: nat, j: nat)
    requires i < j <= |trace| && trace[i].Request?
    requires forall h | i < h < j :: !(trace[h].Request? && trace[h].key == trace[i].key)
    ensures TimesOf(trace[i].key, trace[..j]) == TimesOf(trace[i].key, trace[..i]) + [trace[i].at]
    ensures Alone(b, TimesOf(trace[i].key, trace[..j])) ==
            Decide(b, Alone(b, TimesOf(trace[i].key, trace[..i])), trace[i].at).1
    decreases j
  {
    assert trace[..j][..j - 1] == trace[..j - 1];
    var times := TimesOf(trace[i].key, trace[..i]);
    assert (times + [trace[i].at])[..|times|] == times;
    if i < j - 1 { OnlyOneMore(b, trace, i, j - 1); }
  }

  /** rateLimited's Retry-After header: whole seconds, truncated, at least one. */
  function RetryAfter(retry: int): int {
    if retry / SECOND < 1 then 1 else retry / SECOND
  }

  /** The header is the wait in whole seconds: never none, and longer than the wait only when that is
      less than a second. */
  lemma HeaderIsTheWait(b: Budget, trace: seq<Event>, i: nat)
    requires b.limit >= 1 && b.window > 0 && Monotone(trace) && i < |trace| && trace[i].Request?
    requires !VerdictAt(b, trace, i).ok
    ensures var retry := VerdictAt(b, trace, i).retry;
            if retry < 1_000_000_000 then RetryAfter(retry) == 1
            else RetryAfter(retry) * 1_000_000_000 <= retry < (RetryAfter(retry) + 1) * 1_000_000_000
  {
  }

  lemma Truncation(retry: int)
    requires retry > 0
    ensures RetryAfter(retry) * SECOND >= retry <==> retry <= SECOND || retry % SECOND == 0
    ensures retry - RetryAfter(retry) * SECOND < SECOND
  {
  }

  /** Two refusals in a row come from one window. */
  lemma RefusedTwiceInOneWindow(b: Budget, trace: seq<Event>, i: nat, j: nat)
    requires b.limit >= 1 && b.window > 0 && Monotone(trace) && i < j < |trace|
    requires trace[i].Request? && trace[j].Request? && trace[i].key == trace[j].key
    requires forall h | i < h < j :: !(trace[h].Request? && trace[h].key == trace[i].key)
    requires !VerdictAt(b, trace, i).ok && !VerdictAt(b, trace, j).ok
    ensures trace[j].at + VerdictAt(b, trace, j).retry == trace[i].at + VerdictAt(b, trace, i).retry
  {
    SweepsAndOtherKeysAreInvisible(b, trace, i);
    SweepsAndOtherKeysAreInvisible(b, trace, j);
    OnlyOneMore(b, trace, i, j);
  }

  /** In every trace, a client that waits what the header says, with no other request of its key in
      between, is admitted exactly if nothing was truncated away; if it was, the header of the second
      refusal is enough. */
  lemma AtMostOneMoreRefusal(b: Budget, trace: seq<Event>, i: nat, j: nat, k: nat)
    requires b.limit >= 1 && b.window > 0 && Monotone(trace) && i < j < k < |trace|
    requires trace[i].Request? && trace[j].Request? && trace[k].Request?
    requires trace[i].key == trace[j].key == trace[k].key
    requires forall h | i < h < k && h != j :: !(trace[h].Request? && trace[h].key == trace[i].key)
    requires !VerdictAt(b, trace, i).ok
    requires trace[j].at == trace[i].at + RetryAfter(VerdictAt(b, trace, i).retry) * SECOND
    requires trace[k].at >= trace[j].at + RetryAfter(VerdictAt(b, trace, j).retry) * SECOND
    ensures var retry := VerdictAt(b, trace, i).retry;
            VerdictAt(b, trace, j).ok <==> retry <= SECOND || retry % SECOND == 0
    ensures !VerdictAt(b, trace, j).ok ==> VerdictAt(b, trace, k).ok
  {
    RetryIsExact(b, trace, i, j);
    Truncation(VerdictAt(b, trace, i).retry);
    if !VerdictAt(b, trace, j).ok {
      RetryIsExact(b, trace, j, k);
      RefusedTwiceInOneWindow(b, trace, i, j);
      Truncation(VerdictAt(b, trace, j).retry);
    }
  }
}
