/** The per-key fixed-window limiter of bff/ratelimit.go: the mutable map of counters behind
    its mutex, and the mathematical limiter it is proved against.  Times and durations are
    nanoseconds. */
module RateLimiter {

  import opened Options

  const SECOND := 1_000_000_000

  /** newRateLimiter's parameters; a non-positive limit disables the limiter. */
  datatype Budget = Budget(limit: int, window: int)

  datatype Window = Window(n: int, reset: int)
  datatype Verdict = Verdict(ok: bool, retry: int)

  // ---- one key ---------------------------------------------------------------------------

  predicate IsOpen(w: Option<Window>, now: int) {
    w.Some? && now < w.value.reset
  }

  /** The verdict on one event of a key, and the key's window after it. */
  function Decide(b: Budget, w: Option<Window>, now: int): (Verdict, Option<Window>) {
    if b.limit <= 0 then (Verdict(true, 0), w)
    else if !IsOpen(w, now) then (Verdict(true, 0), Some(Window(1, now + b.window)))
    else if w.value.n >= b.limit then (Verdict(false, w.value.reset - now), w)
    else (Verdict(true, 0), Some(w.value.(n := w.value.n + 1)))
  }

  // ---- all keys --------------------------------------------------------------------------

  type Counts = map<string, Window>

  function Lookup(m: Counts, key: string): Option<Window> {
    if key in m then Some(m[key]) else None
  }

  function Store(m: Counts, key: string, w: Option<Window>): Counts {
    if w.Some? then m[key := w.value] else m
  }

  function Allowed(b: Budget, m: Counts, key: string, now: int): (Verdict, Counts) {
    var (v, w) := Decide(b, Lookup(m, key), now);
    (v, Store(m, key, w))
  }

  lemma StoreBack(m: Counts, key: string)
    ensures Store(m, key, Lookup(m, key)) == m
  {
  }

  function Swept(m: Counts, now: int): Counts {
    map k | k in m && now < m[k].reset :: m[k]
  }

  // ---- the limiter -----------------------------------------------------------------------

  class Counter {
    var n: int
    var reset: int

    constructor (n: int, reset: int)
      ensures this.n == n && this.reset == reset
    {
      this.n := n;
      this.reset := reset;
    }
  }

  class Limiter {
    const limit: int
    const window: int
    var counts: map<string, Counter>

    constructor (limit: int, window: int)
      ensures this.limit == limit && this.window == window && fresh(this)
      ensures Valid() && Contents() == map[]
    {
      this.limit := limit;
      this.window := window;
      counts := map[];
    }

    ghost function Counters(): set<Counter>
      reads this
    {
      set k | k in counts :: counts[k]
    }

    /** No two keys share a counter. */
    ghost predicate Valid()
      reads this
    {
      forall j, k | j in counts && k in counts && counts[j] == counts[k] :: j == k
    }

    ghost function Contents(): Counts
      reads this, Counters()
    {
      map k | k in counts :: Window(counts[k].n, counts[k].reset)
    }

    function Parameters(): Budget {
      Budget(limit, window)
    }

    /** allow, for a caller that read the clock at now. */
    method Allow(key: string, now: int) returns (ok: bool, retry: int)
      requires Valid()
      modifies this, Counters()
      ensures Valid() && fresh(Counters() - old(Counters()))
      ensures Verdict(ok, retry) == Allowed(Parameters(), old(Contents()), key, now).0
      ensures Contents() == Allowed(Parameters(), old(Contents()), key, now).1
    {
      StoreBack(Contents(), key);
      if limit <= 0 {
        return true, 0;
      }
      if key !in counts || now >= counts[key].reset {
        var c := new Counter(1, now + window);
        counts := counts[key := c];
        assert Contents() == old(Contents())[key := Window(1, now + window)];
        return true, 0;
      }
      var c := counts[key];
      if c.n >= limit {
        return false, c.reset - now;
      }
      c.n := c.n + 1;
      assert Contents() == old(Contents())[key := Window(c.n, c.reset)];
      return true, 0;
    }

    /** sweep, which deletes from the map while it ranges over it. */
    method Sweep(now: int)
      requires Valid()
      modifies this
      ensures Valid() && Counters() <= old(Counters())
      ensures Contents() == Swept(old(Contents()), now)
    {
      var todo := counts.Keys;
      while todo != {}
        invariant todo <= counts.Keys <= old(counts).Keys
        invariant forall k | k in counts :: counts[k] == old(counts)[k]
        invariant forall k | k in old(counts) && k !in todo :: k in counts <==> now < old(counts)[k].reset
      {
        var k :| k in todo;
        if now >= counts[k].reset {
          counts := counts - {k};
        }
        todo := todo - {k};
      }
    }
  }
}
