/** The event-stream reader of useSSE.ts: the read loop with its line buffer and frame parser,
    and the bounded feed of monitorStore.ts that it fills. */
module SseReader {
  import opened JsStrings
  import opened Options

  const FEED_LIMIT := 100

  type Line = string

  datatype Frame = Frame(event: string, data: string)

  // ---- lines ------------------------------------------------------------------------------

  /** One more character in front of a list of lines. */
  function Before(c: char, lines: seq<Line>): (r: seq<Line>)
    requires lines != []
    ensures r != []
  {
    if c == '\n' then [""] + lines else [[c] + lines[0]] + lines[1..]
  }

  /** s.split('\n') */
  function SplitLines(s: string): (lines: seq<Line>)
    ensures lines != []
  {
    if s == "" then [""] else Before(s[0], SplitLines(s[1..]))
  }

  function Last(lines: seq<Line>): Line
    requires lines != []
  {
    lines[|lines| - 1]
  }

  function ButLast(lines: seq<Line>): seq<Line>
    requires lines != []
  {
    lines[..|lines| - 1]
  }

  /** The complete lines each read hands to the parser. */
  function Reads(buffer: string, chunks: seq<string>): seq<seq<Line>>
    decreases |chunks|
  {
    if chunks == [] then []
    else
      var lines := SplitLines(buffer + chunks[0]);
      [ButLast(lines)] + Reads(Last(lines), chunks[1..])
  }

  /** What is left in the buffer after all reads. */
  function BufferAfter(buffer: string, chunks: seq<string>): string
    decreases |chunks|
  {
    if chunks == [] then buffer else BufferAfter(Last(SplitLines(buffer + chunks[0])), chunks[1..])
  }

  function Concat<T>(parts: seq<seq<T>>): seq<T> {
    if parts == [] then [] else parts[0] + Concat(parts[1..])
  }

  // ---- the frame parser -------------------------------------------------------------------

  const EVENT := "event:"
  const DATA := "data:"

  /** currentEvent and currentData */
  datatype Partial = Partial(event: string, data: string)

  const NOTHING := Partial("", "")

  predicate Ends(p: Partial, line: Line) {
    line == "" && p.data != ""
  }

  function Step(p: Partial, line: Line): Partial {
    if EVENT <= line then p.(event := Trim(line[6..]))
    else if DATA <= line then p.(data := Trim(line[5..]))
    else if Ends(p, line) then NOTHING
    else p
  }

  function Dispatch(p: Partial, line: Line): seq<Frame> {
    if Ends(p, line) then [Frame(p.event, p.data)] else []
  }

  /** One pass of the parser over a list of lines. */
  function Frames(p: Partial, lines: seq<Line>): seq<Frame>
    decreases |lines|
  {
    if lines == [] then [] else Dispatch(p, lines[0]) + Frames(Step(p, lines[0]), lines[1..])
  }

  function PartialAfter(p: Partial, lines: seq<Line>): Partial
    decreases |lines|
  {
    if lines == [] then p else PartialAfter(Step(p, lines[0]), lines[1..])
  }

  /** What the code dispatches: the parser's state p does not outlive the first read. */
  function FramesByRead(p: Partial, batches: seq<seq<Line>>): seq<Frame>
    decreases |batches|
  {
    if batches == [] then [] else Frames(p, batches[0]) + FramesByRead(NOTHING, batches[1..])
  }

  lemma {:induction false} FramesAppend(p: Partial, a: seq<Line>, b: seq<Line>)
    ensures Frames(p, a + b) == Frames(p, a) + Frames(PartialAfter(p, a), b)
    ensures PartialAfter(p, a + b) == PartialAfter(PartialAfter(p, a), b)
    decreases |a|
  {
    if a == [] {
      assert a + b == b;
    } else {
      assert (a + b)[1..] == a[1..] + b;
      FramesAppend(Step(p, a[0]), a[1..], b);
    }
  }

  // ---- lines do not depend on the chunking ------------------------------------------------

  lemma {:induction false} SplitAppend(s: string, t: string)
    ensures var a := SplitLines(s); SplitLines(s + t) == ButLast(a) + SplitLines(Last(a) + t)
  {
    if s == "" {
      assert s + t == t;
    } else {
      var rest := SplitLines(s[1..]);
      SplitAppend(s[1..], t);
      assert (s + t)[1..] == s[1..] + t && (s + t)[0] == s[0];
      if s[0] == '\n' || |rest| > 1 {
        BeforeAppend(s[0], rest, SplitLines(Last(rest) + t));
      } else {
        BeforeOnly(s[0], rest[0], t);
        assert rest == [rest[0]];
      }
    }
  }

  lemma BeforeAppend(c: char, lines: seq<Line>, more: seq<Line>)
    requires lines != [] && more != [] && (c == '\n' || |lines| > 1)
    ensures Last(Before(c, lines)) == Last(lines)
    ensures Before(c, ButLast(lines) + more) == ButLast(Before(c, lines)) + more
  {
    if c != '\n' {
      assert (ButLast(lines) + more)[1..] == ButLast(lines)[1..] + more;
    }
  }

  lemma BeforeOnly(c: char, line: Line, t: string)
    requires c != '\n'
    ensures var a := Before(c, [line]); ButLast(a) == [] && SplitLines(Last(a) + t) == Before(c, SplitLines(line + t))
  {
    var u := ([c] + line) + t;
    assert Before(c, [line]) == [[c] + line];
    assert u[0] == c && u[1..] == line + t;
  }

  /** The lines parsed so far and the buffer are the newline split of the whole input. */
  lemma {:induction false} LinesIgnoreTheChunking(buffer: string, chunks: seq<string>)
    requires '\n' !in buffer
    ensures Concat(Reads(buffer, chunks)) + [BufferAfter(buffer, chunks)] == SplitLines(buffer + Concat(chunks))
    ensures '\n' !in BufferAfter(buffer, chunks)
    decreases |chunks|
  {
    if chunks == [] {
      assert buffer + [] == buffer;
      NoNewline(buffer);
    } else {
      var s, t := buffer + chunks[0], Concat(chunks[1..]);
      var lines := SplitLines(s);
      assert buffer + Concat(chunks) == s + t;
      LastHasNoNewline(s);
      LinesIgnoreTheChunking(Last(lines), chunks[1..]);
      SplitAppend(s, t);
      var batches := Reads(Last(lines), chunks[1..]);
      assert ([ButLast(lines)] + batches)[1..] == batches;
      assert (ButLast(lines) + Concat(batches)) + [BufferAfter(buffer, chunks)]
          == ButLast(lines) + (Concat(batches) + [BufferAfter(buffer, chunks)]);
    }
  }

  lemma {:induction false} NoNewline(s: string)
    requires '\n' !in s
    ensures SplitLines(s) == [s]
  {
    if s != "" { NoNewline(s[1..]); assert [s[0]] + s[1..] == s; }
  }

  lemma {:induction false} LastHasNoNewline(s: string)
    ensures '\n' !in Last(SplitLines(s))
    ensures forall i | 0 <= i < |SplitLines(s)| :: '\n' !in SplitLines(s)[i]
  {
    if s != "" { LastHasNoNewline(s[1..]); }
  }

  // ---- the feed ---------------------------------------------------------------------------

  function Added<E>(feed: seq<E>, e: E): seq<E> {
    if |feed| >= FEED_LIMIT then ([e] + feed)[..FEED_LIMIT] else [e] + feed
  }

  /** One dispatched frame: processEvent recognises an event in it, or does not. */
  function Fed<E>(feed: seq<E>, process: Frame -> Option<E>, frame: Frame): seq<E> {
    if process(frame).Some? then Added(feed, process(frame).value) else feed
  }

  function FedAll<E>(feed: seq<E>, process: Frame -> Option<E>, frames: seq<Frame>): seq<E>
    decreases |frames|
  {
    if frames == [] then feed else FedAll(Fed(feed, process, frames[0]), process, frames[1..])
  }

  lemma {:induction false} FedAppend<E>(feed: seq<E>, process: Frame -> Option<E>, a: seq<Frame>, b: seq<Frame>)
    ensures FedAll(feed, process, a + b) == FedAll(FedAll(feed, process, a), process, b)
    decreases |a|
  {
    if a == [] {
      assert a + b == b;
    } else {
      assert (a + b)[1..] == a[1..] + b;
      FedAppend(Fed(feed, process, a[0]), process, a[1..], b);
    }
  }

  class LiveFeed<E> {
    var liveEvents: seq<E>

    constructor ()
      ensures liveEvents == []
    {
      liveEvents := [];
    }

    method AddLiveEvent(e: E)
      modifies this
      ensures liveEvents == Added(old(liveEvents), e)
    {
      liveEvents := [e] + liveEvents;
      if |liveEvents| > FEED_LIMIT {
        liveEvents := liveEvents[..FEED_LIMIT];
      }
    }

    method ClearLiveEvents()
      modifies this
      ensures liveEvents == []
    {
      liveEvents := [];
    }
  }

  // ---- the read loop ----------------------------------------------------------------------

  lemma FedByLine<E>(feed: seq<E>, process: Frame -> Option<E>, p: Partial, lines: seq<Line>)
    requires lines != []
    ensures var feed' := if Ends(p, lines[0]) then Fed(feed, process, Frame(p.event, p.data)) else feed;
            FedAll(feed, process, Frames(p, lines)) == FedAll(feed', process, Frames(Step(p, lines[0]), lines[1..]))
  {
    var rest := Frames(Step(p, lines[0]), lines[1..]);
    assert [] + rest == rest;
    assert ([Frame(p.event, p.data)] + rest)[1..] == rest;
  }

  /** One read: parse its complete lines, with currentEvent and currentData new. */
  method ParseLines<E>(lines: seq<Line>, process: Frame -> Option<E>, feed: LiveFeed<E>)
    modifies feed
    ensures feed.liveEvents == FedAll(old(feed.liveEvents), process, Frames(NOTHING, lines))
  {
    var currentEvent, currentData := "", "";
    for i := 0 to |lines|
      invariant FedAll(old(feed.liveEvents), process, Frames(NOTHING, lines))
             == FedAll(feed.liveEvents, process, Frames(Partial(currentEvent, currentData), lines[i..]))
    {
      var line := lines[i];
      FedByLine(feed.liveEvents, process, Partial(currentEvent, currentData), lines[i..]);
      assert lines[i..][1..] == lines[i + 1..];
      if EVENT <= line {
        currentEvent := Trim(line[6..]);
      } else if DATA <= line {
        currentData := Trim(line[5..]);
      } else if line == "" && currentData != "" {
        var e := process(Frame(currentEvent, currentData));
        if e.Some? {
          feed.AddLiveEvent(e.value);
        }
        currentEvent, currentData := "", "";
      }
    }
  }

  /** The read loop, given the decoded chunks of a stream that ends. */
  method ReadLoop<E>(chunks: seq<string>, process: Frame -> Option<E>, feed: LiveFeed<E>)
    modifies feed
    ensures feed.liveEvents == FedAll(old(feed.liveEvents), process, FramesByRead(NOTHING, Reads("", chunks)))
  {
    var buffer := "";
    for i := 0 to |chunks|
      invariant FedAll(old(feed.liveEvents), process, FramesByRead(NOTHING, Reads("", chunks)))
             == FedAll(feed.liveEvents, process, FramesByRead(NOTHING, Reads(buffer, chunks[i..])))
    {
      FedByRead(feed.liveEvents, process, buffer, chunks[i..]);
      assert chunks[i..][1..] == chunks[i + 1..];
      buffer := buffer + chunks[i];
      var lines := SplitLines(buffer);
      buffer := Last(lines);
      lines := ButLast(lines);
      ParseLines(lines, process, feed);
    }
  }

  lemma FedByRead<E>(feed: seq<E>, process: Frame -> Option<E>, buffer: string, chunks: seq<string>)
    requires chunks != []
    ensures var lines := SplitLines(buffer + chunks[0]);
            FedAll(feed, process, FramesByRead(NOTHING, Reads(buffer, chunks)))
            == FedAll(FedAll(feed, process, Frames(NOTHING, ButLast(lines))), process,
                      FramesByRead(NOTHING, Reads(Last(lines), chunks[1..])))
  {
    var lines := SplitLines(buffer + chunks[0]);
    var rest := Reads(Last(lines), chunks[1..]);
    assert ([ButLast(lines)] + rest)[1..] == rest;
    FedAppend(feed, process, Frames(NOTHING, ButLast(lines)), FramesByRead(NOTHING, rest));
  }

  // ---- the feed is bounded and newest first -----------------------------------------------

  /** The events recognised in the dispatched frames, oldest first. */
  function Recognised<E>(process: Frame -> Option<E>, frames: seq<Frame>): seq<E> {
    if frames == [] then []
    else (if process(frames[0]).Some? then [process(frames[0]).value] else []) + Recognised(process, frames[1..])
  }

  function Reversed<E>(s: seq<E>): (r: seq<E>)
    ensures |r| == |s| && forall i | 0 <= i < |s| :: r[i] == s[|s| - 1 - i]
  {
    if s == [] then [] else Reversed(s[1..]) + [s[0]]
  }

  function Newest<E>(n: nat, s: seq<E>): seq<E> {
    if |s| <= n then s else s[..n]
  }

  /** The feed holds the newest hundred of the events ever added, newest first. */
  lemma {:induction false} FeedIsTheNewest<E>(feed: seq<E>, process: Frame -> Option<E>, frames: seq<Frame>)
    requires |feed| <= 100
    ensures FedAll(feed, process, frames) == Newest(100, Reversed(Recognised(process, frames)) + feed)
    decreases |frames|
  {
    if frames == [] {
      assert Reversed(Recognised(process, frames)) + feed == feed;
    } else {
      var later := Recognised(process, frames[1..]);
      FeedIsTheNewest(Fed(feed, process, frames[0]), process, frames[1..]);
      if process(frames[0]).Some? {
        NewestOfNewest(feed, process(frames[0]).value, later);
        assert Recognised(process, frames) == [process(frames[0]).value] + later;
      } else {
        assert Recognised(process, frames) == [] + later == later;
      }
    }
  }

  lemma NewestOfNewest<E>(feed: seq<E>, e: E, later: seq<E>)
    requires |feed| <= FEED_LIMIT
    ensures Newest(FEED_LIMIT, Reversed(later) + Added(feed, e)) == Newest(FEED_LIMIT, Reversed([e] + later) + feed)
  {
    assert ([e] + later)[1..] == later;
    assert Reversed([e] + later) + feed == Reversed(later) + ([e] + feed);
  }
}
