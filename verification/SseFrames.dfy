/** Which chunkings of an event stream leave its events alone.  Lines survive any chunking, but
    useSSE.ts declares currentEvent and currentData inside the read loop, so a frame whose lines
    come in different reads can lose its data or its type. */
module SseFrames {
  import opened SseReader

  /** Which of the partial frame's values were read before the latest read boundary. */
  datatype Cut = Cut(event: bool, data: bool)

  const UNCUT := Cut(false, false)

  function Move(p: Partial, cut: Cut, line: Line): Cut {
    if EVENT <= line then cut.(event := false)
    else if DATA <= line then cut.(data := false)
    else if Ends(p, line) then UNCUT
    else cut
  }

  function CutAfter(p: Partial, cut: Cut, lines: seq<Line>): Cut
    decreases |lines|
  {
    if lines == [] then cut else CutAfter(Step(p, lines[0]), Move(p, cut, lines[0]), lines[1..])
  }

  function AtBoundary(p: Partial): Cut {
    Cut(p.event != "", p.data != "")
  }

  /** No frame that ends in these lines has a value from before the boundary. */
  predicate Intact(p: Partial, cut: Cut, lines: seq<Line>)
    decreases |lines|
  {
    lines == [] ||
    ((Ends(p, lines[0]) ==> cut == UNCUT) && Intact(Step(p, lines[0]), Move(p, cut, lines[0]), lines[1..]))
  }

  /** In one pass over the stream, no read boundary falls between the line that set a value of a
      frame and the blank line that ends the frame. */
  predicate NoFrameIsCut(p: Partial, cut: Cut, batches: seq<seq<Line>>)
    decreases |batches|
  {
    batches == [] ||
    (Intact(p, cut, batches[0]) &&
     var p' := PartialAfter(p, batches[0]);
     NoFrameIsCut(p', AtBoundary(p'), batches[1..]))
  }

  /** What the code still knows of the partial frame. */
  function Kept(p: Partial, cut: Cut): Partial {
    Partial(if cut.event then "" else p.event, if cut.data then "" else p.data)
  }

  /** A value counts as cut only if there is one. */
  predicate Honest(p: Partial, cut: Cut) {
    (cut.event ==> p.event != "") && (cut.data ==> p.data != "")
  }

  // ---- enough -----------------------------------------------------------------------------

  lemma KeptStep(p: Partial, cut: Cut, line: Line)
    requires Ends(p, line) ==> cut == UNCUT
    ensures Step(Kept(p, cut), line) == Kept(Step(p, line), Move(p, cut, line))
    ensures Dispatch(Kept(p, cut), line) == Dispatch(p, line)
  {
    if EVENT <= line { assert line != ""; } else if DATA <= line { assert line != ""; }
  }

  lemma HonestStep(p: Partial, cut: Cut, line: Line)
    requires Honest(p, cut)
    ensures Honest(Step(p, line), Move(p, cut, line))
  {
  }

  lemma {:induction false} IntactLines(p: Partial, cut: Cut, lines: seq<Line>)
    requires Intact(p, cut, lines)
    ensures Frames(Kept(p, cut), lines) == Frames(p, lines)
    decreases |lines|
  {
    if lines != [] {
      KeptStep(p, cut, lines[0]);
      IntactLines(Step(p, lines[0]), Move(p, cut, lines[0]), lines[1..]);
    }
  }

  // ---- necessary --------------------------------------------------------------------------

  /** c is behind p: it has the same data, or none. */
  predicate Lags(c: Partial, p: Partial) {
    c.data == p.data || c.data == ""
  }

  lemma {:induction false} LaggingDispatchesLess(c: Partial, p: Partial, lines: seq<Line>)
    requires Lags(c, p)
    ensures |Frames(c, lines)| <= |Frames(p, lines)|
    decreases |lines|
  {
    if lines != [] {
      LaggingDispatchesLess(Step(c, lines[0]), Step(p, lines[0]), lines[1..]);
    }
  }

  /** Reading in pieces never dispatches more frames than one pass would. */
  lemma {:induction false} CutsNeverAddFrames(c: Partial, p: Partial, batches: seq<seq<Line>>)
    requires Lags(c, p)
    ensures |FramesByRead(c, batches)| <= |Frames(p, Concat(batches))|
    decreases |batches|
  {
    if batches != [] {
      LaggingDispatchesLess(c, p, batches[0]);
      FramesAppend(p, batches[0], Concat(batches[1..]));
      CutsNeverAddFrames(NOTHING, PartialAfter(p, batches[0]), batches[1..]);
    }
  }

  /** A cut frame shows: it is missing, or its type is, whatever follows. */
  lemma {:induction false} CutLines(p: Partial, cut: Cut, lines: seq<Line>, x: seq<Frame>, y: seq<Frame>)
    requires Honest(p, cut) && !Intact(p, cut, lines) && |x| <= |y|
    ensures Frames(Kept(p, cut), lines) + x != Frames(p, lines) + y
    decreases |lines|
  {
    var c, line, rest := Kept(p, cut), lines[0], lines[1..];
    if !Ends(p, line) || cut == UNCUT {
      KeptStep(p, cut, line);
      HonestStep(p, cut, line);
      CutLines(Step(p, line), Move(p, cut, line), rest, x, y);
      SameFront(Dispatch(p, line), Frames(Step(c, line), rest), x, Frames(Step(p, line), rest), y);
    } else if cut.data {
      LaggingDispatchesLess(Step(c, line), Step(p, line), rest);
      assert |Frames(c, lines)| < |Frames(p, lines)|;
    } else {
      assert (Frames(c, lines) + x)[0] == Frame("", p.data);
      assert (Frames(p, lines) + y)[0] == Frame(p.event, p.data);
    }
  }

  lemma SameFront<T>(front: seq<T>, a: seq<T>, x: seq<T>, b: seq<T>, y: seq<T>)
    requires a + x != b + y
    ensures (front + a) + x != (front + b) + y
  {
    var u, v := (front + a) + x, (front + b) + y;
    assert u == front + (a + x) && v == front + (b + y);
    assert u[|front|..] == a + x && v[|front|..] == b + y;
  }

  lemma Cancel<T>(front: seq<T>, x: seq<T>, y: seq<T>)
    ensures front + x == front + y <==> x == y
  {
    assert (front + x)[|front|..] == x && (front + y)[|front|..] == y;
  }

  // ---- the exact condition ------------------------------------------------------------------

  lemma {:induction false} ExactFrom(p: Partial, cut: Cut, batches: seq<seq<Line>>)
    requires Honest(p, cut)
    ensures FramesByRead(Kept(p, cut), batches) == Frames(p, Concat(batches)) <==> NoFrameIsCut(p, cut, batches)
    decreases |batches|
  {
    if batches != [] {
      var lines, rest := batches[0], batches[1..];
      var p' := PartialAfter(p, lines);
      FramesAppend(p, lines, Concat(rest));
      ExactFrom(p', AtBoundary(p'), rest);
      var x, y := FramesByRead(NOTHING, rest), Frames(p', Concat(rest));
      assert Kept(p', AtBoundary(p')) == NOTHING;
      if Intact(p, cut, lines) {
        IntactLines(p, cut, lines);
        Cancel(Frames(p, lines), x, y);
      } else {
        CutsNeverAddFrames(NOTHING, p', rest);
        CutLines(p, cut, lines, x, y);
      }
    }
  }

  /** The events dispatched equal those of one pass over the whole stream exactly when no read
      boundary cuts a frame. */
  lemma EventsSurviveExactlyWhenUncut(chunks: seq<string>)
    ensures var batches := Reads("", chunks);
            var whole := Frames(NOTHING, ButLast(SplitLines(Concat(chunks))));
            && (FramesByRead(NOTHING, batches) == whole <==> NoFrameIsCut(NOTHING, UNCUT, batches))
            && |FramesByRead(NOTHING, batches)| <= |whole|
  {
    var batches := Reads("", chunks);
    LinesIgnoreTheChunking("", chunks);
    assert "" + Concat(chunks) == Concat(chunks);
    assert ButLast(Concat(batches) + [BufferAfter("", chunks)]) == Concat(batches);
    ExactFrom(NOTHING, UNCUT, batches);
    CutsNeverAddFrames(NOTHING, NOTHING, batches);
  }

  /** In particular when every read ends between frames. */
  predicate EndBetweenFrames(batches: seq<seq<Line>>) {
    batches == [] || (PartialAfter(NOTHING, batches[0]) == NOTHING && EndBetweenFrames(batches[1..]))
  }

  lemma {:induction false} UncutIsIntact(p: Partial, lines: seq<Line>)
    ensures Intact(p, UNCUT, lines)
    decreases |lines|
  {
    if lines != [] { UncutIsIntact(Step(p, lines[0]), lines[1..]); }
  }

  lemma {:induction false} WholeFramesAreUncut(batches: seq<seq<Line>>)
    requires EndBetweenFrames(batches)
    ensures NoFrameIsCut(NOTHING, UNCUT, batches)
  {
    if batches != [] {
      UncutIsIntact(NOTHING, batches[0]);
      WholeFramesAreUncut(batches[1..]);
    }
  }
}
