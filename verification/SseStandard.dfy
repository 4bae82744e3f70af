/** Well-formed event streams: what a server writes is what useSSE.ts dispatches, and what section
    9.2.6 of the WHATWG HTML standard would dispatch. */
module SseStandard {
  import opened JsStrings
  import opened SseReader
  import opened SseFrames

  // ---- text made of lines -----------------------------------------------------------------

  function TextOf(lines: seq<Line>): string {
    if lines == [] then "" else lines[0] + ("\n" + TextOf(lines[1..]))
  }

  predicate NoNewlines(lines: seq<Line>) {
    forall i | 0 <= i < |lines| :: '\n' !in lines[i]
  }

  lemma {:induction false} SplitLine(line: Line, rest: string)
    requires '\n' !in line
    ensures SplitLines(line + ("\n" + rest)) == [line] + SplitLines(rest)
  {
    var s := line + ("\n" + rest);
    if line == "" {
      assert s == "\n" + rest && s[1..] == rest;
    } else {
      SplitLine(line[1..], rest);
      assert s[0] == line[0] && s[1..] == line[1..] + ("\n" + rest);
      assert [line[0]] + line[1..] == line;
    }
  }

  lemma {:induction false} SplitText(lines: seq<Line>)
    requires NoNewlines(lines)
    ensures SplitLines(TextOf(lines)) == lines + [""]
  {
    if lines != [] {
      SplitLine(lines[0], TextOf(lines[1..]));
      SplitText(lines[1..]);
    }
  }

  function Texts(batches: seq<seq<Line>>): seq<string> {
    if batches == [] then [] else [TextOf(batches[0])] + Texts(batches[1..])
  }

  /** Any division of lines over reads can happen. */
  lemma {:induction false} EveryDivisionHappens(batches: seq<seq<Line>>)
    requires forall i | 0 <= i < |batches| :: NoNewlines(batches[i])
    ensures Reads("", Texts(batches)) == batches
  {
    if batches != [] {
      SplitText(batches[0]);
      assert "" + TextOf(batches[0]) == TextOf(batches[0]);
      assert ButLast(batches[0] + [""]) == batches[0];
      EveryDivisionHappens(batches[1..]);
      assert Texts(batches)[1..] == Texts(batches[1..]);
    }
  }

  // ---- a cut frame can lend its type to another ---------------------------------------------

  /** "data:1" in one read and "event:x", a blank line, "data:2", a blank line in the next: the
      code dispatches (x, 2) alone, where one pass gives (x, 1) and (no type, 2). */
  lemma CutFrameMistypesTheNext(first: seq<Line>, second: seq<Line>, batches: seq<seq<Line>>)
    requires first == ["data:1"] && second == ["event:x", "", "data:2", ""]
    requires batches == Reads("", Texts([first, second]))
    ensures FramesByRead(NOTHING, batches) == [Frame("x", "2")]
    ensures Frames(NOTHING, Concat(batches)) == [Frame("x", "1"), Frame("", "2")]
  {
    EveryDivisionHappens([first, second]);
    FirstRead(first);
    TwoReads(first, second, batches);
    BothPasses(first, second);
  }

  lemma BothPasses(first: seq<Line>, second: seq<Line>)
    requires second == ["event:x", "", "data:2", ""]
    requires Frames(NOTHING, first) == [] && PartialAfter(NOTHING, first) == Partial("", "1")
    ensures Frames(NOTHING, second) == [Frame("x", "2")]
    ensures Frames(NOTHING, first + second) == [Frame("x", "1"), Frame("", "2")]
  {
    SecondRead(NOTHING, second);
    SecondRead(Partial("", "1"), second);
    FramesAppend(NOTHING, first, second);
  }

  lemma TwoReads(a: seq<Line>, b: seq<Line>, batches: seq<seq<Line>>)
    requires batches == [a, b]
    ensures FramesByRead(NOTHING, batches) == Frames(NOTHING, a) + Frames(NOTHING, b)
    ensures Concat(batches) == a + b
  {
    assert batches[1..] == [b] && [b][1..] == [];
    assert FramesByRead(NOTHING, [b]) == Frames(NOTHING, b) && Concat([b]) == b;
  }

  lemma FirstRead(lines: seq<Line>)
    requires lines == ["data:1"]
    ensures Frames(NOTHING, lines) == [] && PartialAfter(NOTHING, lines) == Partial("", "1")
  {
    assert "data:1"[5..] == "1" && Trim("1") == "1" && lines[1..] == [];
  }

  lemma SecondRead(p: Partial, lines: seq<Line>)
    requires lines == ["event:x", "", "data:2", ""] && p.event == ""
    ensures Frames(p, lines) == if p.data == "" then [Frame("x", "2")] else [Frame("x", p.data), Frame("", "2")]
  {
    assert "event:x"[6..] == "x" && Trim("x") == "x" && "data:2"[5..] == "2" && Trim("2") == "2";
    var a, b, c := lines[1..], lines[2..], lines[3..];
    assert a[1..] == b && b[1..] == c && c[1..] == [];
    var q := Step(Step(p, lines[0]), lines[1]);
    assert Frames(q, b) == Frames(q.(data := "2"), c) == [Frame(q.event, "2")];
  }

  // ---- trimming -----------------------------------------------------------------------------

  lemma {:induction false} TrimIsShorter(s: string)
    ensures |Trim(s)| <= |s|
    decreases |s|
  {
    if s != "" && IsSpace(s[0]) { TrimIsShorter(s[1..]); }
    else if s != "" && IsSpace(s[|s| - 1]) { TrimIsShorter(s[..|s| - 1]); }
  }

  lemma TrimmedStartsWithNoSpace(s: string)
    requires Trim(s) == s && s != ""
    ensures !IsSpace(s[0])
  {
    if IsSpace(s[0]) { TrimIsShorter(s[1..]); }
  }

  /** A value, or a value behind one space. */
  lemma Padded(pad: string, value: string)
    requires (pad == "" || pad == " ") && Trim(value) == value
    ensures Trim(pad + value) == value && Unpadded(pad + value) == value
  {
    if value != "" { TrimmedStartsWithNoSpace(value); }
    if pad == "" {
      assert pad + value == value;
    } else {
      assert (pad + value)[1..] == value;
    }
  }

  // ---- the standard -------------------------------------------------------------------------

  /** The event type and data buffers. */
  datatype Buffers = Buffers(event: string, data: string)

  /** "Remove one leading space from value, if any." */
  function Unpadded(value: string): string {
    if value != "" && value[0] == ' ' then value[1..] else value
  }

  function NameEnd(line: Line): (n: nat)
    ensures n <= |line|
  {
    if line == "" || line[0] == ':' then 0 else 1 + NameEnd(line[1..])
  }

  function FieldName(line: Line): string {
    line[..NameEnd(line)]
  }

  /** The field's value; empty when the line has no colon. */
  function FieldValue(line: Line): string {
    if NameEnd(line) == |line| then "" else Unpadded(line[NameEnd(line) + 1..])
  }

  function StandardStep(b: Buffers, line: Line): Buffers {
    if line == "" then Buffers("", "")
    else if FieldName(line) == "event" then b.(event := FieldValue(line))
    else if FieldName(line) == "data" then b.(data := b.data + FieldValue(line) + "\n")
    else b
  }

  /** On a blank line: nothing if the data buffer is empty, otherwise its contents without the
      last newline. */
  function StandardDispatch(b: Buffers, line: Line): seq<Frame> {
    if line == "" && b.data != "" then [Frame(b.event, b.data[..|b.data| - 1])] else []
  }

  function StandardFrames(b: Buffers, lines: seq<Line>): seq<Frame>
    decreases |lines|
  {
    if lines == [] then [] else StandardDispatch(b, lines[0]) + StandardFrames(StandardStep(b, lines[0]), lines[1..])
  }

  /** A line on which the code follows the standard, given the frame so far: an event or data
      value without outer white space, one data line per frame and not an empty one, no type
      without data, and no field name without a colon. */
  predicate Plain(p: Partial, line: Line) {
    if line == "" then p.data != "" || p.event == ""
    else if EVENT <= line then Trim(line[6..]) == Unpadded(line[6..])
    else if DATA <= line then p.data == "" && Trim(line[5..]) == Unpadded(line[5..]) != ""
    else line != "event" && line != "data"
  }

  predicate AllPlain(p: Partial, lines: seq<Line>)
    decreases |lines|
  {
    lines == [] || (Plain(p, lines[0]) && AllPlain(Step(p, lines[0]), lines[1..]))
  }

  function BuffersOf(p: Partial): Buffers {
    Buffers(p.event, if p.data == "" then "" else p.data + "\n")
  }

  lemma {:induction false} NameEnds(name: string, line: Line)
    requires name <= line && ':' !in name
    ensures NameEnd(line) >= |name|
    ensures |name| < |line| && line[|name|] == ':' ==> NameEnd(line) == |name|
  {
    if name != "" {
      assert name[1..] <= line[1..];
      NameEnds(name[1..], line[1..]);
    }
  }

  lemma {:induction false} NameStops(line: Line)
    ensures ':' !in line[..NameEnd(line)] && (NameEnd(line) < |line| ==> line[NameEnd(line)] == ':')
  {
    if line != "" && line[0] != ':' { NameStops(line[1..]); }
  }

  /** The code's prefix test and the standard's field name. */
  lemma FieldByPrefix(name: string, line: Line)
    requires ':' !in name
    ensures name + ":" <= line <==> FieldName(line) == name && line != name
    ensures name + ":" <= line ==> FieldValue(line) == Unpadded(line[|name| + 1..])
  {
    if name + ":" <= line {
      assert line[..|name|] == (name + ":")[..|name|] == name && line[|name|] == (name + ":")[|name|];
      NameEnds(name, line);
    }
    if FieldName(line) == name && line != name {
      NameStops(line);
      assert line[..|name| + 1] == name + ":";
    }
  }

  lemma PlainStep(p: Partial, line: Line)
    requires Plain(p, line)
    ensures StandardDispatch(BuffersOf(p), line) == Dispatch(p, line)
    ensures StandardStep(BuffersOf(p), line) == BuffersOf(Step(p, line))
  {
    FieldByPrefix("event", line);
    FieldByPrefix("data", line);
    assert "event" + ":" == EVENT && "data" + ":" == DATA;
    if p.data != "" {
      assert (p.data + "\n")[..|p.data|] == p.data;
    }
  }

  /** On plain lines the code dispatches what the standard does. */
  lemma {:induction false} FollowsTheStandard(p: Partial, lines: seq<Line>)
    requires AllPlain(p, lines)
    ensures Frames(p, lines) == StandardFrames(BuffersOf(p), lines)
    decreases |lines|
  {
    if lines != [] {
      PlainStep(p, lines[0]);
      FollowsTheStandard(Step(p, lines[0]), lines[1..]);
    }
  }

  // ---- carriage returns -----------------------------------------------------------------------

  predicate EndsInReturn(line: Line) {
    line != "" && line[|line| - 1] == '\r'
  }

  lemma {:induction false} NoBlankNoFrame(p: Partial, lines: seq<Line>)
    requires forall i | 0 <= i < |lines| :: lines[i] != ""
    ensures Frames(p, lines) == []
    decreases |lines|
  {
    if lines != [] { NoBlankNoFrame(Step(p, lines[0]), lines[1..]); }
  }

  lemma {:induction false} NoBlankNoFrames(p: Partial, batches: seq<seq<Line>>)
    requires forall i | 0 <= i < |Concat(batches)| :: Concat(batches)[i] != ""
    ensures FramesByRead(p, batches) == []
    decreases |batches|
  {
    if batches != [] {
      var lines, rest := batches[0], Concat(batches[1..]);
      assert Concat(batches) == lines + rest;
      assert forall i | 0 <= i < |lines| :: lines[i] == Concat(batches)[i];
      assert forall i | 0 <= i < |rest| :: rest[i] == Concat(batches)[|lines| + i];
      NoBlankNoFrame(p, lines);
      NoBlankNoFrames(NOTHING, batches[1..]);
    }
  }

  /** A stream whose lines end in CR LF, which the standard allows, dispatches nothing at all: no line
      is ever empty, however the stream is chunked. */
  lemma CarriageReturnsSilence(chunks: seq<string>)
    requires var lines := ButLast(SplitLines(Concat(chunks)));
             forall i | 0 <= i < |lines| :: EndsInReturn(lines[i])
    ensures FramesByRead(NOTHING, Reads("", chunks)) == []
  {
    var batches := Reads("", chunks);
    LinesIgnoreTheChunking("", chunks);
    assert "" + Concat(chunks) == Concat(chunks);
    assert ButLast(Concat(batches) + [BufferAfter("", chunks)]) == Concat(batches);
    NoBlankNoFrames(NOTHING, batches);
  }

  // ---- the round trip -------------------------------------------------------------------------

  predicate Renderable(f: Frame) {
    && Trim(f.event) == f.event && Trim(f.data) == f.data != ""
    && '\n' !in f.event && '\n' !in f.data
  }

  /** A frame as a server writes it, with or without a space behind the colons. */
  function Rendered(pad: string, f: Frame): seq<Line> {
    [EVENT + (pad + f.event), DATA + (pad + f.data), ""]
  }

  function RenderedAll(pad: string, frames: seq<Frame>): seq<Line> {
    if frames == [] then [] else Rendered(pad, frames[0]) + RenderedAll(pad, frames[1..])
  }

  lemma ParseRendered(pad: string, f: Frame, lines: seq<Line>)
    requires (pad == "" || pad == " ") && Renderable(f) && lines == Rendered(pad, f)
    ensures Frames(NOTHING, lines) == [f] && PartialAfter(NOTHING, lines) == NOTHING
  {
    var p1, p2 := Partial(f.event, ""), Partial(f.event, f.data);
    PaddedEvent(pad, f.event, NOTHING, lines[0]);
    PaddedData(pad, f.data, p1, lines[1]);
    ThreeLines(NOTHING, p1, p2, lines);
    assert Ends(p2, lines[2]) && !(EVENT <= lines[2]) && !(DATA <= lines[2]);
  }

  lemma PaddedEvent(pad: string, value: string, p: Partial, line: Line)
    requires (pad == "" || pad == " ") && Trim(value) == value && line == EVENT + (pad + value)
    ensures Step(p, line) == p.(event := value) && Dispatch(p, line) == []
  {
    Padded(pad, value);
    EventLine(p, pad + value, line);
  }

  lemma PaddedData(pad: string, value: string, p: Partial, line: Line)
    requires (pad == "" || pad == " ") && Trim(value) == value && line == DATA + (pad + value)
    ensures Step(p, line) == p.(data := value) && Dispatch(p, line) == []
  {
    Padded(pad, value);
    DataLine(p, pad + value, line);
  }

  lemma ThreeLines(p0: Partial, p1: Partial, p2: Partial, lines: seq<Line>)
    requires |lines| == 3
    requires Step(p0, lines[0]) == p1 && Dispatch(p0, lines[0]) == []
    requires Step(p1, lines[1]) == p2 && Dispatch(p1, lines[1]) == []
    ensures Frames(p0, lines) == Dispatch(p2, lines[2]) && PartialAfter(p0, lines) == Step(p2, lines[2])
  {
    var a, b := lines[1..], lines[2..];
    assert a[1..] == b && b[1..] == [];
    assert Frames(p2, b) == Dispatch(p2, b[0]) + [] && PartialAfter(p2, b) == Step(p2, b[0]);
    assert Frames(p1, a) == Frames(p2, b) && PartialAfter(p1, a) == PartialAfter(p2, b);
  }

  lemma EventLine(p: Partial, value: string, line: Line)
    requires line == EVENT + value
    ensures Step(p, line) == p.(event := Trim(value)) && Dispatch(p, line) == []
  {
    assert line[6..] == value;
  }

  lemma DataLine(p: Partial, value: string, line: Line)
    requires line == DATA + value
    ensures Step(p, line) == p.(data := Trim(value)) && Dispatch(p, line) == []
  {
    assert line[5..] == value && line[0] == 'd';
  }

  lemma {:induction false} ParseAllRendered(pad: string, frames: seq<Frame>)
    requires (pad == "" || pad == " ") && forall i | 0 <= i < |frames| :: Renderable(frames[i])
    ensures Frames(NOTHING, RenderedAll(pad, frames)) == frames
  {
    if frames != [] {
      var lines := Rendered(pad, frames[0]);
      ParseRendered(pad, frames[0], lines);
      ParseAllRendered(pad, frames[1..]);
      ParseNext(frames, lines, RenderedAll(pad, frames[1..]));
    }
  }

  lemma ParseNext(frames: seq<Frame>, lines: seq<Line>, rest: seq<Line>)
    requires frames != [] && Frames(NOTHING, lines) == [frames[0]] && PartialAfter(NOTHING, lines) == NOTHING
    requires Frames(NOTHING, rest) == frames[1..]
    ensures Frames(NOTHING, lines + rest) == frames
  {
    FramesAppend(NOTHING, lines, rest);
  }

  lemma {:induction false} RenderedOnLines(pad: string, frames: seq<Frame>)
    requires (pad == "" || pad == " ") && forall i | 0 <= i < |frames| :: Renderable(frames[i])
    ensures NoNewlines(RenderedAll(pad, frames))
  {
    if frames != [] {
      OneOnLines(pad, frames[0], Rendered(pad, frames[0]));
      RenderedOnLines(pad, frames[1..]);
    }
  }

  lemma OneOnLines(pad: string, f: Frame, lines: seq<Line>)
    requires (pad == "" || pad == " ") && Renderable(f) && lines == Rendered(pad, f)
    ensures NoNewlines(lines)
  {
  }

  /** However the text of some frames reaches the reader, if no frame is cut then exactly those
      frames are dispatched. */
  lemma RoundTrip(pad: string, frames: seq<Frame>, chunks: seq<string>)
    requires (pad == "" || pad == " ") && forall i | 0 <= i < |frames| :: Renderable(frames[i])
    requires Concat(chunks) == TextOf(RenderedAll(pad, frames))
    ensures FramesByRead(NOTHING, Reads("", chunks)) == frames <==> NoFrameIsCut(NOTHING, UNCUT, Reads("", chunks))
    ensures BufferAfter("", chunks) == ""
  {
    var lines := RenderedAll(pad, frames);
    ParseAllRendered(pad, frames);
    RenderedOnLines(pad, frames);
    SplitText(lines);
    assert ButLast(lines + [""]) == lines;
    EventsSurviveExactlyWhenUncut(chunks);
    LinesIgnoreTheChunking("", chunks);
    assert "" + Concat(chunks) == Concat(chunks);
    assert Last(Concat(Reads("", chunks)) + [BufferAfter("", chunks)]) == BufferAfter("", chunks);
  }
}
