/** Go's path.Clean, which the BFF's path guard relies on, as the loop over an output buffer
    that it is, proved equal to a fold over the path's segments. */
module PathClean {

  type Segments = seq<string>

  // ---- segments ---------------------------------------------------------------------------

  /** strings.Split(s, "/") */
  function Split(s: string): (segs: Segments)
    ensures segs != [] && forall i | 0 <= i < |segs| :: '/' !in segs[i]
  {
    if s == "" then [""]
    else
      var rest := Split(s[1..]);
      if s[0] == '/' then [""] + rest else [[s[0]] + rest[0]] + rest[1..]
  }

  /** Every segment behind its own slash. */
  function Slashed(segs: Segments): string {
    if segs == [] then "" else "/" + segs[0] + Slashed(segs[1..])
  }

  lemma {:induction false} JoinSplit(s: string)
    ensures Split(s)[0] + Slashed(Split(s)[1..]) == s
  {
    if s != "" {
      var rest := Split(s[1..]);
      JoinSplit(s[1..]);
      if s[0] == '/' {
        assert Split(s)[1..] == rest;
        assert Slashed(rest) == "/" + (rest[0] + Slashed(rest[1..]));
      } else {
        assert Split(s)[1..] == rest[1..];
        assert Split(s)[0] + Slashed(rest[1..]) == [s[0]] + (rest[0] + Slashed(rest[1..]));
      }
    }
  }

  lemma SlashedSplit(s: string)
    ensures Slashed(Split(s)) == "/" + s
  {
    var segs := Split(s);
    JoinSplit(s);
    assert Slashed(segs) == "/" + (segs[0] + Slashed(segs[1..]));
  }

  lemma {:induction false} SlashedAppend(a: Segments, b: Segments)
    ensures Slashed(a + b) == Slashed(a) + Slashed(b)
  {
    if a == [] {
      assert a + b == b;
    } else {
      SlashedAppend(a[1..], b);
      assert (a + b)[1..] == a[1..] + b;
    }
  }

  /** A maximal segment at the front of a string is the first element of its split. */
  lemma {:induction false} SplitFront(s: string, rest: string)
    requires '/' !in s && (rest == "" || rest[0] == '/')
    ensures Split(rest)[0] == "" && Split(s + rest) == [s] + Split(rest)[1..]
  {
    if s == "" {
      assert s + rest == rest;
    } else {
      SplitFront(s[1..], rest);
      assert (s + rest)[1..] == s[1..] + rest;
      assert [s[0]] + s[1..] == s;
      assert ([s[1..]] + Split(rest)[1..])[1..] == Split(rest)[1..];
    }
  }

  /** Split undoes Slashed. */
  lemma {:induction false} SplitSlashed(segs: Segments)
    requires segs != [] && forall i | 0 <= i < |segs| :: '/' !in segs[i]
    ensures Split(Slashed(segs)[1..]) == segs
  {
    var rest := Slashed(segs[1..]);
    assert Slashed(segs)[1..] == segs[0] + rest;
    SplitFront(segs[0], rest);
    if |segs| > 1 {
      SplitSlashed(segs[1..]);
      assert rest[1..] == Slashed(segs[1..])[1..];
    }
  }

  // ---- the specification -----------------------------------------------------------------

  predicate IsName(seg: string) {
    seg != "" && seg != "." && seg != ".."
  }

  /** What a stack of segments looks like once cleaned: names, after ".."s if unrooted. */
  predicate IsCleanStack(rooted: bool, stack: Segments) {
    forall i | 0 <= i < |stack| ::
      && '/' !in stack[i]
      && (IsName(stack[i]) || (!rooted && stack[i] == ".." && forall j | 0 <= j < i :: stack[j] == ".."))
  }

  function Push(rooted: bool, stack: Segments, seg: string): Segments {
    if seg == "" || seg == "." then stack
    else if seg == ".." then
      if stack != [] && stack[|stack| - 1] != ".." then stack[..|stack| - 1]
      else if rooted then stack
      else stack + [seg]
    else stack + [seg]
  }

  function Fold(rooted: bool, stack: Segments, segs: Segments): Segments
    decreases |segs|
  {
    if segs == [] then stack else Fold(rooted, Push(rooted, stack, segs[0]), segs[1..])
  }

  function Render(rooted: bool, stack: Segments): string {
    if rooted then (if stack == [] then "/" else Slashed(stack))
    else if stack == [] then "" else Slashed(stack)[1..]
  }

  predicate IsRooted(p: string) {
    p != "" && p[0] == '/'
  }

  function Clean(p: string): string {
    var out := Render(IsRooted(p), Fold(IsRooted(p), [], Split(p)));
    if out == "" then "." else out
  }

  lemma {:induction false} FoldIsClean(rooted: bool, stack: Segments, segs: Segments)
    requires IsCleanStack(rooted, stack) && forall i | 0 <= i < |segs| :: '/' !in segs[i]
    ensures IsCleanStack(rooted, Fold(rooted, stack, segs))
    decreases |segs|
  {
    if segs != [] {
      PushIsClean(rooted, stack, segs[0]);
      FoldIsClean(rooted, Push(rooted, stack, segs[0]), segs[1..]);
    }
  }

  lemma PushIsClean(rooted: bool, stack: Segments, seg: string)
    requires IsCleanStack(rooted, stack) && '/' !in seg
    ensures IsCleanStack(rooted, Push(rooted, stack, seg))
  {
  }

  // ---- the loop ----------------------------------------------------------------------------

  function Ups(k: nat): Segments {
    seq(k, _ => "..")
  }

  /** The separator path.Clean puts before the next segment. */
  function Separator(rooted: bool, out: string): string {
    if (rooted && |out| != 1) || (!rooted && |out| != 0) then "/" else ""
  }

  lemma {:induction false} SlashedLonger(segs: Segments)
    requires segs != [] && segs[|segs| - 1] != ""
    ensures |Slashed(segs)| >= 2
  {
    if |segs| > 1 { SlashedLonger(segs[1..]); }
  }

  /** Pushing one segment writes the separator and the segment. */
  lemma RenderPush(rooted: bool, stack: Segments, seg: string)
    requires stack != [] ==> stack[|stack| - 1] != ""
    ensures var out := Render(rooted, stack);
            Render(rooted, stack + [seg]) == out + Separator(rooted, out) + seg
  {
    var one := Slashed([seg]);
    SlashedAppend(stack, [seg]);
    assert one == "/" + seg + "" == "/" + seg;
    if stack == [] {
      assert stack + [seg] == [seg];
    } else {
      var all := Slashed(stack);
      SlashedLonger(stack);
      assert (all + one)[1..] == all[1..] + one;
      assert all + one == all + "/" + seg && all[1..] + one == all[1..] + "/" + seg;
    }
  }

  /** The loop's bookkeeping: the output so far, and where the leading ".."s end. */
  ghost predicate Written(rooted: bool, out: string, dotdot: nat, ups: nat, names: Segments) {
    && (rooted ==> ups == 0)
    && (forall i | 0 <= i < |names| :: IsName(names[i]) && '/' !in names[i])
    && out == Render(rooted, Ups(ups) + names)
    && dotdot == |Render(rooted, Ups(ups))|
  }

  lemma WrittenLength(rooted: bool, out: string, dotdot: nat, ups: nat, names: Segments)
    requires Written(rooted, out, dotdot, ups, names)
    ensures |out| >= dotdot && (|out| > dotdot <==> names != [])
    ensures names == [] ==> |out| == dotdot
  {
    if names == [] {
      assert Ups(ups) + names == Ups(ups);
    } else {
      WrittenGrows(rooted, ups, names);
    }
  }

  lemma {:induction false} WrittenGrows(rooted: bool, ups: nat, names: Segments)
    requires names != [] && forall i | 0 <= i < |names| :: IsName(names[i])
    ensures |Render(rooted, Ups(ups) + names)| > |Render(rooted, Ups(ups))|
  {
    var init, last := names[..|names| - 1], names[|names| - 1];
    assert Ups(ups) + names == (Ups(ups) + init) + [last];
    RenderPush(rooted, Ups(ups) + init, last);
    if init != [] { WrittenGrows(rooted, ups, init); } else { assert Ups(ups) + init == Ups(ups); }
  }

  /** Reading a whole segment is one push. */
  lemma SkipSegment(rooted: bool, stack: Segments, path: string, r: nat, seg: string)
    requires r + |seg| <= |path| && path[r..r + |seg|] == seg && '/' !in seg
    requires r + |seg| == |path| || path[r + |seg|] == '/'
    ensures Fold(rooted, stack, Split(path[r..])) == Fold(rooted, Push(rooted, stack, seg), Split(path[r + |seg|..]))
  {
    var rest := path[r + |seg|..];
    assert path[r..] == seg + rest;
    SplitFront(seg, rest);
    assert Split(path[r..])[1..] == Split(rest)[1..];
  }

  lemma SkipSlash(rooted: bool, stack: Segments, path: string, r: nat)
    requires r < |path| && path[r] == '/'
    ensures Fold(rooted, stack, Split(path[r..])) == Fold(rooted, stack, Split(path[r + 1..]))
  {
    assert path[r..][1..] == path[r + 1..];
    assert Split(path[r..])[1..] == Split(path[r + 1..]);
  }

  lemma UpsPush(stack: Segments, ups: nat, names: Segments)
    requires stack == Ups(ups) + names && names == []
    ensures stack == Ups(ups) && Push(false, stack, "..") == stack + [".."] == Ups(ups + 1)
  {
  }

  /** The last name sits at the end of the output, behind its separator. */
  lemma LastName(rooted: bool, out: string, dotdot: nat, ups: nat, names: Segments) returns (prefix: string)
    requires Written(rooted, out, dotdot, ups, names) && names != []
    ensures Written(rooted, prefix, dotdot, ups, names[..|names| - 1]) && |prefix| >= dotdot
    ensures out == prefix + Separator(rooted, prefix) + names[|names| - 1]
    ensures Separator(rooted, prefix) == "" ==> |prefix| == dotdot
  {
    var init, last := names[..|names| - 1], names[|names| - 1];
    prefix := Render(rooted, Ups(ups) + init);
    assert Ups(ups) + names == (Ups(ups) + init) + [last];
    RenderPush(rooted, Ups(ups) + init, last);
    WrittenLength(rooted, prefix, dotdot, ups, init);
  }

  /** out.w--, then back to the slash before the last name. */
  method Backtrack(rooted: bool, out: string, dotdot: nat, ghost prefix: string, ghost last: string)
    returns (res: string)
    requires out == prefix + Separator(rooted, prefix) + last && last != "" && '/' !in last && |prefix| >= dotdot
    requires Separator(rooted, prefix) == "" ==> |prefix| == dotdot
    ensures res == prefix
  {
    var w := |out| - 1;
    ghost var at := |prefix| + |Separator(rooted, prefix)|;
    assert forall i | at <= i < |out| :: out[i] == last[i - at];
    while w > dotdot && out[w] != '/'
      invariant |prefix| <= w < |out|
    {
      assert w >= at;
      w := w - 1;
    }
    res := out[..w];
    assert w == |prefix|;
  }

  /** The ".." case: drop the last name, or keep the ".." of an unrooted path. */
  method DotDot(rooted: bool, out: string, dotdot: nat, ghost ups: nat, ghost names: Segments)
    returns (out': string, dotdot': nat, ghost ups': nat, ghost names': Segments)
    requires Written(rooted, out, dotdot, ups, names)
    ensures Written(rooted, out', dotdot', ups', names')
    ensures Ups(ups') + names' == Push(rooted, Ups(ups) + names, "..")
  {
    WrittenLength(rooted, out, dotdot, ups, names);
    ghost var stack := Ups(ups) + names;
    out', dotdot', ups', names' := out, dotdot, ups, names;
    if |out| > dotdot {
      ghost var prefix := LastName(rooted, out, dotdot, ups, names);
      out' := Backtrack(rooted, out, dotdot, prefix, names[|names| - 1]);
      names' := names[..|names| - 1];
      assert Push(rooted, stack, "..") == Ups(ups) + names';
    } else if !rooted {
      UpsPush(stack, ups, names);
      RenderPush(rooted, stack, "..");
      if |out| > 0 {
        out' := out' + "/";
      }
      out' := out' + "..";
      dotdot' := |out'|;
      ups' := ups + 1;
      assert Ups(ups') + [] == Ups(ups') == stack + [".."];
    } else {
      assert stack == [];
    }
  }

  lemma WriteName(rooted: bool, out: string, dotdot: nat, ups: nat, names: Segments, seg: string)
    requires Written(rooted, out, dotdot, ups, names) && IsName(seg) && '/' !in seg
    ensures Written(rooted, out + Separator(rooted, out) + seg, dotdot, ups, names + [seg])
    ensures Push(rooted, Ups(ups) + names, seg) == Ups(ups) + (names + [seg])
  {
    RenderPush(rooted, Ups(ups) + names, seg);
    assert (Ups(ups) + names) + [seg] == Ups(ups) + (names + [seg]);
  }

  /** The default case: copy one name, behind its separator. */
  method CopyName(rooted: bool, out: string, path: string, start: nat) returns (out': string, r: nat)
    requires start < |path| && path[start] != '/'
    ensures start < r <= |path| && (r == |path| || path[r] == '/') && '/' !in path[start..r]
    ensures out' == out + Separator(rooted, out) + path[start..r]
  {
    out', r := out, start;
    if (rooted && |out| != 1) || (!rooted && |out| != 0) {
      out' := out' + "/";
    }
    while r < |path| && path[r] != '/'
      invariant start <= r <= |path|
      invariant '/' !in path[start..r]
      invariant out' == out + Separator(rooted, out) + path[start..r]
    {
      out' := out' + [path[r]];
      r := r + 1;
    }
  }

  predicate DotAt(path: string, r: nat)
    requires r < |path|
  {
    path[r] == '.' && (r + 1 == |path| || path[r + 1] == '/')
  }

  predicate DotDotAt(path: string, r: nat)
    requires r < |path|
  {
    path[r] == '.' && r + 1 < |path| && path[r + 1] == '.' && (r + 2 == |path| || path[r + 2] == '/')
  }

  lemma NeitherIsName(path: string, start: nat, r: nat)
    requires start < r <= |path| && (r == |path| || path[r] == '/') && '/' !in path[start..r]
    requires !DotAt(path, start) && !DotDotAt(path, start)
    ensures IsName(path[start..r])
  {
    var seg := path[start..r];
    assert seg[0] == path[start] && (|seg| > 1 ==> seg[1] == path[start + 1]);
  }

  lemma SkipDot(rooted: bool, stack: Segments, path: string, r: nat)
    requires r < |path| && DotAt(path, r)
    ensures Fold(rooted, stack, Split(path[r..])) == Fold(rooted, stack, Split(path[r + 1..]))
  {
    SkipSegment(rooted, stack, path, r, ".");
  }

  lemma ReadName(rooted: bool, path: string, r: nat, r': nat, out: string, dotdot: nat, ups: nat, names: Segments)
    requires Written(rooted, out, dotdot, ups, names)
    requires r < r' <= |path| && (r' == |path| || path[r'] == '/') && '/' !in path[r..r']
    requires !DotAt(path, r) && !DotDotAt(path, r)
    ensures Written(rooted, out + Separator(rooted, out) + path[r..r'], dotdot, ups, names + [path[r..r']])
    ensures Fold(rooted, Ups(ups) + names, Split(path[r..]))
            == Fold(rooted, Ups(ups) + (names + [path[r..r']]), Split(path[r'..]))
  {
    var seg := path[r..r'];
    NeitherIsName(path, r, r');
    WriteName(rooted, out, dotdot, ups, names, seg);
    SkipSegment(rooted, Ups(ups) + names, path, r, seg);
  }

  /** One turn of the loop consumes a slash or a whole segment. */
  method Turn(rooted: bool, path: string, r: nat, out: string, dotdot: nat, ghost ups: nat, ghost names: Segments)
    returns (r': nat, out': string, dotdot': nat, ghost ups': nat, ghost names': Segments)
    requires r < |path| && Written(rooted, out, dotdot, ups, names)
    ensures r < r' <= |path| && Written(rooted, out', dotdot', ups', names')
    ensures Fold(rooted, Ups(ups) + names, Split(path[r..])) == Fold(rooted, Ups(ups') + names', Split(path[r'..]))
  {
    if path[r] == '/' {
      SkipSlash(rooted, Ups(ups) + names, path, r);
      r', out', dotdot', ups', names' := r + 1, out, dotdot, ups, names;
    } else if DotAt(path, r) {
      SkipDot(rooted, Ups(ups) + names, path, r);
      r', out', dotdot', ups', names' := r + 1, out, dotdot, ups, names;
    } else if DotDotAt(path, r) {
      SkipSegment(rooted, Ups(ups) + names, path, r, "..");
      r' := r + 2;
      out', dotdot', ups', names' := DotDot(rooted, out, dotdot, ups, names);
    } else {
      out', r' := CopyName(rooted, out, path, r);
      ReadName(rooted, path, r, r', out, dotdot, ups, names);
      dotdot', ups', names' := dotdot, ups, names + [path[r..r']];
    }
  }

  /** path.Clean */
  method CleanLoop(path: string) returns (res: string)
    ensures res == Clean(path)
  {
    if path == "" {
      assert Fold(false, [], [""]) == Fold(false, [], [""][1..]) == [];
      return ".";
    }
    var rooted := path[0] == '/';
    var out, r: nat := "", 0;
    var dotdot: nat := 0;
    if rooted {
      out, r, dotdot := "/", 1, 1;
    }
    ghost var ups: nat, names: Segments := 0, [];
    Start(path);
    while r < |path|
      invariant r <= |path|
      invariant Written(rooted, out, dotdot, ups, names)
      invariant Fold(rooted, [], Split(path)) == Fold(rooted, Ups(ups) + names, Split(path[r..]))
      decreases |path| - r
    {
      r, out, dotdot, ups, names := Turn(rooted, path, r, out, dotdot, ups, names);
    }
    assert path[r..] == "" && Fold(rooted, Ups(ups) + names, [""]) == Fold(rooted, Ups(ups) + names, [""][1..]);
    if |out| == 0 {
      return ".";
    }
    return out;
  }

  lemma Start(path: string)
    requires path != ""
    ensures Ups(0) + [] == []
    ensures Fold(IsRooted(path), [], Split(path))
            == Fold(IsRooted(path), [], Split(path[if IsRooted(path) then 1 else 0..]))
  {
    if IsRooted(path) {
      assert ([""] + Split(path[1..]))[1..] == Split(path[1..]);
    } else {
      assert path[0..] == path;
    }
  }
}
