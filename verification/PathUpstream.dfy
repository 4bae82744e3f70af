/** What an upstream makes of a path: RFC 3986's remove_dot_segments and the merging of slashes,
    as loops over strings, proved equal to folds over segments. */
module PathUpstream {
  import opened PathClean
  import opened PathGuard

  /** Removes the last segment and its preceding "/", if any. */
  function DropLastSegment(output: string): string {
    if output == "" then ""
    else if output[|output| - 1] == '/' then output[..|output| - 1]
    else DropLastSegment(output[..|output| - 1])
  }

  /** The length of the first path segment, up to the next "/". */
  function UpToSlash(s: string): (n: nat)
    ensures n <= |s| && '/' !in s[..n] && (n < |s| ==> s[n] == '/')
  {
    if s == "" || s[0] == '/' then 0 else 1 + UpToSlash(s[1..])
  }

  predicate At(s: string, i: nat, c: char) {
    i < |s| && s[i] == c
  }

  /** The number of dots, one or two, that make up the segment at i; 0 for any other segment. */
  function DotsAt(s: string, i: nat): nat {
    if !At(s, i, '.') then 0
    else if |s| == i + 1 || s[i + 1] == '/' then 1
    else if s[i + 1] == '.' && (|s| == i + 2 || s[i + 2] == '/') then 2
    else 0
  }

  /** remove_dot_segments, section 5.2.4 of RFC 3986: 2A and 2D when the input begins with a
      dot segment, 2B and 2C when it begins with "/" and one, 2E otherwise. */
  function RemoveDotSegments(input: string, output: string): string
    decreases |input|
  {
    if input == "" then output
    else if DotsAt(input, 0) > 0 then
      var n := DotsAt(input, 0);
      if |input| == n then output else RemoveDotSegments(input[n + 1..], output)
    else if input[0] == '/' && DotsAt(input, 1) > 0 then
      var n := DotsAt(input, 1);
      var rest := if |input| == n + 1 then "/" else input[n + 1..];
      RemoveDotSegments(rest, if n == 1 then output else DropLastSegment(output))
    else
      var n := if input[0] == '/' then 1 + UpToSlash(input[1..]) else UpToSlash(input);
      RemoveDotSegments(input[n..], output + input[..n])
  }

  function MergeSlashes(s: string): string {
    if |s| >= 2 && s[0] == '/' && s[1] == '/' then MergeSlashes(s[1..])
    else if s == "" then ""
    else [s[0]] + MergeSlashes(s[1..])
  }

  function Normalised(p: string): string {
    MergeSlashes(RemoveDotSegments(p, ""))
  }

  lemma {:induction false} UpToSlashIs(s: string, rest: string)
    requires '/' !in s && (rest == "" || rest[0] == '/')
    ensures UpToSlash(s + rest) == |s|
  {
    if s == "" {
      assert s + rest == rest;
    } else {
      assert (s + rest)[1..] == s[1..] + rest;
      UpToSlashIs(s[1..], rest);
    }
  }

  lemma NoDots(seg: string, rest: string, input: string)
    requires '/' !in seg && seg != "." && seg != ".." && (rest == "" || rest[0] == '/')
    requires input == "/" + (seg + rest)
    ensures DotsAt(input, 0) == 0 && DotsAt(input, 1) == 0
  {
    assert forall i | 0 <= i < |seg| :: input[i + 1] == seg[i];
    assert rest != "" ==> input[|seg| + 1] == '/';
    assert |seg| == 1 ==> seg == [seg[0]];
    assert |seg| == 2 ==> seg == [seg[0], seg[1]];
  }

  /** Step 2E. */
  lemma MoveFirst(input: string, n: nat, output: string, result: string)
    requires input != "" && input[0] == '/' && DotsAt(input, 0) == 0 && DotsAt(input, 1) == 0
    requires n == 1 + UpToSlash(input[1..]) && result == RemoveDotSegments(input, output)
    ensures result == RemoveDotSegments(input[n..], output + input[..n])
  {
  }

  lemma Slices(seg: string, rest: string, input: string)
    requires input == "/" + (seg + rest)
    ensures |input| > |seg| && input[1..] == seg + rest && input[..1 + |seg|] == "/" + seg && input[1 + |seg|..] == rest
  {
  }

  lemma Regroup(output: string, seg: string, rest: string, input: string)
    requires input == "/" + seg + rest
    ensures input == "/" + (seg + rest) && (output + ("/" + seg)) + rest == output + input
  {
  }

  /** An ordinary segment moves to the output as it is. */
  lemma MoveSegment(seg: string, rest: string, input: string, output: string, output': string, result: string)
    requires '/' !in seg && seg != "." && seg != ".." && (rest == "" || rest[0] == '/')
    requires input == "/" + (seg + rest) && output' == output + ("/" + seg)
    requires result == RemoveDotSegments(input, output)
    ensures result == RemoveDotSegments(rest, output')
  {
    NoDots(seg, rest, input);
    UpToSlashIs(seg, rest);
    Slices(seg, rest, input);
    MoveFirst(input, 1 + |seg|, output, result);
  }

  /** Without "." and ".." segments there is nothing to remove. */
  lemma {:induction false} NothingToRemove(segs: Segments, input: string, output: string, result: string)
    requires forall i | 0 <= i < |segs| :: '/' !in segs[i] && segs[i] != "." && segs[i] != ".."
    requires input == Slashed(segs) && result == RemoveDotSegments(input, output)
    ensures result == output + input
    decreases |segs|
  {
    if segs == [] {
      assert output + "" == output;
    } else {
      var rest, output' := Slashed(segs[1..]), output + ("/" + segs[0]);
      Regroup(output, segs[0], rest, input);
      MoveSegment(segs[0], rest, input, output, output', result);
      NothingToRemove(segs[1..], rest, output', result);
    }
  }

  lemma {:induction false} MergeSkips(s: string, rest: string)
    requires '/' !in s
    ensures MergeSlashes(s + rest) == s + MergeSlashes(rest)
  {
    if s == "" {
      assert s + rest == rest;
    } else {
      assert (s + rest)[1..] == s[1..] + rest;
      MergeSkips(s[1..], rest);
    }
  }

  lemma {:induction false} NothingToMerge(segs: Segments)
    requires forall i | 0 <= i < |segs| :: '/' !in segs[i] && (segs[i] == "" ==> i == |segs| - 1)
    ensures MergeSlashes(Slashed(segs)) == Slashed(segs)
    decreases |segs|
  {
    if segs != [] {
      var seg, rest := segs[0], Slashed(segs[1..]);
      assert Slashed(segs) == "/" + (seg + rest) && Slashed(segs)[1..] == seg + rest;
      NothingToMerge(segs[1..]);
      MergeSkips(seg, rest);
      if seg == "" { assert segs[1..] == []; }
    }
  }

  /** Normalisation leaves every accepted rooted path alone, except the odd "//". */
  lemma NormalisationIsTheIdentity(p: string)
    requires Accepts(p, "") && IsRooted(p)
    ensures RemoveDotSegments(p, "") == p
    ensures p != "//" ==> Normalised(p) == p
  {
    AcceptedPaths(p, "");
    var segs := Split(Body(p));
    SlashedSplit(Body(p));
    SegmentsAreOrdinary(p);
    assert p == "/" + Body(p);
    NothingToRemove(segs, p, "", RemoveDotSegments(p, ""));
    assert "" + p == p;
    if p != "//" {
      NothingToMerge(segs);
    }
  }

  lemma SegmentsAreOrdinary(p: string)
    requires IsRooted(p) && (IsCleanStack(true, Core(p)) || p == "//")
    ensures var segs := Split(Body(p));
            forall i | 0 <= i < |segs| ::
              segs[i] != "." && segs[i] != ".." && (p != "//" && segs[i] == "" ==> i == |segs| - 1)
  {
    var segs, core := Split(Body(p)), Core(p);
    if p == "//" {
      assert Body(p) == "/" && "/"[1..] == "" && Split("") == [""] && Split("/") == ["", ""];
    } else {
      forall i | 0 <= i < |segs| ensures segs[i] != "." && segs[i] != ".." && (segs[i] == "" ==> i == |segs| - 1) {
        assert i < |core| ==> segs[i] == core[i];
      }
    }
  }

  /** So an upstream that normalises decides as the BFF does, which is by the segments api and
      admin in front of at least one more. */
  lemma SameDecisionUpstream(p: string)
    requires Accepts(p, "") && IsRooted(p)
    ensures HasPrefix(p, ADMIN_PREFIX) <==> IsAdminPath(Split(Body(p)))
    ensures IsRooted(Normalised(p)) && (IsAdminPath(Split(Body(Normalised(p)))) <==> IsAdminPath(Split(Body(p))))
  {
    NormalisationIsTheIdentity(p);
    DecidesBySegments(p);
    if p == "//" {
      assert MergeSlashes("//") == MergeSlashes("//"[1..]) && "//"[1..] == "/";
      assert MergeSlashes("/") == "/" && Body("/") == "" && Body("//") == "/" && "/"[1..] == "";
      assert Split("/") == ["", ""];
    }
  }

  // ---- every rooted path ----------------------------------------------------------------------

  lemma {:induction false} DropIs(output: string, seg: string)
    requires '/' !in seg
    ensures DropLastSegment(output + "/" + seg) == output
  {
    var all := output + "/" + seg;
    if seg == "" {
      assert all[..|all| - 1] == output;
    } else {
      assert all[..|all| - 1] == output + "/" + seg[..|seg| - 1];
      DropIs(output, seg[..|seg| - 1]);
    }
  }

  predicate AreSegments(segs: Segments) {
    forall i | 0 <= i < |segs| :: '/' !in segs[i]
  }

  function Kept(stack: Segments, seg: string): Segments {
    if seg == ".." && stack != [] then stack[..|stack| - 1] else stack
  }

  /** remove_dot_segments over segments: a dot segment at the very end leaves an empty one. */
  function Resolved(stack: Segments, segs: Segments): (r: Segments)
    decreases |segs|
  {
    if segs == [] then stack
    else if segs[0] != "." && segs[0] != ".." then Resolved(stack + [segs[0]], segs[1..])
    else
      if |segs| == 1 then Kept(stack, segs[0]) + [""] else Resolved(Kept(stack, segs[0]), segs[1..])
  }

  lemma DropSlashed(stack: Segments)
    requires AreSegments(stack)
    ensures DropLastSegment(Slashed(stack)) == Slashed(Kept(stack, ".."))
  {
    if stack != [] {
      var init, last := stack[..|stack| - 1], stack[|stack| - 1];
      SlashedOne(init, last);
      assert stack == init + [last];
      DropIs(Slashed(init), last);
    }
  }

  lemma SlashedOne(stack: Segments, seg: string)
    ensures Slashed(stack + [seg]) == Slashed(stack) + "/" + seg
  {
    SlashedAppend(stack, [seg]);
    assert Slashed([seg]) == "/" + seg + "" == "/" + seg;
    assert Slashed(stack) + ("/" + seg) == Slashed(stack) + "/" + seg;
  }

  lemma DotsInside(seg: string, rest: string, input: string)
    requires (seg == "." || seg == "..") && (rest == "" || rest[0] == '/') && input == "/" + (seg + rest)
    ensures DotsAt(input, 0) == 0 && DotsAt(input, 1) == |seg|
    ensures |input| == 1 + |seg| + |rest| && input[0] == '/' && input[|seg| + 1..] == rest
  {
    assert forall i | 0 <= i < |seg| :: input[i + 1] == seg[i];
    assert rest != "" ==> input[|seg| + 1] == rest[0];
  }

  /** Steps 2B and 2C on a segment that is not the last. */
  lemma InnerDots(seg: string, rest: string, input: string, output: string, result: string)
    requires seg == "." || seg == ".."
    requires rest != "" && rest[0] == '/' && input == "/" + (seg + rest) && result == RemoveDotSegments(input, output)
    ensures result == RemoveDotSegments(rest, if seg == "." then output else DropLastSegment(output))
  {
    DotsInside(seg, rest, input);
  }

  /** And on the last one. */
  lemma LastDots(seg: string, input: string, output: string, result: string)
    requires (seg == "." || seg == "..") && input == "/" + seg && result == RemoveDotSegments(input, output)
    ensures result == (if seg == "." then output else DropLastSegment(output)) + "/"
  {
    var up := if seg == "." then output else DropLastSegment(output);
    assert seg + "" == seg;
    DotsInside(seg, "", input);
    assert "/"[1..] == "" && "/"[..1] == "/" && DotsAt("/", 0) == 0 && DotsAt("/", 1) == 0;
    MoveFirst("/", 1, up, RemoveDotSegments("/", up));
  }

  lemma {:induction false} RemovalResolves(stack: Segments, segs: Segments, input: string, output: string,
                                           result: string)
    requires AreSegments(stack) && AreSegments(segs)
    requires input == Slashed(segs) && output == Slashed(stack) && result == RemoveDotSegments(input, output)
    ensures result == Slashed(Resolved(stack, segs)) && AreSegments(Resolved(stack, segs))
    decreases |segs|, 1
  {
    if segs != [] {
      var seg, tail := segs[0], segs[1..];
      var rest := Slashed(tail);
      Regroup(output, seg, rest, input);
      if seg != "." && seg != ".." {
        NameResolves(stack, seg, tail, rest, input, output, result);
      } else if tail == [] {
        LastResolves(stack, seg, input, output, result);
        assert segs == [seg];
      } else {
        InnerResolves(stack, seg, tail, rest, input, output, result);
      }
    }
  }

  lemma NameResolves(stack: Segments, seg: string, tail: Segments, rest: string, input: string, output: string,
                     result: string)
    requires AreSegments(stack + [seg]) && AreSegments(tail) && seg != "." && seg != ".."
    requires rest == Slashed(tail) && input == "/" + (seg + rest) && output == Slashed(stack)
    requires result == RemoveDotSegments(input, output)
    ensures result == Slashed(Resolved(stack + [seg], tail)) && AreSegments(Resolved(stack + [seg], tail))
    decreases |tail|, 2
  {
    var output' := output + ("/" + seg);
    SlashedOne(stack, seg);
    assert output' == output + "/" + seg && seg == (stack + [seg])[|stack|];
    MoveSegment(seg, rest, input, output, output', result);
    RemovalResolves(stack + [seg], tail, rest, output', result);
  }

  lemma LastResolves(stack: Segments, seg: string, input: string, output: string, result: string)
    requires AreSegments(stack) && (seg == "." || seg == "..")
    requires input == "/" + (seg + "") && output == Slashed(stack) && result == RemoveDotSegments(input, output)
    ensures result == Slashed(Kept(stack, seg) + [""])
  {
    assert seg + "" == seg;
    LastDots(seg, input, output, result);
    DropSlashed(stack);
    SlashedOne(Kept(stack, seg), "");
    assert Slashed(Kept(stack, seg)) + "/" + "" == Slashed(Kept(stack, seg)) + "/";
  }

  lemma InnerResolves(stack: Segments, seg: string, tail: Segments, rest: string, input: string, output: string,
                      result: string)
    requires AreSegments(stack) && AreSegments(tail) && (seg == "." || seg == "..") && tail != []
    requires rest == Slashed(tail) && input == "/" + (seg + rest) && output == Slashed(stack)
    requires result == RemoveDotSegments(input, output)
    ensures result == Slashed(Resolved(Kept(stack, seg), tail)) && AreSegments(Resolved(Kept(stack, seg), tail))
    decreases |tail|, 2
  {
    InnerDots(seg, rest, input, output, result);
    DropSlashed(stack);
    RemovalResolves(Kept(stack, seg), tail, rest, Slashed(Kept(stack, seg)), result);
  }

  /** Merging slashes over segments: empty ones go, except a last one. */
  function Merged(segs: Segments): Segments {
    if |segs| <= 1 then segs
    else if segs[0] == "" then Merged(segs[1..])
    else [segs[0]] + Merged(segs[1..])
  }

  lemma {:induction false} MergingMerges(segs: Segments)
    requires AreSegments(segs)
    ensures MergeSlashes(Slashed(segs)) == Slashed(Merged(segs))
    ensures AreSegments(Merged(segs)) && (segs != [] ==> Merged(segs) != [])
  {
    if segs != [] {
      var seg, rest := segs[0], Slashed(segs[1..]);
      assert Slashed(segs) == "/" + (seg + rest) && Slashed(segs)[1..] == seg + rest;
      MergingMerges(segs[1..]);
      MergeSkips(seg, rest);
      if seg == "" {
        assert seg + rest == rest;
      } else {
        assert Merged(segs) == [seg] + Merged(segs[1..]);
      }
    }
  }

  /** For every rooted path, accepted or not, the upstream's path is the one with its dot segments
      resolved and its inner empty segments dropped; it decides by the segments of that. */
  lemma NormalisationResolves(p: string, segs: Segments)
    requires IsRooted(p) && segs == Merged(Resolved([], Split(Body(p))))
    ensures segs != [] && Normalised(p) == Slashed(segs)
    ensures HasPrefix(Normalised(p), ADMIN_PREFIX) <==> IsAdminPath(segs)
  {
    SlashedSplit(Body(p));
    assert p == "/" + Body(p);
    RemovalResolves([], Split(Body(p)), p, "", RemoveDotSegments(p, ""));
    SomethingRemains([], Split(Body(p)));
    MergingMerges(Resolved([], Split(Body(p))));
    SplitSlashed(segs);
    DecidesBySegments(Slashed(segs));
  }

  lemma {:induction false} SomethingRemains(stack: Segments, segs: Segments)
    requires segs != []
    ensures Resolved(stack, segs) != []
    decreases |segs|
  {
    if segs[0] != "." && segs[0] != ".." {
      if |segs| == 1 { assert segs[1..] == []; } else { SomethingRemains(stack + [segs[0]], segs[1..]); }
    } else if |segs| > 1 {
      SomethingRemains(Kept(stack, segs[0]), segs[1..]);
    }
  }

  /** Without the guard the decisions may differ: "/api/admin/.." has the prefix only until it is
      normalised. */
  lemma UnguardedDecisionsDiffer(p: string)
    requires p == "/api/admin/.."
    ensures HasPrefix(p, ADMIN_PREFIX) && !Accepts(p, "")
    ensures !HasPrefix(Normalised(p), ADMIN_PREFIX)
  {
    var segs := ["api", "admin", ".."];
    assert Slashed(segs) == p by {
      assert segs[1..] == ["admin", ".."] && segs[1..][1..] == [".."] && [".."][1..] == [];
      assert Slashed([".."]) == "/..";
    }
    SplitSlashed(segs);
    NormalisationResolves(p, Merged(Resolved([], segs)));
    UpFromAdmin("api", "admin", "..", segs);
    if Accepts(p, "") { NormalisationIsTheIdentity(p); }
  }

  lemma UpFromAdmin(a: string, b: string, up: string, segs: Segments)
    requires IsName(a) && IsName(b) && up == ".." && segs == [a, b, up]
    ensures Resolved([], segs) == [a, ""]
    ensures Merged([a, ""]) == [a, ""]
  {
    var none: Segments := [];
    assert segs[1..] == [b, up] && [b, up][1..] == [up] && none + [a] == [a] && [a] + [b] == [a, b];
    assert Resolved(none, segs) == Resolved([a], [b, up]) == Resolved([a, b], [up]);
    assert Kept([a, b], up) == [a] && [a] + [""] == [a, ""] && [a, ""][1..] == [""];
  }
}
