/** canonicalPathOnly (bff/server.go): which paths get past the guard, and why the allowlist
    decision then cannot differ from that of an upstream that normalises. */
module PathGuard {
  import opened PathClean

  const ADMIN_PREFIX := "/api/admin/"

  /** The guard's test; rawPath is set when the request used a non-default encoding. */
  predicate Accepts(p: string, rawPath: string) {
    rawPath == "" && (p == Clean(p) || p == Clean(p) + "/")
  }

  predicate HasPrefix(s: string, prefix: string) {
    prefix <= s
  }

  // ---- exactly which paths pass -------------------------------------------------------------

  function Body(p: string): string {
    if IsRooted(p) then p[1..] else p
  }

  /** The segments of a path, without the root's and without a last empty one. */
  function Core(p: string): Segments {
    var segs := Split(Body(p));
    if segs[|segs| - 1] == "" then segs[..|segs| - 1] else segs
  }

  lemma {:induction false} FoldOfClean(rooted: bool, stack: Segments, segs: Segments)
    requires IsCleanStack(rooted, stack + segs)
    ensures Fold(rooted, stack, segs) == stack + segs
    decreases |segs|
  {
    if segs == [] {
      assert stack + segs == stack;
    } else {
      var i := |stack|;
      assert (stack + segs)[i] == segs[0] && (i > 0 ==> (stack + segs)[i - 1] == stack[i - 1]);
      assert (stack + [segs[0]]) + segs[1..] == stack + segs;
      FoldOfClean(rooted, stack + [segs[0]], segs[1..]);
    }
  }

  lemma {:induction false} FoldLastEmpty(rooted: bool, stack: Segments, segs: Segments)
    ensures Fold(rooted, stack, segs + [""]) == Fold(rooted, stack, segs)
    decreases |segs|
  {
    if segs == [] {
      assert segs + [""] == [""] && [""][1..] == [];
    } else {
      assert (segs + [""])[1..] == segs[1..] + [""];
      FoldLastEmpty(rooted, Push(rooted, stack, segs[0]), segs[1..]);
    }
  }

  /** A path is its core, behind a slash if rooted, and perhaps before a last slash. */
  lemma PathIsItsCore(p: string)
    requires p != ""
    ensures var r := Render(IsRooted(p), Core(p)); p == r || p == r + "/"
    ensures !IsRooted(p) ==> Core(p) != []
  {
    var segs := Split(Body(p));
    var core := Core(p);
    SlashedSplit(Body(p));
    if !IsRooted(p) {
      var rest := Split(p[1..]);
      assert segs[0] == [p[0]] + rest[0];
    }
    assert p == if IsRooted(p) then Slashed(segs) else Slashed(segs)[1..];
    if segs[|segs| - 1] == "" {
      assert segs == core + [""];
      SlashedAppend(core, [""]);
      assert Slashed([""]) == "/" + "" + "" == "/";
      if core != [] {
        assert (Slashed(core) + "/")[1..] == Slashed(core)[1..] + "/";
      }
    }
  }

  /** The fold over the segments of a canonical path, whether or not a slash comes last. */
  lemma FoldOfCanonical(rooted: bool, none: Segments, segs: Segments, core: Segments)
    requires none == [] && IsCleanStack(rooted, core) && (segs == core || segs == core + [""])
    ensures Fold(rooted, none, segs) == core
  {
    assert none + core == core;
    FoldOfClean(rooted, none, core);
    FoldLastEmpty(rooted, none, core);
  }

  lemma FoldOfBody(p: string, rooted: bool, none: Segments)
    requires p != "" && rooted == IsRooted(p) && none == []
    ensures Fold(rooted, none, Split(p)) == Fold(rooted, none, Split(Body(p)))
  {
    Start(p);
    assert p[0..] == p;
  }

  /** The core is the body's segments, apart from a last empty one. */
  lemma CoreIs(p: string, segs: Segments)
    requires segs == Split(Body(p))
    ensures segs == Core(p) || segs == Core(p) + [""]
  {
  }

  lemma FoldOfCore(p: string, rooted: bool, none: Segments, core: Segments)
    requires p != "" && rooted == IsRooted(p) && none == [] && core == Core(p) && IsCleanStack(rooted, core)
    ensures Fold(rooted, none, Split(p)) == core
  {
    var segs := Split(Body(p));
    CoreIs(p, segs);
    FoldOfBody(p, rooted, none);
    FoldOfCanonical(rooted, none, segs, core);
  }

  lemma CanonicalIsAccepted(p: string)
    requires p != "" && IsCleanStack(IsRooted(p), Core(p))
    ensures p == Clean(p) || p == Clean(p) + "/"
  {
    FoldOfCore(p, IsRooted(p), [], Core(p));
    PathIsItsCore(p);
    if !IsRooted(p) {
      SlashedLonger(Core(p));
    }
  }

  /** A rendered stack, with or without a last slash, has that stack as its core. */
  lemma CoreOfRendered(rooted: bool, stack: Segments, p: string)
    requires IsCleanStack(rooted, stack) && stack != [] && IsRooted(p) == rooted
    requires p == Render(rooted, stack) || p == Render(rooted, stack) + "/"
    ensures Core(p) == stack
  {
    var one := [""];
    SlashedAppend(stack, one);
    assert Slashed(one) == "/" + "" + "" == "/";
    SlashedLonger(stack);
    var all := if p == Render(rooted, stack) then stack else stack + one;
    assert Body(p) == Slashed(all)[1..];
    SplitSlashed(all);
  }

  lemma AcceptedIsCanonical(p: string)
    requires p == Clean(p) || p == Clean(p) + "/"
    ensures p != "" && (IsCleanStack(IsRooted(p), Core(p)) || p == "//" || p == "." || p == "./")
  {
    var rooted := IsRooted(p);
    var stack := Fold(rooted, [], Split(p));
    FoldIsClean(rooted, [], Split(p));
    if stack != [] {
      SlashedLonger(stack);
      CoreOfRendered(rooted, stack, p);
    } else if p == "/" {
      assert Split(Body("/")) == [""];
    }
  }

  /** The guard lets a path through exactly when it is made of names, with ".." only in front
      of an unrooted path and an empty segment only at the very end; or is one of the three
      odd paths "//", "." and "./". */
  lemma AcceptedPaths(p: string, rawPath: string)
    ensures Accepts(p, rawPath) <==>
            rawPath == "" && p != "" && (IsCleanStack(IsRooted(p), Core(p)) || p == "//" || p == "." || p == "./")
  {
    if p == Clean(p) || p == Clean(p) + "/" {
      AcceptedIsCanonical(p);
    }
    if p != "" && IsCleanStack(IsRooted(p), Core(p)) {
      CanonicalIsAccepted(p);
    }
    OddPaths();
  }

  lemma OddPaths()
    ensures Clean("//") == "/" && Clean(".") == "." && Clean("./") == "."
  {
    assert Split("/") == ["", ""] by { assert Split("") == [""]; assert "/"[1..] == ""; }
    assert Split("//") == ["", "", ""] by { assert "//"[1..] == "/"; }
    assert Split(".") == ["."] by { SplitFront(".", ""); assert "." + "" == "."; }
    assert Split("./") == [".", ""] by { SplitFront(".", "/"); assert "." + "/" == "./"; }
    assert Fold(true, [], ["", "", ""]) == [] by {
      assert ["", "", ""][1..] == ["", ""] && ["", ""][1..] == [""] && [""][1..] == [];
    }
    assert Fold(false, [], ["."]) == [] by { assert ["."][1..] == []; }
    assert Fold(false, [], [".", ""]) == [] by { assert [".", ""][1..] == [""] && [""][1..] == []; }
  }

  // ---- the allowlist decision ---------------------------------------------------------------

  /** The segments of a path below /api/admin/. */
  predicate IsAdminPath(segs: Segments) {
    |segs| >= 3 && segs[0] == "api" && segs[1] == "admin"
  }

  lemma SplitBehind(seg: string, rest: string)
    requires '/' !in seg
    ensures Split(seg + ("/" + rest)) == [seg] + Split(rest)
  {
    SplitFront(seg, "/" + rest);
    assert ("/" + rest)[1..] == rest && Split("/" + rest) == [""] + Split(rest);
  }

  lemma JoinBehind(s: string, segs: Segments) returns (rest: string)
    requires segs == Split(s) && |segs| >= 2
    ensures s == segs[0] + ("/" + rest)
  {
    JoinSplit(s);
    var tail := segs[1..];
    rest := tail[0] + Slashed(tail[1..]);
    assert Slashed(tail) == "/" + rest;
  }

  /** A string begins with a segment and its slash exactly when its split has that segment in
      front of another. */
  lemma SplitHead(s: string, seg: string)
    requires '/' !in seg
    ensures seg + "/" <= s <==> |Split(s)| >= 2 && Split(s)[0] == seg
    ensures seg + "/" <= s ==> Split(s)[1..] == Split(s[|seg| + 1..])
  {
    if seg + "/" <= s {
      assert s == seg + ("/" + s[|seg| + 1..]);
      SplitBehind(seg, s[|seg| + 1..]);
    }
    if |Split(s)| >= 2 {
      var rest := JoinBehind(s, Split(s));
      assert Split(s)[0] == seg ==> s == (seg + "/") + rest;
    }
  }

  /** The prefix test decides by whole segments: "/api/admin" and "/api/administrators" are out,
      "/api/admin/" and everything below it is in. */
  lemma DecidesBySegments(p: string)
    requires IsRooted(p)
    ensures HasPrefix(p, ADMIN_PREFIX) <==> IsAdminPath(Split(Body(p)))
  {
    var body := Body(p);
    assert p == "/" + body && ADMIN_PREFIX == "/" + ("api" + "/") + ("admin" + "/");
    SplitHead(body, "api");
    if "api" + "/" <= body {
      SplitHead(body[4..], "admin");
      assert body == ("api" + "/") + body[4..];
    }
    assert HasPrefix(p, ADMIN_PREFIX) <==> "api" + "/" <= body && "admin" + "/" <= body[4..];
  }
}
