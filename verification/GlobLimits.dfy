/** Where the compiled meaning of a glob and its documented meaning part: exactly the globs, and exactly the paths. */
module GlobLimits {
  import opened Prelude
  import opened Globs

  /** The compiled glob accepts the path. */
  predicate Accepts(glob: string, path: string) {
    ReadAll(Emit(glob)).Some? && Search(ReadAll(Emit(glob)).value, path)
  }

  predicate HasDoubleStar(glob: string) { exists i :: 0 <= i < |glob| - 1 && glob[i] == '*' && glob[i + 1] == '*' }

  lemma DoubleStarFirst(glob: string)
    requires glob != []
    ensures HasDoubleStar(glob) <==> Width(glob) >= 2 || HasDoubleStar(glob[1..])
  {
    if Width(glob) >= 2 {
      assert glob[0] == '*' && glob[0 + 1] == '*';
    } else if HasDoubleStar(glob) {
      var i :| 0 <= i < |glob| - 1 && glob[i] == '*' && glob[i + 1] == '*';
      assert glob[1..][i - 1] == '*' && glob[1..][i] == '*';
    }
    if HasDoubleStar(glob[1..]) {
      var i :| 0 <= i < |glob[1..]| - 1 && glob[1..][i] == '*' && glob[1..][i + 1] == '*';
      assert glob[i + 1] == '*' && glob[(i + 1) + 1] == '*';
    }
  }

  // ---------------------------------------------------------------- which globs

  /** How often a line feed is followed by a slash. */
  function Crossings(s: string): nat {
    if |s| < 2 then 0 else (if s[0] == '\n' && s[1] == '/' then 1 else 0) + Crossings(s[1..])
  }

  /** Joining two texts makes at most one more crossing. */
  lemma {:induction false} JoinedCrossings(a: string, b: string)
    ensures Crossings(a) + Crossings(b) <= Crossings(a + b) <= Crossings(a) + Crossings(b) + 1
  {
    if a == [] {
      assert a + b == b;
    } else {
      JoinedCrossings(a[1..], b);
      assert (a + b)[1..] == a[1..] + b;
      if |a| == 1 {
        assert a[1..] + b == b;
      }
    }
  }

  lemma {:induction false} NoCrossing(s: string)
    requires OneLine(s) || NoSlash(s)
    ensures Crossings(s) == 0
  {
    if |s| >= 2 {
      NoCrossing(s[1..]);
    }
  }

  /** No single piece of a compiled glob takes a line feed followed by a slash. */
  lemma PieceCrossesNothing(glob: string, path: string, k: nat)
    requires glob != [] && k <= |path| && Takes(glob, path, k, OneLine)
    ensures Crossings(path[..k]) == 0
  {
    if Width(glob) == 3 && k > 0 {
      assert path[..k] == path[..k - 1] + ['/'];
      NoCrossing(path[..k]);
    } else if Width(glob) == 2 || (Width(glob) == 1 && glob[0] == '*') {
      NoCrossing(path[..k]);
    }
  }

  /** So what a compiled glob accepts has at most as many crossings as the glob has characters. */
  lemma {:induction false} FewCrossings(glob: string, path: string)
    requires DenotesRuns(glob, path, OneLine)
    ensures Crossings(path) <= |glob|
    decreases |glob|
  {
    if glob != [] {
      var k := DenotesFirst(glob, path, OneLine);
      FewCrossings(glob[Width(glob)..], path[k..]);
      PieceCrossesNothing(glob, path, k);
      JoinedCrossings(path[..k], path[k..]);
      assert path == path[..k] + path[k..];
    }
  }

  /** Line feeds and slashes, `n` times. */
  function Breaks(n: nat): string { if n == 0 then [] else "\n/" + Breaks(n - 1) }

  lemma {:induction false} BreaksCross(n: nat)
    ensures Crossings(Breaks(n)) >= n
    ensures n > 0 ==> Breaks(n) != [] && Breaks(n)[|Breaks(n)| - 1] == '/'
  {
    if n > 0 {
      BreaksCross(n - 1);
      JoinedCrossings("\n/", Breaks(n - 1));
      assert Crossings("\n/") == 1;
    }
  }

  /** A path that a glob denotes, each double star standing for `n` breaks. */
  function Stretched(glob: string, n: nat): string
    decreases |glob|
  {
    if glob == [] then []
    else
      var first := if Width(glob) >= 2 then Breaks(n) else if glob[0] == '*' then [] else
          if glob[0] == '?' then "x" else [glob[0]];
      first + Stretched(glob[Width(glob)..], n)
  }

  lemma {:induction false} StretchedDenoted(glob: string, n: nat)
    ensures Denotes(glob, Stretched(glob, n))
    decreases |glob|
  {
    if glob != [] {
      var path, left := Stretched(glob, n), Stretched(glob[Width(glob)..], n);
      var k := if Width(glob) >= 2 then |Breaks(n)| else if glob[0] == '*' then 0 else 1;
      StretchedDenoted(glob[Width(glob)..], n);
      BreaksCross(n);
      assert path[k..] == left;
      if Width(glob) == 3 && n > 0 {
        assert path[k - 1] == Breaks(n)[k - 1];
      }
      FirstDenotes(glob, path, s => true, k);
    }
  }

  lemma {:induction false} StretchedCrosses(glob: string, n: nat)
    requires HasDoubleStar(glob)
    ensures Crossings(Stretched(glob, n)) >= n
    decreases |glob|
  {
    var left := glob[Width(glob)..];
    DoubleStarFirst(glob);
    if Width(glob) >= 2 {
      BreaksCross(n);
      JoinedCrossings(Breaks(n), Stretched(left, n));
    } else {
      StretchedCrosses(left, n);
      var first := if glob[0] == '*' then [] else if glob[0] == '?' then "x" else [glob[0]];
      JoinedCrossings(first, Stretched(left, n));
    }
  }

  /** Without a double star it does not matter what a double star may stand for. */
  lemma {:induction false} RunsUnused(glob: string, path: string, runs: string -> bool, others: string -> bool)
    requires !HasDoubleStar(glob) && DenotesRuns(glob, path, runs)
    ensures DenotesRuns(glob, path, others)
    decreases |glob|
  {
    if glob != [] {
      var k := DenotesFirst(glob, path, runs);
      DoubleStarFirst(glob);
      RunsUnused(glob[1..], path[k..], runs, others);
      FirstDenotes(glob, path, others, k);
    }
  }

  // ---------------------------------------------------------------- bytes and characters

  /** How many characters a path must have at least: one for each piece that is not a star. */
  function Singles(glob: string): nat
    decreases |glob|
  {
    if glob == [] then 0 else (if glob[0] == '*' then 0 else 1) + Singles(glob[Width(glob)..])
  }

  lemma {:induction false} SinglesTaken(glob: string, path: string, runs: string -> bool)
    requires DenotesRuns(glob, path, runs)
    ensures |path| >= Singles(glob)
    decreases |glob|
  {
    if glob != [] {
      var k := DenotesFirst(glob, path, runs);
      SinglesTaken(glob[Width(glob)..], path[k..], runs);
    }
  }

  /** The shortest path that a glob denotes has exactly that many characters, and no line feed of its own. */
  lemma {:induction false} ShortestPath(glob: string)
    ensures |Stretched(glob, 0)| == Singles(glob)
    ensures OneLine(glob) ==> OneLine(Stretched(glob, 0))
    decreases |glob|
  {
    if glob != [] {
      ShortestPath(glob[Width(glob)..]);
    }
  }

  /** The first byte is an ASCII character exactly when the first character is that one. */
  lemma FirstByte(s: string, c: char)
    requires (c as int) < 0x80
    ensures Utf8(s) != [] && Utf8(s)[0] == c <==> s != [] && s[0] == c
    ensures s != [] && s[0] == c ==> Utf8(s)[1..] == Utf8(s[1..])
  {
  }

  lemma Tails(s: string)
    requires |s| >= 2
    ensures s[1..][1..] == s[2..] && (|s| >= 3 ==> s[1..][1..][1..] == s[3..])
  {
  }

  /** A star piece keeps its width and what follows it. */
  lemma StarBytes(glob: string)
    requires glob != [] && glob[0] == '*'
    ensures var b := Utf8(glob);
            b != [] && b[0] == '*' && Width(b) == Width(glob) && b[Width(b)..] == Utf8(glob[Width(glob)..])
  {
    hide Utf8;
    var b := Utf8(glob);
    FirstByte(glob, '*');
    FirstByte(glob[1..], '*');
    if |glob| > 1 && glob[1] == '*' {
      Tails(glob);
      Tails(b);
      FirstByte(glob[2..], '/');
    }
  }

  lemma {:induction false} LiteralSingles(units: string, rest: string)
    requires '*' !in units
    ensures Singles(units + rest) == |units| + Singles(rest)
  {
    if units == [] {
      assert units + rest == rest;
    } else {
      LiteralSingles(units[1..], rest);
      assert (units + rest)[1..] == units[1..] + rest;
    }
  }

  /** A character beyond ASCII stands for two bytes or more, each of which asks for a character of its own. */
  lemma {:induction false} BytesAskMore(glob: string)
    ensures Singles(Utf8(glob)) >= Singles(glob)
    ensures !Ascii(glob) ==> Singles(Utf8(glob)) > Singles(glob)
    decreases |glob|
  {
    if glob != [] {
      var left := glob[Width(glob)..];
      BytesAskMore(left);
      AsciiSplit(glob, Width(glob));
      if glob[0] == '*' {
        StarBytes(glob);
        StarsAreAscii(glob);
      } else {
        LiteralSingles(CodeUnits(glob[0]), Utf8(left));
      }
    }
  }

  lemma AsciiSplit(s: string, n: nat)
    requires n <= |s|
    ensures Ascii(s) <==> Ascii(s[..n]) && Ascii(s[n..])
  {
    if Ascii(s[..n]) && Ascii(s[n..]) {
      forall i | 0 <= i < |s| ensures (s[i] as int) < 0x80 {
        assert if i < n then s[i] == s[..n][i] else s[i] == s[n..][i - n];
      }
    }
  }

  lemma StarsAreAscii(glob: string)
    requires glob != [] && glob[0] == '*'
    ensures Ascii(glob[..Width(glob)])
  {
  }

  /** A plain character of a glob must occur in every path that the glob denotes. */
  lemma {:induction false} PlainOccurs(glob: string, path: string, runs: string -> bool, c: char)
    requires c in glob && c !in "*?/" && DenotesRuns(glob, path, runs)
    ensures c in path
    decreases |glob|
  {
    var k := DenotesFirst(glob, path, runs);
    var left := glob[Width(glob)..];
    assert path == path[..k] + path[k..] && glob == glob[..Width(glob)] + left;
    if c in left {
      PlainOccurs(left, path[k..], runs, c);
    } else {
      assert glob[0] == c && path[0] == c;
    }
  }

  lemma {:induction false} BytesBeyond(s: string) returns (c: char)
    requires !Ascii(s)
    ensures c in Utf8(s) && 0x80 <= c as int
  {
    if (s[0] as int) >= 0x80 {
      c := CodeUnits(s[0])[0];
    } else {
      assert !Ascii(s[1..]) by { AsciiSplit(s, 1); }
      c := BytesBeyond(s[1..]);
    }
  }

  /** An ASCII path is denoted neither by a glob with other characters nor by its bytes. */
  lemma BeyondAscii(glob: string, path: string)
    requires !Ascii(glob) && Ascii(path)
    ensures !Accepts(glob, path) && !Denotes(glob, path)
  {
    CompiledGlobMeaning(glob, path);
    var i :| 0 <= i < |glob| && (glob[i] as int) >= 0x80;
    var c := BytesBeyond(glob);
    if Denotes(glob, path) {
      PlainOccurs(glob, path, s => true, glob[i]);
    }
    if DenotesRuns(Utf8(glob), path, OneLine) {
      PlainOccurs(Utf8(glob), path, OneLine, c);
    }
  }

  /** The shortest path that a glob beyond ASCII denotes is too short for its bytes. */
  lemma ShortestRefused(glob: string)
    requires !Ascii(glob)
    ensures Denotes(glob, Stretched(glob, 0)) && !Accepts(glob, Stretched(glob, 0))
  {
    var path := Stretched(glob, 0);
    StretchedDenoted(glob, 0);
    ShortestPath(glob);
    BytesAskMore(glob);
    CompiledGlobMeaning(glob, path);
    if DenotesRuns(Utf8(glob), path, OneLine) {
      SinglesTaken(Utf8(glob), path, OneLine);
    }
  }

  lemma {:induction false} FeedKept(s: string)
    ensures '\n' in s ==> '\n' in Utf8(s)
  {
    if s != [] {
      FeedKept(s[1..]);
      assert s == [s[0]] + s[1..];
    }
  }

  // ---------------------------------------------------------------- which globs, which paths

  /**
   A glob means what it is documented to mean, on all paths whatever their text,
   exactly when it is ASCII and has no double star.
   */
  lemma GlobReadAsDocumentedIff(glob: string)
    ensures (forall path :: Accepts(glob, path) <==> Denotes(glob, path)) <==> Ascii(glob) && !HasDoubleStar(glob)
  {
    if !Ascii(glob) {
      ShortestRefused(glob);
    } else if HasDoubleStar(glob) {
      AsciiKept(glob);
      var n := |glob| + 1;
      var path := Stretched(glob, n);
      StretchedDenoted(glob, n);
      StretchedCrosses(glob, n);
      CompiledGlobMeaning(glob, path);
      if Accepts(glob, path) {
        FewCrossings(glob, path);
      }
    } else {
      AsciiKept(glob);
      forall path ensures Accepts(glob, path) <==> Denotes(glob, path) {
        CompiledGlobMeaning(glob, path);
        if DenotesRuns(glob, path, OneLine) {
          RunsUnused(glob, path, OneLine, s => true);
        }
        if Denotes(glob, path) {
          RunsUnused(glob, path, s => true, OneLine);
        }
      }
    }
  }

  /** On paths of one line it does exactly when it is ASCII, or holds a line feed and so denotes none of them. */
  lemma GlobReadOnLinesIff(glob: string)
    ensures (forall path :: OneLine(path) ==> (Accepts(glob, path) <==> Denotes(glob, path)))
            <==> Ascii(glob) || !OneLine(glob)
  {
    if Ascii(glob) {
      forall path | OneLine(path) ensures Accepts(glob, path) <==> Denotes(glob, path) {
        CompiledGlobIsDocumentedGlob(glob, path);
      }
    } else if OneLine(glob) {
      ShortestRefused(glob);
      ShortestPath(glob);
    } else {
      FeedKept(glob);
      forall path | OneLine(path) ensures !Accepts(glob, path) && !Denotes(glob, path) {
        CompiledGlobMeaning(glob, path);
        if Denotes(glob, path) {
          PlainOccurs(glob, path, s => true, '\n');
        }
        if DenotesRuns(Utf8(glob), path, OneLine) {
          PlainOccurs(Utf8(glob), path, OneLine, '\n');
        }
      }
    }
  }

  lemma DoubleStarDenotes(path: string, runs: string -> bool)
    ensures DenotesRuns("**", path, runs) <==> runs(path)
  {
    var glob := "**";
    assert glob[2..] == [] && path[..|path|] == path && path[|path|..] == [];
    forall k | 0 <= k <= |path| && DenotesRuns(glob[2..], path[k..], runs)
      ensures path[..k] == path
    {
      assert path[k..] == [];
    }
  }

  /** The glob that is the path itself, stars and question marks as question marks. */
  function Verbatim(path: string): (g: string)
    ensures |g| == |path|
  {
    seq(|path|, i requires 0 <= i < |path| => if path[i] == '*' then '?' else path[i])
  }

  lemma {:induction false} VerbatimDenotes(path: string)
    ensures Denotes(Verbatim(path), path) && Singles(Verbatim(path)) == |path|
  {
    if path != [] {
      VerbatimDenotes(path[1..]);
      assert Verbatim(path)[1..] == Verbatim(path[1..]);
    }
  }

  /** A path is read as documented by every glob exactly when it is ASCII without line feed. */
  lemma PathReadAsDocumentedIff(path: string)
    ensures (forall glob :: Accepts(glob, path) <==> Denotes(glob, path)) <==> OneLine(path) && Ascii(path)
  {
    if !OneLine(path) {
      CompiledGlobMeaning("**", path);
      AsciiKept("**");
      DoubleStarDenotes(path, OneLine);
      DoubleStarDenotes(path, s => true);
      assert !(Accepts("**", path) <==> Denotes("**", path));
    } else if !Ascii(path) {
      VerbatimRefused(path);
    } else {
      forall glob ensures Accepts(glob, path) <==> Denotes(glob, path) {
        AgreeableMeaning(glob, path);
      }
    }
  }

  lemma VerbatimRefused(path: string)
    requires !Ascii(path)
    ensures Denotes(Verbatim(path), path) && !Accepts(Verbatim(path), path)
  {
    var glob := Verbatim(path);
    var i :| 0 <= i < |path| && (path[i] as int) >= 0x80;
    assert glob[i] == path[i];
    VerbatimDenotes(path);
    BytesAskMore(glob);
    CompiledGlobMeaning(glob, path);
    if DenotesRuns(Utf8(glob), path, OneLine) {
      SinglesTaken(Utf8(glob), path, OneLine);
    }
  }

  /** The path or the glob rules out that they part. */
  predicate Agreeable(glob: string, path: string) {
    (Ascii(path) || Ascii(glob)) && (OneLine(path) || !HasDoubleStar(glob))
  }

  lemma AgreeableMeaning(glob: string, path: string)
    requires Agreeable(glob, path)
    ensures Accepts(glob, path) <==> Denotes(glob, path)
  {
    if !Ascii(glob) {
      BeyondAscii(glob, path);
    } else if OneLine(path) {
      CompiledGlobIsDocumentedGlob(glob, path);
    } else {
      GlobReadAsDocumentedIff(glob);
    }
  }

  /**
   With compiled globs, where no file name and glob can part: some file matches iff some file
   is denoted by some glob.
   */
  lemma AnyFileDenoted(globs: seq<string>, patterns: seq<seq<Re>>, files: seq<string>)
    requires |patterns| == |globs|
    requires forall p :: 0 <= p < |globs| ==> ReadAll(Emit(globs[p])) == Some(patterns[p])
    requires forall f, p :: 0 <= f < |files| && 0 <= p < |globs| ==> Agreeable(globs[p], files[f])
    ensures AnyFile(patterns, files) <==>
            exists f, p :: 0 <= f < |files| && 0 <= p < |globs| && Denotes(globs[p], Slashed(files[f]))
  {
    forall f, p | 0 <= f < |files| && 0 <= p < |globs|
      ensures Search(patterns[p], Slashed(files[f])) <==> Denotes(globs[p], Slashed(files[f]))
    {
      SlashedLine(files[f]);
      assert Agreeable(globs[p], files[f]);
      AgreeableMeaning(globs[p], Slashed(files[f]));
    }
  }

  lemma SlashedLine(file: string)
    ensures OneLine(file) ==> OneLine(Slashed(file))
    ensures Ascii(file) ==> Ascii(Slashed(file))
  {
  }
}
