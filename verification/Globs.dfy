/**
 File globs of the policy language (internal/policy/compiled.go): a glob is
 translated to the text of a regular expression, which a separate engine reads
 back and searches for in the path.

 The model keeps the two halves apart.  `Emit` is the translation; `ReadAll`
 reads regular-expression text and knows nothing of globs; `Search` is what a
 regular expression means; `Denotes` says what a glob is meant to accept.  The
 translation goes byte by byte through the UTF-8 form of the glob and emits each
 byte as the character of that number; paths are matched character by character.
 */
module Globs {
  import opened Prelude

  // ---------------------------------------------------------------- meaning of globs

  predicate NoSlash(s: string) { '/' !in s }

  /** The regular-expression dot does not match a line feed. */
  predicate OneLine(s: string) { '\n' !in s }

  /**
   What a glob accepts: `**` followed by a slash stands for nothing or for any
   text ending in a slash, `**` for any text, `*` and `?` never cross a slash,
   every other character stands for itself.  `runs` says which texts the
   double star may stand for.
   */
  ghost predicate DenotesRuns(glob: string, path: string, runs: string -> bool)
    decreases |glob|
  {
    if glob == [] then path == []
    else if glob[0] == '*' && |glob| > 1 && glob[1] == '*' then
      if |glob| > 2 && glob[2] == '/' then
        || DenotesRuns(glob[3..], path, runs)
        || exists k :: 0 < k <= |path| && path[k - 1] == '/' && runs(path[..k - 1])
                       && DenotesRuns(glob[3..], path[k..], runs)
      else
        exists k :: 0 <= k <= |path| && runs(path[..k]) && DenotesRuns(glob[2..], path[k..], runs)
    else if glob[0] == '*' then
      exists k :: 0 <= k <= |path| && NoSlash(path[..k]) && DenotesRuns(glob[1..], path[k..], runs)
    else if glob[0] == '?' then
      path != [] && path[0] != '/' && DenotesRuns(glob[1..], path[1..], runs)
    else
      path != [] && path[0] == glob[0] && DenotesRuns(glob[1..], path[1..], runs)
  }

  /** The documented meaning: a double star stands for any text at all. */
  ghost predicate Denotes(glob: string, path: string) {
    DenotesRuns(glob, path, s => true)
  }

  // ---------------------------------------------------------------- regular expressions

  datatype Re =
    | Lit(c: char)
    | Dot
    | NotIn(c: char)
    | Begin
    | End
    | Star(body: Re)
    | Maybe(body: Re)
    | Group(parts: seq<Re>)

  predicate Meta(c: char) { c in "\\.+*?()|[]{}^$" }

  function QuoteMeta(c: char): string {
    if Meta(c) then ['\\', c] else [c]
  }

  /** A sequence of pieces read up to the end of the text or an unmatched closing parenthesis. */
  function ReadSeq(t: string): (r: Option<(seq<Re>, string)>)
    ensures r.Some? ==> |r.value.1| <= |t|
    decreases |t|, 2
  {
    if t == [] || t[0] == ')' then Some(([], t))
    else
      match ReadPiece(t)
      case None => None
      case Some((piece, rest)) =>
        match ReadSeq(rest)
        case None => None
        case Some((pieces, rest')) => Some(([piece] + pieces, rest'))
  }

  /** One atom and the repetition operator behind it, if any; operators cannot be stacked. */
  function ReadPiece(t: string): (r: Option<(Re, string)>)
    requires t != []
    ensures r.Some? ==> |r.value.1| < |t|
    decreases |t|, 1
  {
    match ReadAtom(t)
    case None => None
    case Some((atom, rest)) =>
      if rest == [] || rest[0] !in "*?+{" then Some((atom, rest))
      else if rest[0] in "+{" || (|rest| > 1 && rest[1] in "*?+{") then None
      else Some((if rest[0] == '*' then Star(atom) else Maybe(atom), rest[1..]))
  }

  function ReadAtom(t: string): (r: Option<(Re, string)>)
    requires t != []
    ensures r.Some? ==> |r.value.1| < |t|
    decreases |t|, 0
  {
    var c := t[0];
    if c == '^' then Some((Begin, t[1..]))
    else if c == '$' then Some((End, t[1..]))
    else if c == '.' then Some((Dot, t[1..]))
    else if c == '\\' then
      if |t| > 1 && Meta(t[1]) then Some((Lit(t[1]), t[2..])) else None
    else if c == '[' then
      if |t| > 3 && t[1] == '^' && t[2] == '/' && t[3] == ']' then Some((NotIn('/'), t[4..])) else None
    else if c == '(' then
      if |t| > 2 && t[1] == '?' && t[2] == ':' then
        match ReadSeq(t[3..])
        case None => None
        case Some((parts, rest)) =>
          if rest != [] && rest[0] == ')' then Some((Group(parts), rest[1..])) else None
      else None
    else if Meta(c) then None
    else Some((Lit(c), t[1..]))
  }

  /** A whole regular expression: nothing may be left over. */
  function ReadAll(t: string): Option<seq<Re>> {
    match ReadSeq(t)
    case Some((pieces, rest)) => if rest == [] then Some(pieces) else None
    case None => None
  }

  /** `re` matches `s` from position `i` to position `j`. */
  predicate Matches(re: Re, s: string, i: nat, j: nat)
    requires i <= j <= |s|
    decreases re, j - i, 0
  {
    match re
    case Lit(c) => j == i + 1 && s[i] == c
    case Dot => j == i + 1 && s[i] != '\n'
    case NotIn(c) => j == i + 1 && s[i] != c
    case Begin => i == j == 0
    case End => i == j == |s|
    case Maybe(body) => i == j || Matches(body, s, i, j)
    case Star(body) => i == j || exists k :: i < k <= j && Matches(body, s, i, k) && Matches(re, s, k, j)
    case Group(parts) => MatchesSeq(parts, s, i, j)
  }

  predicate MatchesSeq(parts: seq<Re>, s: string, i: nat, j: nat)
    requires i <= j <= |s|
    decreases parts, j - i, 1
  {
    if parts == [] then i == j
    else exists k :: i <= k <= j && Matches(parts[0], s, i, k) && MatchesSeq(parts[1..], s, k, j)
  }

  /** Unanchored search, as the matcher runs it. */
  predicate Search(parts: seq<Re>, s: string) {
    exists i: nat, j: nat :: i <= j <= |s| && MatchesSeq(parts, s, i, j)
  }

  /** A sequence matches by splitting the text behind its first part. */
  lemma FirstPart(parts: seq<Re>, s: string, i: nat, j: nat) returns (k: nat)
    requires i <= j <= |s| && parts != []
    requires MatchesSeq(parts, s, i, j)
    ensures i <= k <= j && Matches(parts[0], s, i, k) && MatchesSeq(parts[1..], s, k, j)
  {
    k :| i <= k <= j && Matches(parts[0], s, i, k) && MatchesSeq(parts[1..], s, k, j);
  }

  /** A repetition that takes some text takes a first round. */
  lemma FirstRound(body: Re, s: string, i: nat, j: nat) returns (k: nat)
    requires i < j <= |s|
    requires Matches(Star(body), s, i, j)
    ensures i < k <= j && Matches(body, s, i, k) && Matches(Star(body), s, k, j)
  {
    k :| i < k <= j && Matches(body, s, i, k) && Matches(Star(body), s, k, j);
  }

  // ---------------------------------------------------------------- the translation

  /** The text emitted for what is left of a glob. */
  function EmitBody(glob: string): string
    decreases |glob|
  {
    if glob == [] then []
    else if glob[0] == '*' && |glob| > 1 && glob[1] == '*' then
      if |glob| > 2 && glob[2] == '/' then "(?:.*/)?" + EmitBody(glob[3..]) else ".*" + EmitBody(glob[2..])
    else if glob[0] == '*' then "[^/]*" + EmitBody(glob[1..])
    else if glob[0] == '?' then "[^/]" + EmitBody(glob[1..])
    else QuoteMeta(glob[0]) + EmitBody(glob[1..])
  }

  /** The expression for a text of bytes. */
  function EmitText(text: string): string { "^" + EmitBody(text) + "$" }

  /** The bytes of a character in UTF-8, each as the character of that number. */
  function CodeUnits(c: char): (u: string)
    ensures if (c as int) < 0x80 then u == [c] else |u| >= 2 && forall i :: 0 <= i < |u| ==> 0x80 <= u[i] as int
  {
    var n := c as int;
    if n < 0x80 then [c]
    else if n < 0x800 then [(0xC0 + n / 64) as char, (0x80 + n % 64) as char]
    else if n < 0x10000 then [(0xE0 + n / 4096) as char, (0x80 + n / 64 % 64) as char, (0x80 + n % 64) as char]
    else [(0xF0 + n / 262144) as char, (0x80 + n / 4096 % 64) as char, (0x80 + n / 64 % 64) as char,
        (0x80 + n % 64) as char]
  }

  function Utf8(s: string): string { if s == [] then [] else CodeUnits(s[0]) + Utf8(s[1..]) }

  predicate Ascii(s: string) { forall i :: 0 <= i < |s| ==> (s[i] as int) < 0x80 }

  lemma {:induction false} AsciiKept(s: string)
    requires Ascii(s)
    ensures Utf8(s) == s
  {
    if s != [] {
      AsciiKept(s[1..]);
      assert s == [s[0]] + s[1..];
    }
  }

  function Emit(glob: string): string { EmitText(Utf8(glob)) }

  // ---------------------------------------------------------------- reading the emitted text back

  /** The pieces a glob stands for. */
  function Pieces(glob: string): seq<Re>
    decreases |glob|
  {
    if glob == [] then []
    else if glob[0] == '*' && |glob| > 1 && glob[1] == '*' then
      if |glob| > 2 && glob[2] == '/' then [Maybe(Group([Star(Dot), Lit('/')]))] + Pieces(glob[3..])
      else [Star(Dot)] + Pieces(glob[2..])
    else if glob[0] == '*' then [Star(NotIn('/'))] + Pieces(glob[1..])
    else if glob[0] == '?' then [NotIn('/')] + Pieces(glob[1..])
    else [Lit(glob[0])] + Pieces(glob[1..])
  }

  /** Emitted text never starts with a repetition operator or a closing parenthesis. */
  predicate Fresh(t: string) { t != [] && t[0] !in "*?+{)" }

  lemma EmitBodyFresh(glob: string)
    ensures Fresh(EmitBody(glob) + "$")
  {
  }

  lemma ReadQuoted(c: char, rest: string)
    requires Fresh(rest)
    ensures ReadPiece(QuoteMeta(c) + rest) == Some((Lit(c), rest))
  {
    var t := QuoteMeta(c) + rest;
    if Meta(c) {
      assert t[2..] == rest;
    } else {
      assert t[1..] == rest;
    }
  }

  lemma ReadNotSlash(rest: string)
    ensures ReadAtom("[^/]" + rest) == Some((NotIn('/'), rest))
  {
    var t := "[^/]" + rest;
    assert t[4..] == rest;
  }

  lemma ReadStarred(t: string, atom: Re, rest: string)
    requires t != [] && Fresh(rest)
    requires ReadAtom(t) == Some((atom, "*" + rest))
    ensures ReadPiece(t) == Some((Star(atom), rest))
  {
    assert ("*" + rest)[1..] == rest;
  }

  /** One more piece in front of a text that reads up to `left`. */
  lemma ReadCons(t: string, piece: Re, rest: string, pieces: seq<Re>, left: string)
    requires t != [] && t[0] != ')' && ReadPiece(t) == Some((piece, rest))
    requires ReadSeq(rest) == Some((pieces, left))
    ensures ReadSeq(t) == Some(([piece] + pieces, left))
  {
  }

  /** The inside of the directory group. */
  lemma ReadInner(tail: string)
    requires tail != [] && tail[0] == ')'
    ensures ReadSeq(".*" + ("/" + tail)) == Some(([Star(Dot), Lit('/')], tail))
  {
    var slash := "/" + tail;
    var inner := ".*" + slash;
    assert ReadPiece(slash) == Some((Lit('/'), tail)) by {
      assert slash[1..] == tail;
    }
    ReadCons(slash, Lit('/'), tail, [], tail);
    assert ReadPiece(inner) == Some((Star(Dot), slash)) by {
      assert inner[1..] == "*" + slash;
      ReadStarred(inner, Dot, slash);
    }
    ReadCons(inner, Star(Dot), slash, [Lit('/')] + [], tail);
    assert [Star(Dot)] + ([Lit('/')] + []) == [Star(Dot), Lit('/')];
  }

  lemma ReadGroup(inner: string, parts: seq<Re>, rest: string)
    requires ReadSeq(inner) == Some((parts, ")" + rest))
    ensures ReadAtom("(?:" + inner) == Some((Group(parts), rest))
  {
    var t := "(?:" + inner;
    assert t[3..] == inner;
    assert (")" + rest)[1..] == rest;
  }

  /** The group of the directory wildcard, optional as a whole. */
  lemma ReadDirs(rest: string)
    requires Fresh(rest)
    ensures ReadPiece("(?:.*/)?" + rest) == Some((Maybe(Group([Star(Dot), Lit('/')])), rest))
  {
    var again := "?" + rest;
    var inner := ".*" + ("/" + (")" + again));
    var t := "(?:" + inner;
    assert "(?:.*/)?" + rest == t;
    ReadInner(")" + again);
    ReadGroup(inner, [Star(Dot), Lit('/')], again);
    assert again[1..] == rest;
  }

  /** How much of a glob its first piece takes. */
  function Width(glob: string): (n: nat)
    requires glob != []
    ensures 1 <= n <= |glob|
  {
    if glob[0] == '*' && |glob| > 1 && glob[1] == '*' then
      if |glob| > 2 && glob[2] == '/' then 3 else 2
    else 1
  }

  /** The piece a glob starts with. */
  function FirstPiece(glob: string): Re
    requires glob != []
  {
    if Width(glob) == 3 then Maybe(Group([Star(Dot), Lit('/')]))
    else if Width(glob) == 2 then Star(Dot)
    else if glob[0] == '*' then Star(NotIn('/'))
    else if glob[0] == '?' then NotIn('/')
    else Lit(glob[0])
  }

  /** The text emitted for the piece a glob starts with. */
  function FirstText(glob: string): string
    requires glob != []
  {
    if Width(glob) == 3 then "(?:.*/)?"
    else if Width(glob) == 2 then ".*"
    else if glob[0] == '*' then "[^/]*"
    else if glob[0] == '?' then "[^/]"
    else QuoteMeta(glob[0])
  }

  /** That text reads back as that piece, whatever emitted text follows. */
  lemma FirstTextReads(glob: string, rest: string)
    requires glob != [] && Fresh(rest)
    ensures ReadPiece(FirstText(glob) + rest) == Some((FirstPiece(glob), rest))
  {
    hide ReadPiece, ReadAtom, ReadSeq;
    var t := FirstText(glob) + rest;
    if Width(glob) == 3 {
      ReadDirs(rest);
    } else if Width(glob) == 2 {
      assert t == "." + ("*" + rest);
      ReadDot("*" + rest);
      ReadStarred(t, Dot, rest);
    } else if glob[0] == '*' {
      assert t == "[^/]" + ("*" + rest);
      ReadNotSlash("*" + rest);
      ReadStarred(t, NotIn('/'), rest);
    } else if glob[0] == '?' {
      ReadNotSlashOnce(rest);
    } else {
      ReadQuoted(glob[0], rest);
    }
  }

  lemma ReadDot(rest: string)
    ensures ReadAtom("." + rest) == Some((Dot, rest))
  {
    assert ("." + rest)[1..] == rest;
  }

  lemma ReadNotSlashOnce(rest: string)
    requires Fresh(rest)
    ensures ReadPiece("[^/]" + rest) == Some((NotIn('/'), rest))
  {
    ReadNotSlash(rest);
  }

  lemma EmitFirst(glob: string)
    requires glob != []
    ensures EmitBody(glob) == FirstText(glob) + EmitBody(glob[Width(glob)..]) && Pieces(glob)[0] == FirstPiece(glob)
  {
  }

  /** The first piece of the emitted text reads back as the first piece of the glob. */
  lemma FirstPieceReads(glob: string, rest: string)
    requires glob != [] && rest == EmitBody(glob[Width(glob)..]) + "$"
    ensures ReadPiece(EmitBody(glob) + "$") == Some((Pieces(glob)[0], rest))
  {
    hide ReadPiece, FirstText, FirstPiece, Width;
    EmitBodyFresh(glob[Width(glob)..]);
    EmitFirst(glob);
    FirstTextReads(glob, rest);
    assert EmitBody(glob) + "$" == FirstText(glob) + rest;
  }

  lemma EndReads()
    ensures ReadSeq("$") == Some(([End], []))
  {
    var t := "$";
    assert t[1..] == [];
    assert ReadAtom(t) == Some((End, []));
    assert ReadPiece(t) == Some((End, []));
    ReadCons(t, End, [], [], []);
    assert [End] + [] == [End];
  }

  lemma PiecesSplit(glob: string)
    requires glob != []
    ensures Pieces(glob) == [Pieces(glob)[0]] + Pieces(glob[Width(glob)..])
  {
  }

  lemma {:induction false} BodyReads(glob: string)
    ensures ReadSeq(EmitBody(glob) + "$") == Some((Pieces(glob) + [End], []))
    decreases |glob|
  {
    var t := EmitBody(glob) + "$";
    if glob == [] {
      assert t == "$" && Pieces(glob) + [End] == [End];
      EndReads();
    } else {
      var left := glob[Width(glob)..];
      BodyReads(left);
      OnePieceMore(glob, left);
    }
  }

  lemma OnePieceMore(glob: string, left: string)
    requires glob != [] && left == glob[Width(glob)..]
    requires ReadSeq(EmitBody(left) + "$") == Some((Pieces(left) + [End], []))
    ensures ReadSeq(EmitBody(glob) + "$") == Some((Pieces(glob) + [End], []))
  {
    var t, rest := EmitBody(glob) + "$", EmitBody(left) + "$";
    var piece, pieces := Pieces(glob)[0], Pieces(left) + [End];
    assert t != [] && t[0] != ')' by { EmitBodyFresh(glob); }
    assert ReadPiece(t) == Some((piece, rest)) by { FirstPieceReads(glob, rest); }
    ReadCons(t, piece, rest, pieces, []);
    assert [piece] + pieces == Pieces(glob) + [End] by { PiecesSplit(glob); }
  }

  /** Whatever the bytes, the emitted text is a complete regular expression of exactly their pieces. */
  lemma EmittedTextReads(text: string)
    ensures ReadAll(EmitText(text)) == Some([Begin] + Pieces(text) + [End])
  {
    BodyReads(text);
    EmitBodyFresh(text);
    var rest := EmitBody(text) + "$";
    assert EmitText(text) == "^" + rest;
    assert EmitText(text)[1..] == rest;
    ReadCons(EmitText(text), Begin, rest, Pieces(text) + [End], []);
    assert [Begin] + (Pieces(text) + [End]) == [Begin] + Pieces(text) + [End];
  }

  // ---------------------------------------------------------------- the two meanings agree

  lemma {:induction false} StarDot(s: string, i: nat, j: nat)
    requires i <= j <= |s|
    ensures Matches(Star(Dot), s, i, j) <==> OneLine(s[i..j])
    decreases j - i
  {
    if i < j {
      StarDot(s, i + 1, j);
      assert s[i..j] == [s[i]] + s[i + 1..j];
      assert Matches(Dot, s, i, i + 1) <==> s[i] != '\n';
      if Matches(Star(Dot), s, i, j) {
        var k := FirstRound(Dot, s, i, j);
      }
    }
  }

  lemma {:induction false} StarNotSlash(s: string, i: nat, j: nat)
    requires i <= j <= |s|
    ensures Matches(Star(NotIn('/')), s, i, j) <==> NoSlash(s[i..j])
    decreases j - i
  {
    if i < j {
      StarNotSlash(s, i + 1, j);
      assert s[i..j] == [s[i]] + s[i + 1..j];
      assert Matches(NotIn('/'), s, i, i + 1) <==> s[i] != '/';
      if Matches(Star(NotIn('/')), s, i, j) {
        var k := FirstRound(NotIn('/'), s, i, j);
      }
    }
  }

  /** The directory group: any one-line text and then a slash. */
  lemma DirsGroup(s: string, i: nat, j: nat)
    requires i <= j <= |s|
    ensures Matches(Group([Star(Dot), Lit('/')]), s, i, j) <==> i < j && s[j - 1] == '/' && OneLine(s[i..j - 1])
  {
    var parts := [Star(Dot), Lit('/')];
    assert parts[1..] == [Lit('/')] && parts[1..][1..] == [];
    forall k | i <= k <= j
      ensures MatchesSeq(parts[1..], s, k, j) <==> j == k + 1 && s[k] == '/'
    {
      assert MatchesSeq([], s, j, j);
    }
    if i < j {
      StarDot(s, i, j - 1);
    }
    if MatchesSeq(parts, s, i, j) {
      var k := FirstPart(parts, s, i, j);
    }
  }

  /** What the first wildcard or character of a glob may take from the front of a path. */
  ghost predicate Takes(glob: string, path: string, k: nat, runs: string -> bool)
    requires glob != [] && k <= |path|
  {
    if Width(glob) == 3 then k == 0 || (path[k - 1] == '/' && runs(path[..k - 1]))
    else if Width(glob) == 2 then runs(path[..k])
    else if glob[0] == '*' then NoSlash(path[..k])
    else if glob[0] == '?' then k == 1 && path[0] != '/'
    else k == 1 && path[0] == glob[0]
  }

  /** A glob denotes a path by what its first piece takes and what the others denote. */
  lemma DenotesFirst(glob: string, path: string, runs: string -> bool) returns (k: nat)
    requires glob != []
    ensures DenotesRuns(glob, path, runs)
            ==> k <= |path| && Takes(glob, path, k, runs) && DenotesRuns(glob[Width(glob)..], path[k..], runs)
  {
    k := 0;
    if DenotesRuns(glob, path, runs) {
      if Width(glob) == 3 {
        if DenotesRuns(glob[3..], path, runs) {
          assert path[0..] == path;
        } else {
          k :| 0 < k <= |path| && path[k - 1] == '/' && runs(path[..k - 1]) && DenotesRuns(glob[3..], path[k..], runs);
        }
      } else if Width(glob) == 2 {
        k :| 0 <= k <= |path| && runs(path[..k]) && DenotesRuns(glob[2..], path[k..], runs);
      } else if glob[0] == '*' {
        k :| 0 <= k <= |path| && NoSlash(path[..k]) && DenotesRuns(glob[1..], path[k..], runs);
      } else {
        k := 1;
      }
    }
  }

  lemma FirstDenotes(glob: string, path: string, runs: string -> bool, k: nat)
    requires glob != [] && k <= |path|
    requires Takes(glob, path, k, runs) && DenotesRuns(glob[Width(glob)..], path[k..], runs)
    ensures DenotesRuns(glob, path, runs)
  {
    if k == 0 { assert path[0..] == path; }
  }

  /** The first piece matches exactly what the first wildcard or character may take. */
  lemma FirstPieceTakes(glob: string, s: string, i: nat, k: nat)
    requires glob != [] && i <= k <= |s|
    ensures Matches(Pieces(glob)[0], s, i, k) <==> Takes(glob, s[i..], k - i, OneLine)
  {
    assert s[i..][..k - i] == s[i..k];
    if Width(glob) == 3 {
      DirsGroup(s, i, k);
      if i < k { assert s[i..][..k - i - 1] == s[i..k - 1]; }
    } else if Width(glob) == 2 {
      StarDot(s, i, k);
    } else if glob[0] == '*' {
      StarNotSlash(s, i, k);
    }
  }

  lemma {:induction false} PiecesMatched(glob: string, s: string, i: nat, j: nat)
    requires i <= j <= |s|
    requires MatchesSeq(Pieces(glob) + [End], s, i, j)
    ensures j == |s| && DenotesRuns(glob, s[i..], OneLine)
    decreases |glob|
  {
    var parts := Pieces(glob) + [End];
    var k := FirstPart(parts, s, i, j);
    if glob == [] {
      assert parts == [End];
    } else {
      var left := glob[Width(glob)..];
      assert parts[0] == Pieces(glob)[0] && parts[1..] == Pieces(left) + [End] by { PiecesSplit(glob); }
      PiecesMatched(left, s, k, j);
      FirstPieceTakes(glob, s, i, k);
      assert s[i..][k - i..] == s[k..];
      FirstDenotes(glob, s[i..], OneLine, k - i);
    }
  }

  lemma {:induction false} DenotedMatches(glob: string, s: string, i: nat)
    requires i <= |s| && DenotesRuns(glob, s[i..], OneLine)
    ensures MatchesSeq(Pieces(glob) + [End], s, i, |s|)
    decreases |glob|
  {
    var parts := Pieces(glob) + [End];
    if glob == [] {
      assert parts == [End] && parts[1..] == [] && s[i..] == [];
      JoinParts(parts, s, i, i, |s|);
    } else {
      hide Matches, MatchesSeq, DenotesRuns, Takes, Width;
      var left := glob[Width(glob)..];
      assert parts[0] == Pieces(glob)[0] && parts[1..] == Pieces(left) + [End] by { PiecesSplit(glob); }
      var k := DenotesFirst(glob, s[i..], OneLine);
      assert s[i..][k..] == s[i + k..];
      DenotedMatches(left, s, i + k);
      FirstPieceTakes(glob, s, i, i + k);
      JoinParts(parts, s, i, i + k, |s|);
    }
  }

  lemma JoinParts(parts: seq<Re>, s: string, i: nat, k: nat, j: nat)
    requires i <= k <= j <= |s| && parts != []
    requires Matches(parts[0], s, i, k) && MatchesSeq(parts[1..], s, k, j)
    ensures MatchesSeq(parts, s, i, j)
  {
  }

  lemma CompiledTextMeaning(text: string, path: string)
    ensures ReadAll(EmitText(text)).Some?
    ensures Search(ReadAll(EmitText(text)).value, path) <==> DenotesRuns(text, path, OneLine)
  {
    EmittedTextReads(text);
    var body := Pieces(text) + [End];
    var all := ReadAll(EmitText(text)).value;
    assert all[0] == Begin && all[1..] == body && path[0..] == path;
    if Search(all, path) {
      var i: nat, j: nat :| i <= j <= |path| && MatchesSeq(all, path, i, j);
      var k := FirstPart(all, path, i, j);
      PiecesMatched(text, path, 0, j);
    }
    if DenotesRuns(text, path, OneLine) {
      DenotedMatches(text, path, 0);
      JoinParts(all, path, 0, 0, |path|);
    }
  }

  /**
   The translation preserves the meaning of the bytes.  For every glob and every
   path, the emitted text reads back as a complete expression, and searching for it
   accepts exactly what the bytes of the glob denote, taken as characters, when
   double stars stand for text without line feeds.
   */
  lemma CompiledGlobMeaning(glob: string, path: string)
    ensures ReadAll(Emit(glob)).Some?
    ensures Search(ReadAll(Emit(glob)).value, path) <==> DenotesRuns(Utf8(glob), path, OneLine)
  {
    CompiledTextMeaning(Utf8(glob), path);
  }

  /** On a path without line feeds the restriction on double stars says nothing. */
  lemma {:induction false} OneLineRuns(glob: string, path: string)
    requires OneLine(path)
    ensures DenotesRuns(glob, path, OneLine) <==> Denotes(glob, path)
    decreases |glob|
  {
    var any := (s: string) => true;
    if glob != [] {
      var k := DenotesFirst(glob, path, OneLine);
      if DenotesRuns(glob, path, OneLine) {
        OneLineRuns(glob[Width(glob)..], path[k..]);
        FirstDenotes(glob, path, any, k);
      }
      var j := DenotesFirst(glob, path, any);
      if DenotesRuns(glob, path, any) {
        OneLineRuns(glob[Width(glob)..], path[j..]);
        FirstDenotes(glob, path, OneLine, j);
      }
    }
  }

  /** So for every ASCII glob and every path without line feeds, compiled and documented meaning coincide. */
  lemma CompiledGlobIsDocumentedGlob(glob: string, path: string)
    requires OneLine(path) && Ascii(glob)
    ensures ReadAll(Emit(glob)).Some?
    ensures Search(ReadAll(Emit(glob)).value, path) <==> Denotes(glob, path)
  {
    CompiledGlobMeaning(glob, path);
    AsciiKept(glob);
    OneLineRuns(glob, path);
  }

  /** A line feed in the path is where they part: a lone double star denotes it and does not accept it. */
  lemma LineFeedEscapesDoubleStar()
    ensures Denotes("**", "\n") && !Search(ReadAll(Emit("**")).value, "\n")
  {
    var glob, path := "**", "\n";
    CompiledGlobMeaning(glob, path);
    AsciiKept(glob);
    assert glob[2..] == [] && path[1..] == [] && path[..1] == path;
    assert DenotesRuns(glob[2..], path[1..], s => true);
    assert path[0..] == path;
    forall k | 0 <= k <= |path|
      ensures !(OneLine(path[..k]) && DenotesRuns(glob[2..], path[k..], OneLine))
    {
      if k == 1 { assert '\n' in path[..k]; }
    }
  }

  /** Appending is associative; the translation's running text is a prefix of the whole. */
  lemma EmitStep(done: string, glob: string, out: string)
    requires glob != []
    requires EmitBody(glob) == out + EmitBody(glob[Width(glob)..])
    ensures done + EmitBody(glob) == (done + out) + EmitBody(glob[Width(glob)..])
  {
  }

  /** A blank glob is refused; any other is translated byte by byte in one pass and read back. */
  method CompileGlob(glob: string) returns (r: Result<seq<Re>, string>)
    ensures r.Err? <==> Blank(glob)
    ensures r.Ok? ==> ReadAll(Emit(glob)) == Some(r.value)
  {
    if Blank(glob) {
      return Err("empty file glob");
    }
    var pattern := Utf8(glob);
    var b := "^";
    var i := 0;
    while i < |pattern|
      invariant 0 <= i <= |pattern|
      invariant b + EmitBody(pattern[i..]) == "^" + EmitBody(pattern)
    {
      var ch := pattern[i];
      var out;
      ghost var left := pattern[i..];
      if ch == '*' {
        if i + 1 < |pattern| && pattern[i + 1] == '*' {
          if i + 2 < |pattern| && pattern[i + 2] == '/' {
            out := "(?:.*/)?";
            i := i + 2;
          } else {
            out := ".*";
            i := i + 1;
          }
        } else {
          out := "[^/]*";
        }
      } else if ch == '?' {
        out := "[^/]";
      } else {
        out := QuoteMeta(ch);
      }
      EmitStep(b, left, out);
      b := b + out;
      i := i + 1;
      assert left[Width(left)..] == pattern[i..];
    }
    b := b + "$";
    assert pattern[i..] == [] && b == Emit(glob);
    EmittedTextReads(pattern);
    r := Ok(ReadAll(b).value);
  }

  // ---------------------------------------------------------------- matching files

  /** Backslashes of a file name are read as slashes. */
  function Slashed(file: string): (r: string)
    ensures |r| == |file|
    ensures forall i :: 0 <= i < |file| ==> r[i] == if file[i] == '\\' then '/' else file[i]
  {
    seq(|file|, i requires 0 <= i < |file| => if file[i] == '\\' then '/' else file[i])
  }

  /** Some file is accepted by some pattern. */
  predicate AnyFile(patterns: seq<seq<Re>>, files: seq<string>) {
    exists f, p :: 0 <= f < |files| && 0 <= p < |patterns| && Search(patterns[p], Slashed(files[f]))
  }

  method MatchesAnyFile(patterns: seq<seq<Re>>, files: seq<string>) returns (found: bool)
    ensures found == AnyFile(patterns, files)
  {
    for f := 0 to |files|
      invariant forall g, p :: 0 <= g < f && 0 <= p < |patterns| ==> !Search(patterns[p], Slashed(files[g]))
    {
      var normalized := Slashed(files[f]);
      for p := 0 to |patterns|
        invariant forall q :: 0 <= q < p ==> !Search(patterns[q], normalized)
      {
        if Search(patterns[p], normalized) {
          return true;
        }
      }
    }
    return false;
  }

  // ---------------------------------------------------------------- spelt out

  /** The reader's operators: each by itself stands for no character, and behind a backslash for itself. */
  lemma OperatorsSpelled(c: char)
    ensures Meta(c) <==> c == '\\' || c == '.' || c == '+' || c == '*' || c == '?' || c == '(' || c == ')' || c == '|'
                         || c == '[' || c == ']' || c == '{' || c == '}' || c == '^' || c == '$'
    ensures ReadAtom(['\\', c]) == if c in "\\.+*?()|[]{}^$" then Some((Lit(c), [])) else None
    ensures ReadAtom([c]) == match c
              case '.' => Some((Dot, []))
              case '^' => Some((Begin, []))
              case '$' => Some((End, []))
              case _ => if c in "\\+*?()|[]{}" then None else Some((Lit(c), []))
  {
    assert ['\\', c][2..] == [] && [c][1..] == [];
  }

  /** The number that the bytes of one character in UTF-8 stand for. */
  function Decoded(u: seq<int>): int {
    if |u| == 1 then u[0]
    else if |u| == 2 then (u[0] - 192) * 64 + (u[1] - 128)
    else if |u| == 3 then (u[0] - 224) * 4096 + (u[1] - 128) * 64 + (u[2] - 128)
    else if |u| == 4 then (u[0] - 240) * 262144 + (u[1] - 128) * 4096 + (u[2] - 128) * 64 + (u[3] - 128)
    else -1
  }

  function Numbers(s: string): (n: seq<int>)
    ensures |n| == |s| && forall i :: 0 <= i < |s| ==> n[i] == s[i] as int
  {
    seq(|s|, i requires 0 <= i < |s| => s[i] as int)
  }

  lemma TwoSixes(n: nat)
    ensures n == n / 4096 * 4096 + n / 64 % 64 * 64 + n % 64
  {
    var q := n / 64;
    assert n == q * 64 + n % 64 && q == q / 64 * 64 + q % 64 && q / 64 == n / 4096;
  }

  lemma ThreeSixes(n: nat)
    ensures n == n / 262144 * 262144 + n / 4096 % 64 * 4096 + n / 64 % 64 * 64 + n % 64
  {
    TwoSixes(n);
    var q := n / 4096;
    assert q == q / 64 * 64 + q % 64 && q / 64 == n / 262144;
  }

  /** The bytes of a character decode to it, in as many bytes as its number needs, lead byte first. */
  lemma CodeUnitsDecode(c: char)
    ensures var u, n := Numbers(CodeUnits(c)), c as int;
            && |u| == (if n < 128 then 1 else if n < 2048 then 2 else if n < 65536 then 3 else 4) && Decoded(u) == n
            && (|u| == 2 ==> 192 <= u[0] < 224) && (|u| == 3 ==> 224 <= u[0] < 240) && (|u| == 4 ==> 240 <= u[0] < 248)
            && forall i :: 0 < i < |u| ==> 128 <= u[i] < 192
  {
    TwoSixes(c as int);
    ThreeSixes(c as int);
  }
}
