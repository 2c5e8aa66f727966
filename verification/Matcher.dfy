/** The path matcher of the release guard (go/release_check_contract_test.go). Both of its
    levels, segments of a path and characters of a segment, are the same matcher, so what
    it means is proved once, for any alphabet. A character stands for one byte. */
module Matcher {
  import opened Text

  /** `many` marks the wildcard that takes any run of items, `one` says which single item
      any other pattern element takes. */
  predicate Glob<P(!new), T(!new)>(many: P -> bool, one: (P, T) -> bool, pattern: seq<P>, text: seq<T>)
    decreases |pattern|
  {
    if pattern == [] then text == []
    else if many(pattern[0]) then exists i :: 0 <= i <= |text| && Glob(many, one, pattern[1..], text[i..])
    else text != [] && one(pattern[0], text[0]) && Glob(many, one, pattern[1..], text[1..])
  }

  // ----- what a match is, without recursion -----

  /** The text can be cut into one piece for each pattern element: any piece for a
      wildcard, a single accepted item for anything else. */
  ghost predicate CutAt<P(!new), T(!new)>(many: P -> bool, one: (P, T) -> bool, pattern: seq<P>, text: seq<T>, cuts: seq<nat>) {
    && |cuts| == |pattern| + 1
    && cuts[0] == 0 && cuts[|pattern|] == |text|
    && (forall i :: 0 <= i < |cuts| ==> cuts[i] <= |text|)
    && forall i :: 0 <= i < |pattern| ==>
         if many(pattern[i]) then cuts[i] <= cuts[i + 1]
         else cuts[i + 1] == cuts[i] + 1 && one(pattern[i], text[cuts[i]])
  }

  function Shifted(rest: seq<nat>, i: nat): (cuts: seq<nat>)
    ensures |cuts| == |rest| + 1 && cuts[0] == 0
    ensures forall k :: 1 <= k < |cuts| ==> cuts[k] == rest[k - 1] + i
  {
    [0] + seq(|rest|, k requires 0 <= k < |rest| => rest[k] + i)
  }

  lemma FirstCut<P(!new), T(!new)>(many: P -> bool, one: (P, T) -> bool, pattern: seq<P>, text: seq<T>) returns (i: nat)
    requires pattern != [] && Glob(many, one, pattern, text)
    ensures i <= |text| && Glob(many, one, pattern[1..], text[i..])
    ensures many(pattern[0]) || (i == 1 && one(pattern[0], text[0]))
  {
    i := 1;
    if many(pattern[0]) {
      i :| 0 <= i <= |text| && Glob(many, one, pattern[1..], text[i..]);
    }
  }

  lemma CutFirst<P(!new), T(!new)>(many: P -> bool, one: (P, T) -> bool, pattern: seq<P>, text: seq<T>, i: nat)
    requires pattern != [] && i <= |text| && Glob(many, one, pattern[1..], text[i..])
    requires many(pattern[0]) || (i == 1 && one(pattern[0], text[0]))
    ensures Glob(many, one, pattern, text)
  {
  }

  lemma FirstPiece<P(!new), T(!new)>(many: P -> bool, one: (P, T) -> bool, pattern: seq<P>, text: seq<T>, i: nat, rest: seq<nat>)
    requires pattern != [] && i <= |text| && CutAt(many, one, pattern[1..], text[i..], rest)
    requires many(pattern[0]) || (i == 1 && one(pattern[0], text[0]))
    ensures CutAt(many, one, pattern, text, Shifted(rest, i))
  {
    var cuts := Shifted(rest, i);
    forall k | 0 <= k < |pattern|
      ensures if many(pattern[k]) then cuts[k] <= cuts[k + 1]
              else cuts[k + 1] == cuts[k] + 1 && cuts[k] < |text| && one(pattern[k], text[cuts[k]])
    {
      if k > 0 {
        assert pattern[1..][k - 1] == pattern[k] && cuts[k] == rest[k - 1] + i && cuts[k + 1] == rest[k] + i;
      } else {
        assert cuts[1] == rest[0] + i;
      }
    }
  }

  lemma {:induction false} CutsOfMatch<P(!new), T(!new)>(many: P -> bool, one: (P, T) -> bool, pattern: seq<P>, text: seq<T>)
    returns (cuts: seq<nat>)
    requires Glob(many, one, pattern, text)
    ensures CutAt(many, one, pattern, text, cuts)
    decreases |pattern|
  {
    if pattern == [] {
      cuts := [0];
    } else {
      var i := FirstCut(many, one, pattern, text);
      hide CutAt, Glob;
      var rest := CutsOfMatch(many, one, pattern[1..], text[i..]);
      cuts := Shifted(rest, i);
      FirstPiece(many, one, pattern, text, i, rest);
    }
  }

  lemma {:induction false} MatchOfCuts<P(!new), T(!new)>(many: P -> bool, one: (P, T) -> bool, pattern: seq<P>, text: seq<T>, cuts: seq<nat>)
    requires CutAt(many, one, pattern, text, cuts)
    ensures Glob(many, one, pattern, text)
    decreases |pattern|
  {
    if pattern != [] {
      var i := cuts[1];
      CutsAscend(many, one, pattern, text, cuts, 1);
      var rest := seq(|pattern|, k requires 0 <= k < |pattern| => cuts[k + 1] - i);
      MatchOfCuts(many, one, pattern[1..], text[i..], rest);
    }
  }

  lemma {:induction false} CutsAscend<P(!new), T(!new)>(many: P -> bool, one: (P, T) -> bool, pattern: seq<P>, text: seq<T>, cuts: seq<nat>, from: nat)
    requires CutAt(many, one, pattern, text, cuts) && from <= |pattern|
    ensures forall k :: from <= k <= |pattern| ==> cuts[from] <= cuts[k]
    decreases |pattern| - from
  {
    if from < |pattern| {
      CutsAscend(many, one, pattern, text, cuts, from + 1);
    }
  }

  /** The recursion decides exactly whether such a cut exists. */
  lemma MatchIsCut<P(!new), T(!new)>(many: P -> bool, one: (P, T) -> bool, pattern: seq<P>, text: seq<T>)
    ensures Glob(many, one, pattern, text) <==> exists cuts :: CutAt(many, one, pattern, text, cuts)
  {
    if Glob(many, one, pattern, text) {
      var cuts := CutsOfMatch(many, one, pattern, text);
    }
    if cuts :| CutAt(many, one, pattern, text, cuts) {
      MatchOfCuts(many, one, pattern, text, cuts);
    }
  }

  // ----- concatenated patterns -----

  ghost predicate SplitsAt<P(!new), T(!new)>(many: P -> bool, one: (P, T) -> bool, p: seq<P>, q: seq<P>, text: seq<T>, i: nat) {
    i <= |text| && Glob(many, one, p, text[..i]) && Glob(many, one, q, text[i..])
  }

  lemma {:induction false} ConcatSplits<P(!new), T(!new)>(many: P -> bool, one: (P, T) -> bool, p: seq<P>, q: seq<P>, text: seq<T>)
    returns (i: nat)
    requires Glob(many, one, p + q, text)
    ensures SplitsAt(many, one, p, q, text, i)
    decreases |p|
  {
    if p == [] {
      assert p + q == q && text[0..] == text;
      i := 0;
    } else {
      assert (p + q)[0] == p[0] && (p + q)[1..] == p[1..] + q;
      var j := FirstCut(many, one, p + q, text);
      var k := ConcatSplits(many, one, p[1..], q, text[j..]);
      i := j + k;
      assert text[j..][..k] == text[..i][j..] && text[j..][k..] == text[i..];
      hide Glob;
      CutFirst(many, one, p, text[..i], j);
    }
  }

  lemma {:induction false} ConcatJoins<P(!new), T(!new)>(many: P -> bool, one: (P, T) -> bool, p: seq<P>, q: seq<P>, text: seq<T>, i: nat)
    requires SplitsAt(many, one, p, q, text, i)
    ensures Glob(many, one, p + q, text)
    decreases |p|
  {
    if p == [] {
      assert p + q == q && text[i..] == text;
    } else {
      assert (p + q)[0] == p[0] && (p + q)[1..] == p[1..] + q;
      var j := FirstCut(many, one, p, text[..i]);
      hide Glob;
      assert text[j..][..i - j] == text[..i][j..] && text[j..][i - j..] == text[i..];
      ConcatJoins(many, one, p[1..], q, text[j..], i - j);
      CutFirst(many, one, p + q, text, j);
    }
  }

  /** A concatenated pattern matches exactly the concatenations of what its halves match. */
  lemma MatchConcat<P(!new), T(!new)>(many: P -> bool, one: (P, T) -> bool, p: seq<P>, q: seq<P>, text: seq<T>)
    ensures Glob(many, one, p + q, text) <==> exists i :: SplitsAt(many, one, p, q, text, i)
  {
    if Glob(many, one, p + q, text) {
      var i := ConcatSplits(many, one, p, q, text);
    }
    if i :| SplitsAt(many, one, p, q, text, i) {
      ConcatJoins(many, one, p, q, text, i);
    }
  }

  lemma WildcardTwiceInFront<P(!new), T(!new)>(many: P -> bool, one: (P, T) -> bool, x: P, y: P, q: seq<P>, text: seq<T>)
    requires many(x) && many(y)
    ensures Glob(many, one, [x, y] + q, text) <==> Glob(many, one, [x] + q, text)
  {
    assert ([x, y] + q)[1..] == [y] + q && ([y] + q)[1..] == q && ([x] + q)[1..] == q;
    if Glob(many, one, [x, y] + q, text) {
      var i :| 0 <= i <= |text| && Glob(many, one, [y] + q, text[i..]);
      var j :| 0 <= j <= |text[i..]| && Glob(many, one, q, text[i..][j..]);
      assert text[i..][j..] == text[i + j..];
    }
    if Glob(many, one, [x] + q, text) {
      var i :| 0 <= i <= |text| && Glob(many, one, q, text[i..]);
      assert text[i..][0..] == text[i..];
      assert Glob(many, one, [y] + q, text[i..]);
    }
  }

  /** Two wildcards side by side, anywhere in a pattern, match what one of them matches. */
  lemma WildcardsCollapse<P(!new), T(!new)>(many: P -> bool, one: (P, T) -> bool, p: seq<P>, x: P, y: P, q: seq<P>, text: seq<T>)
    requires many(x) && many(y)
    ensures Glob(many, one, p + ([x, y] + q), text) <==> Glob(many, one, p + ([x] + q), text)
  {
    MatchConcat(many, one, p, [x, y] + q, text);
    MatchConcat(many, one, p, [x] + q, text);
    forall i: nat ensures SplitsAt(many, one, p, [x, y] + q, text, i) <==> SplitsAt(many, one, p, [x] + q, text, i) {
      if i <= |text| {
        WildcardTwiceInFront(many, one, x, y, q, text[i..]);
      }
    }
  }

  // ----- the two levels -----

  predicate IsStar(c: char) {
    c == '*'
  }

  predicate TakesChar(p: char, c: char) {
    p == '?' || p == c
  }

  predicate SegmentMatches(pattern: string, segment: string) {
    Glob(IsStar, TakesChar, pattern, segment)
  }

  predicate IsDoubleStar(p: string) {
    p == "**"
  }

  predicate SegmentsMatch(pattern: seq<string>, path: seq<string>) {
    Glob(IsDoubleStar, SegmentMatches, pattern, path)
  }

  const SEPARATOR := '/'

  function Segments(path: string): seq<string> {
    Split(path, SEPARATOR)
  }

  predicate PathMatches(pattern: string, path: string) {
    SegmentsMatch(Segments(pattern), Segments(path))
  }

  // ----- the code's recursion, with its loops -----

  method MatchSegment(pattern: string, segment: string) returns (matched: bool)
    ensures matched <==> SegmentMatches(pattern, segment)
    decreases |pattern|
  {
    if pattern == "" {
      return segment == "";
    }
    match pattern[0] {
      case '*' =>
        for i := 0 to |segment| + 1
          invariant forall k :: 0 <= k < i ==> !SegmentMatches(pattern[1..], segment[k..])
        {
          var rest := MatchSegment(pattern[1..], segment[i..]);
          if rest {
            return true;
          }
        }
        return false;
      case '?' =>
        if segment == "" {
          return false;
        }
        matched := MatchSegment(pattern[1..], segment[1..]);
      case _ =>
        if segment == "" || segment[0] != pattern[0] {
          return false;
        }
        matched := MatchSegment(pattern[1..], segment[1..]);
    }
  }

  method MatchSegments(pattern: seq<string>, path: seq<string>) returns (matched: bool)
    ensures matched <==> SegmentsMatch(pattern, path)
    decreases |pattern|
  {
    if |pattern| == 0 {
      return |path| == 0;
    }
    if pattern[0] == "**" {
      for i := 0 to |path| + 1
        invariant forall k :: 0 <= k < i ==> !SegmentsMatch(pattern[1..], path[k..])
      {
        var rest := MatchSegments(pattern[1..], path[i..]);
        if rest {
          return true;
        }
      }
      return false;
    }
    if |path| == 0 {
      return false;
    }
    var first := MatchSegment(pattern[0], path[0]);
    if !first {
      return false;
    }
    matched := MatchSegments(pattern[1..], path[1..]);
  }

  method MatchPath(pattern: string, path: string) returns (matched: bool)
    ensures matched <==> PathMatches(pattern, path)
  {
    matched := MatchSegments(Segments(pattern), Segments(path));
  }

  ghost predicate Selects(patterns: seq<string>, file: string) {
    exists i :: 0 <= i < |patterns| && PathMatches(patterns[i], file)
  }

  ghost function Selected(patterns: seq<string>, files: seq<string>): seq<string> {
    if files == [] then []
    else
      var last := |files| - 1;
      Selected(patterns, files[..last]) + if Selects(patterns, files[last]) then [files[last]] else []
  }

  /** The files some pattern matches, in their order and once for each listing. */
  method MatchedFiles(patterns: seq<string>, files: seq<string>) returns (matched: seq<string>)
    ensures matched == Selected(patterns, files)
  {
    matched := [];
    for f := 0 to |files|
      invariant matched == Selected(patterns, files[..f])
    {
      assert files[..f + 1][..f] == files[..f];
      ghost var before := matched;
      var p := 0;
      while p < |patterns|
        invariant 0 <= p <= |patterns| && matched == before
        invariant forall k :: 0 <= k < p ==> !PathMatches(patterns[k], files[f])
      {
        var hit := MatchPath(patterns[p], files[f]);
        if hit {
          matched := matched + [files[f]];
          break;
        }
        p := p + 1;
      }
    }
    assert files[..|files|] == files;
  }

  /** How often a file is selected: as often as it is listed if a pattern matches it, else never. */
  lemma {:induction false} SelectedCounts(patterns: seq<string>, files: seq<string>, file: string)
    ensures multiset(Selected(patterns, files))[file] == if Selects(patterns, file) then multiset(files)[file] else 0
  {
    if files != [] {
      var last := |files| - 1;
      assert files == files[..last] + [files[last]];
      SelectedCounts(patterns, files[..last], file);
    }
  }

  // ----- path patterns as strings -----

  ghost predicate PathSplitsAt(p: seq<string>, q: seq<string>, path: seq<string>, i: nat) {
    i <= |path| && SegmentsMatch(p, path[..i]) && SegmentsMatch(q, path[i..])
  }

  lemma SegmentsConcat(p: seq<string>, q: seq<string>, path: seq<string>)
    ensures SegmentsMatch(p + q, path) <==> exists i :: PathSplitsAt(p, q, path, i)
  {
    if SegmentsMatch(p + q, path) {
      var i := ConcatSplits(IsDoubleStar, SegmentMatches, p, q, path);
      assert PathSplitsAt(p, q, path, i);
    }
    if i :| PathSplitsAt(p, q, path, i) {
      ConcatJoins(IsDoubleStar, SegmentMatches, p, q, path, i);
    }
  }

  lemma SlashConcat(p: string, q: string, path: string)
    ensures PathMatches(p + "/" + q, path) == SegmentsMatch(Segments(p) + Segments(q), Segments(path))
  {
    hide Split, SegmentsMatch;
    SplitConcat(p, q, SEPARATOR);
  }

  /** A pattern written as two patterns with a separator between them. */
  lemma PathConcat(p: string, q: string, path: string)
    ensures PathMatches(p + "/" + q, path) <==> exists i :: PathSplitsAt(Segments(p), Segments(q), Segments(path), i)
  {
    hide *;
    SlashConcat(p, q, path);
    SegmentsConcat(Segments(p), Segments(q), Segments(path));
  }

  predicate Literal(s: string) {
    '*' !in s && '?' !in s
  }

  lemma {:induction false} LiteralSegment(d: string, segment: string)
    requires Literal(d)
    ensures SegmentMatches(d, segment) <==> segment == d
    decreases |d|
  {
    if d != "" && segment != "" {
      assert d == [d[0]] + d[1..] && segment == [segment[0]] + segment[1..];
      LiteralSegment(d[1..], segment[1..]);
    }
  }

  lemma {:induction false} LiteralSegments(d: seq<string>, path: seq<string>)
    requires forall i :: 0 <= i < |d| ==> Literal(d[i])
    ensures SegmentsMatch(d, path) <==> path == d
    decreases |d|
  {
    if d != [] {
      assert d[0] != "**" by {
        assert Literal(d[0]) && '*' in "**";
      }
      if path != [] {
        LiteralSegment(d[0], path[0]);
        LiteralSegments(d[1..], path[1..]);
        assert d == [d[0]] + d[1..] && path == [path[0]] + path[1..];
      }
    }
  }

  lemma {:induction false} SplitLiteral(d: string)
    requires Literal(d)
    ensures forall i :: 0 <= i < |Segments(d)| ==> Literal(Segments(d)[i])
  {
    if d != "" {
      SplitLiteral(d[1..]);
      var rest := Segments(d[1..]);
      assert Segments(d) == if d[0] == '/' then [""] + rest else [[d[0]] + rest[0]] + rest[1..];
    }
  }

  /** A pattern without wildcards matches itself only. */
  lemma LiteralPath(d: string, path: string)
    requires Literal(d)
    ensures PathMatches(d, path) <==> path == d
  {
    SplitLiteral(d);
    LiteralSegments(Segments(d), Segments(path));
    Rejoin(d);
    Rejoin(path);
  }

  // ----- the wildcards of a segment -----

  predicate EndsWith(s: string, end: string) {
    |end| <= |s| && s[|s| - |end|..] == end
  }

  lemma LiteralSplit(d: string, rest: string, segment: string)
    requires Literal(d)
    ensures SegmentMatches(d + rest, segment) <==> d <= segment && SegmentMatches(rest, segment[|d|..])
  {
    if SegmentMatches(d + rest, segment) {
      var i := ConcatSplits(IsStar, TakesChar, d, rest, segment);
      LiteralSegment(d, segment[..i]);
    }
    if d <= segment && SegmentMatches(rest, segment[|d|..]) {
      assert segment[..|d|] == d;
      LiteralSegment(d, d);
      assert SplitsAt(IsStar, TakesChar, d, rest, segment, |d|);
      ConcatJoins(IsStar, TakesChar, d, rest, segment, |d|);
    }
  }

  /** A star between two literals takes any run of characters, the empty one too: the
      segment begins with the one, ends with the other, and they do not overlap. */
  lemma StarTakesAnyRun(d: string, e: string, segment: string)
    requires Literal(d) && Literal(e)
    ensures SegmentMatches(d + ("*" + e), segment)
            <==> |d| + |e| <= |segment| && d <= segment && EndsWith(segment, e)
  {
    LiteralSplit(d, "*" + e, segment);
    if d <= segment {
      var tail := segment[|d|..];
      assert ("*" + e)[1..] == e && ("*" + e)[0] == '*';
      forall i | 0 <= i <= |tail| ensures SegmentMatches(e, tail[i..]) <==> tail[i..] == e {
        LiteralSegment(e, tail[i..]);
      }
      assert SegmentMatches("*" + e, tail) <==> exists i :: 0 <= i <= |tail| && SegmentMatches(e, tail[i..]);
      if |e| <= |tail| {
        assert tail[|tail| - |e|..] == segment[|segment| - |e|..];
      }
    }
  }

  /** A question mark between two literals takes exactly one character, any one. */
  lemma QuestionTakesOne(d: string, e: string, segment: string)
    requires Literal(d) && Literal(e)
    ensures SegmentMatches(d + ("?" + e), segment)
            <==> |segment| == |d| + 1 + |e| && d <= segment && EndsWith(segment, e)
  {
    LiteralSplit(d, "?" + e, segment);
    if d <= segment {
      var tail := segment[|d|..];
      assert ("?" + e)[1..] == e && ("?" + e)[0] == '?';
      if tail != "" {
        LiteralSegment(e, tail[1..]);
        assert tail[1..] == segment[|d| + 1..];
      }
    }
  }

  /** A star that is a whole segment stays within it: under a literal directory it matches
      that directory's direct entries and nothing below them. */
  lemma StarStaysInSegment(d: string, path: string)
    requires Literal(d)
    ensures PathMatches(d + "/" + "*", path) <==> exists name :: '/' !in name && path == d + "/" + name
  {
    var ds, ps := Segments(d), Segments(path);
    PathConcat(d, "*", path);
    SplitOnePart("*", SEPARATOR);
    assert Segments("*") == ["*"];
    SplitLiteral(d);
    hide Segments, PathMatches, SegmentsMatch;
    forall i: nat ensures PathSplitsAt(ds, ["*"], ps, i) <==> i <= |ps| && ps[..i] == ds && |ps| == i + 1 {
      if i <= |ps| {
        LiteralSegments(ds, ps[..i]);
        OneStar(ps[i..]);
      }
    }
    EntryOf(d, path);
  }

  lemma OneStar(path: seq<string>)
    ensures SegmentsMatch(["*"], path) <==> |path| == 1
  {
    assert ["*"][1..] == [] && "*" != "**";
    if path != [] {
      assert Literal("") && "" + ("*" + "") == "*";
      StarTakesAnyRun("", "", path[0]);
      assert path[0][|path[0]|..] == "";
    }
  }

  lemma EntryOf(d: string, path: string)
    ensures (exists i: nat :: i <= |Segments(path)| && Segments(path)[..i] == Segments(d) && |Segments(path)| == i + 1)
            <==> exists name :: '/' !in name && path == d + "/" + name
  {
    if i: nat :| i <= |Segments(path)| && Segments(path)[..i] == Segments(d) && |Segments(path)| == i + 1 {
      var name := Segments(path)[i];
      assert Segments(path) == Segments(d) + [name];
      Rejoin(path);
      Rejoin(d);
      JoinConcat(Segments(d), [name], "/");
      NoSeparatorInside(path, SEPARATOR, i);
    }
    if name :| '/' !in name && path == d + "/" + name {
      SplitConcat(d, name, SEPARATOR);
      SplitOnePart(name, SEPARATOR);
      assert Segments(path) == Segments(d) + [name];
      assert Segments(path)[..|Segments(d)|] == Segments(d);
    }
  }

  lemma DoubleStarTakesAll(path: seq<string>)
    ensures SegmentsMatch(["**"], path)
  {
    assert ["**"][1..] == [] && path[|path|..] == [];
    assert SegmentsMatch([], path[|path|..]);
  }

  lemma Rejoin(path: string)
    ensures Join(Segments(path), "/") == path
  {
    JoinSplit(path, SEPARATOR);
  }

  lemma BelowDirectory(d: string, path: string)
    requires Segments(d) < Segments(path)
    ensures d + "/" <= path
  {
    var rest := Segments(path)[|Segments(d)|..];
    assert Segments(path) == Segments(d) + rest;
    Rejoin(d);
    Rejoin(path);
    hide Split, Join;
    JoinConcat(Segments(d), rest, "/");
  }

  lemma DirectoryBelow(d: string, path: string)
    requires d + "/" <= path
    ensures Segments(d) <= Segments(path)
  {
    hide Split;
    var rest := path[|d| + 1..];
    assert path == d + "/" + rest;
    SplitConcat(d, rest, SEPARATOR);
  }

  lemma SegmentPrefixIsDirectory(d: string, path: string)
    ensures Segments(d) <= Segments(path) <==> path == d || d + "/" <= path
  {
    Rejoin(d);
    Rejoin(path);
    hide *;
    if Segments(d) < Segments(path) {
      BelowDirectory(d, path);
    } else if Segments(d) <= Segments(path) {
      assert Segments(d) == Segments(path);
    }
    if d + "/" <= path {
      DirectoryBelow(d, path);
    }
  }

  // A directory followed by a double star matches the directory itself and everything
  // below it, and nothing else.
  lemma DirectoryPattern(d: string, path: string)
    requires Literal(d)
    ensures PathMatches(d + "/" + "**", path) <==> path == d || d + "/" <= path
  {
    var ds, ps := Segments(d), Segments(path);
    PathConcat(d, "**", path);
    SplitOnePart("**", SEPARATOR);
    assert Segments("**") == ["**"];
    SplitLiteral(d);
    hide Segments, PathMatches, SegmentsMatch;
    forall i: nat ensures PathSplitsAt(ds, ["**"], ps, i) <==> i <= |ps| && ps[..i] == ds {
      if i <= |ps| {
        LiteralSegments(ds, ps[..i]);
        DoubleStarTakesAll(ps[i..]);
      }
    }
    assert ds <= ps ==> ps[..|ds|] == ds;
    SegmentPrefixIsDirectory(d, path);
  }
}
