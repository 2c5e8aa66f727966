/** How vialite compares backend names: surrounding white space and letter case
    do not matter (go/options.go, `backendLookupName`). */
module Names {

  datatype Option<+T> = None | Some(value: T)
  datatype Result<+T, +E> = Ok(ok: T) | Err(error: E)

  function Get<K(==), V>(m: map<K, V>, k: K): Option<V> {
    if k in m then Some(m[k]) else None
  }

  /** The code points Go's `unicode.IsSpace` accepts. */
  predicate IsSpace(c: char) {
    var n := c as int;
    || 9 <= n <= 13 || n == 0x20 || n == 0x85 || n == 0xA0 || n == 0x1680
    || 0x2000 <= n <= 0x200A || n == 0x2028 || n == 0x2029 || n == 0x202F
    || n == 0x205F || n == 0x3000
  }

  function TrimLeft(s: string): string {
    if s != "" && IsSpace(s[0]) then TrimLeft(s[1..]) else s
  }

  function TrimRight(s: string): string {
    if s != "" && IsSpace(s[|s| - 1]) then TrimRight(s[..|s| - 1]) else s
  }

  function TrimSpace(s: string): string {
    TrimRight(TrimLeft(s))
  }

  function LowerChar(c: char): char {
    if 'A' <= c <= 'Z' then (c as int + 32) as char else c
  }

  function Lower(s: string): string {
    seq(|s|, i requires 0 <= i < |s| => LowerChar(s[i]))
  }

  function LookupName(name: string): string {
    Lower(TrimSpace(name))
  }

  /** Neither end is white space. */
  predicate Trimmed(s: string) {
    s == "" || (!IsSpace(s[0]) && !IsSpace(s[|s| - 1]))
  }

  lemma {:induction false} TrimLeftFront(s: string)
    ensures TrimLeft(s) == "" || !IsSpace(TrimLeft(s)[0])
  {
    if s != "" && IsSpace(s[0]) {
      TrimLeftFront(s[1..]);
    }
  }

  lemma {:induction false} TrimRightEnds(s: string)
    ensures TrimRight(s) == "" || !IsSpace(TrimRight(s)[|TrimRight(s)| - 1])
    ensures TrimRight(s) != "" ==> s != "" && TrimRight(s)[0] == s[0]
  {
    if s != "" && IsSpace(s[|s| - 1]) {
      TrimRightEnds(s[..|s| - 1]);
    }
  }

  lemma TrimSpaceTrims(s: string)
    ensures Trimmed(TrimSpace(s))
  {
    TrimLeftFront(s);
    TrimRightEnds(TrimLeft(s));
  }

  lemma TrimSpaceFixesTrimmed(s: string)
    requires Trimmed(s)
    ensures TrimSpace(s) == s
  {
  }

  lemma LowerKeepsTrimmed(s: string)
    requires Trimmed(s)
    ensures Trimmed(Lower(s))
  {
  }

  /** A lookup name is its own lookup name, and trimming first changes nothing. */
  lemma LookupNameIdempotent(name: string)
    ensures LookupName(LookupName(name)) == LookupName(name)
    ensures LookupName(TrimSpace(name)) == LookupName(name)
  {
    TrimSpaceTrims(name);
    var t := TrimSpace(name);
    TrimSpaceFixesTrimmed(t);
    LowerKeepsTrimmed(t);
    TrimSpaceFixesTrimmed(Lower(t));
    assert Lower(Lower(t)) == Lower(t);
  }

  // ----- what the comparison is -----

  predicate IsGap(s: string) {
    forall i :: 0 <= i < |s| ==> IsSpace(s[i])
  }

  lemma {:induction false} TrimLeftCuts(s: string)
    ensures exists before :: IsGap(before) && s == before + TrimLeft(s)
  {
    if s != "" && IsSpace(s[0]) {
      TrimLeftCuts(s[1..]);
      var before :| IsGap(before) && s[1..] == before + TrimLeft(s[1..]);
      assert s == [s[0]] + s[1..] && IsGap([s[0]] + before);
      assert s == ([s[0]] + before) + TrimLeft(s);
    } else {
      assert IsGap("") && s == "" + TrimLeft(s);
    }
  }

  lemma {:induction false} TrimRightCuts(s: string)
    ensures exists after :: IsGap(after) && s == TrimRight(s) + after
  {
    if s != "" && IsSpace(s[|s| - 1]) {
      var front, last := s[..|s| - 1], s[|s| - 1];
      TrimRightCuts(front);
      var after :| IsGap(after) && front == TrimRight(front) + after;
      assert s == front + [last] && IsGap(after + [last]);
      assert s == TrimRight(s) + (after + [last]);
    } else {
      assert IsGap("") && s == TrimRight(s) + "";
    }
  }

  /** Trimming only cuts white space off the two ends, and all of it. */
  lemma TrimSpaceCuts(s: string)
    ensures Trimmed(TrimSpace(s))
    ensures exists before, after :: IsGap(before) && IsGap(after) && s == before + TrimSpace(s) + after
  {
    TrimSpaceTrims(s);
    TrimLeftCuts(s);
    TrimRightCuts(TrimLeft(s));
    var before :| IsGap(before) && s == before + TrimLeft(s);
    var after :| IsGap(after) && TrimLeft(s) == TrimSpace(s) + after;
    assert s == before + TrimSpace(s) + after;
  }

  lemma {:induction false} TrimLeftPadded(before: string, s: string)
    requires IsGap(before)
    ensures TrimLeft(before + s) == TrimLeft(s)
  {
    if before == "" {
      assert before + s == s;
    } else {
      assert (before + s)[1..] == before[1..] + s;
      TrimLeftPadded(before[1..], s);
    }
  }

  lemma {:induction false} TrimRightPadded(s: string, after: string)
    requires IsGap(after)
    ensures TrimRight(s + after) == TrimRight(s)
  {
    if after == "" {
      assert s + after == s;
    } else {
      assert (s + after)[..|s + after| - 1] == s + after[..|after| - 1];
      TrimRightPadded(s, after[..|after| - 1]);
    }
  }

  lemma {:induction false} TrimLeftAll(s: string)
    requires IsGap(s)
    ensures TrimLeft(s) == ""
  {
    if s != "" {
      TrimLeftAll(s[1..]);
    }
  }

  lemma {:induction false} TrimLeftBefore(s: string, after: string)
    requires !IsGap(s)
    ensures TrimLeft(s + after) == TrimLeft(s) + after
  {
    if s == "" {
    } else if IsSpace(s[0]) {
      assert (s + after)[1..] == s[1..] + after;
      assert !IsGap(s[1..]);
      TrimLeftBefore(s[1..], after);
    }
  }

  /** Padding a name with white space at either end does not change what it trims to. */
  lemma PaddingIsTrimmed(before: string, s: string, after: string)
    requires IsGap(before) && IsGap(after)
    ensures TrimSpace(before + (s + after)) == TrimSpace(s)
    ensures LookupName(before + (s + after)) == LookupName(s)
  {
    TrimLeftPadded(before, s + after);
    if IsGap(s) {
      TrimLeftAll(s + after);
      TrimLeftAll(s);
    } else {
      TrimLeftBefore(s, after);
      TrimRightPadded(TrimLeft(s), after);
    }
  }

  /** The same character, or the two cases of one ASCII letter. */
  predicate SameLetter(c: char, d: char) {
    || c == d
    || ('A' <= c <= 'Z' && d as int - 'a' as int == c as int - 'A' as int)
    || ('A' <= d <= 'Z' && c as int - 'a' as int == d as int - 'A' as int)
  }

  predicate SameLetters(a: string, b: string) {
    |a| == |b| && forall i :: 0 <= i < |a| ==> SameLetter(a[i], b[i])
  }

  lemma LowerIff(a: string, b: string)
    ensures Lower(a) == Lower(b) <==> SameLetters(a, b)
  {
    forall c, d ensures LowerChar(c) == LowerChar(d) <==> SameLetter(c, d) {
    }
    if Lower(a) == Lower(b) {
      assert |a| == |Lower(a)| == |b|;
      forall i | 0 <= i < |a| ensures SameLetter(a[i], b[i]) {
        assert Lower(a)[i] == LowerChar(a[i]) && Lower(b)[i] == LowerChar(b[i]);
      }
    }
  }

  /** Two names have one lookup name if and only if, without the white space at their ends,
      they agree letter by letter up to case. */
  lemma SameLookupIff(m: string, n: string)
    ensures LookupName(m) == LookupName(n) <==> SameLetters(TrimSpace(m), TrimSpace(n))
  {
    LowerIff(TrimSpace(m), TrimSpace(n));
  }

  /** A lookup name is in lower case, and of each letter it says which one. */
  lemma LookupNameIs(n: string)
    ensures SameLetters(LookupName(n), TrimSpace(n))
    ensures forall i :: 0 <= i < |LookupName(n)| ==> !('A' <= LookupName(n)[i] <= 'Z')
  {
  }

  /** Which characters are white space: of the ASCII ones, and of the others. */
  lemma SpacesAre(c: char)
    ensures c as int < 128 ==>
              (IsSpace(c) <==> c == ' ' || c == '\t' || c == '\n' || c == '\r' || c as int == 11 || c as int == 12)
    ensures c as int >= 128 ==>
              (IsSpace(c) <==> c as int in {0x85, 0xA0, 0x1680, 0x2000, 0x2001, 0x2002, 0x2003, 0x2004, 0x2005, 0x2006, 0x2007,
                                            0x2008, 0x2009, 0x200A, 0x2028, 0x2029, 0x202F, 0x205F, 0x3000})
  {
  }
}
