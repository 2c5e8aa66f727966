/** The functions of Go's `strings`, `strconv` and `encoding/hex` packages the repository
    reads text with, and what reading back a written text gives. A character stands for
    one byte wherever a length or a position matters. */
module Text {
  import opened Names

  // ----- separators -----

  /** `strings.Split` with a one-character separator */
  function Split(s: string, sep: char): (parts: seq<string>)
    ensures |parts| > 0
  {
    if s == "" then [""]
    else if s[0] == sep then [""] + Split(s[1..], sep)
    else
      var rest := Split(s[1..], sep);
      [[s[0]] + rest[0]] + rest[1..]
  }

  /** `strings.Join` */
  function Join(parts: seq<string>, sep: string): string {
    if parts == [] then ""
    else if |parts| == 1 then parts[0]
    else parts[0] + sep + Join(parts[1..], sep)
  }

  lemma {:induction false} JoinSplit(s: string, sep: char)
    ensures Join(Split(s, sep), [sep]) == s
  {
    if s != "" {
      JoinSplit(s[1..], sep);
      var rest := Split(s[1..], sep);
      if s[0] == sep {
        assert ([""] + rest)[1..] == rest;
      } else {
        assert ([[s[0]] + rest[0]] + rest[1..])[1..] == rest[1..];
      }
    }
  }

  lemma {:induction false} SplitConcat(a: string, b: string, sep: char)
    ensures Split(a + [sep] + b, sep) == Split(a, sep) + Split(b, sep)
  {
    var s := a + [sep] + b;
    if a == "" {
      assert s[0] == sep && s[1..] == b;
    } else {
      assert s[0] == a[0] && s[1..] == a[1..] + [sep] + b;
      SplitConcat(a[1..], b, sep);
    }
  }

  lemma {:induction false} SplitOnePart(s: string, sep: char)
    requires sep !in s
    ensures Split(s, sep) == [s]
  {
    if s != "" {
      SplitOnePart(s[1..], sep);
      assert s == [s[0]] + s[1..];
    }
  }

  lemma {:induction false} NoSeparatorInside(s: string, sep: char, i: nat)
    requires i < |Split(s, sep)|
    ensures sep !in Split(s, sep)[i]
  {
    if s != "" {
      if s[0] == sep {
        if i > 0 {
          NoSeparatorInside(s[1..], sep, i - 1);
        }
      } else {
        NoSeparatorInside(s[1..], sep, i);
      }
    }
  }

  /** Parts without the separator are read back as they were joined. */
  lemma {:induction false} SplitJoin(parts: seq<string>, sep: char)
    requires parts != [] && forall i :: 0 <= i < |parts| ==> sep !in parts[i]
    ensures Split(Join(parts, [sep]), sep) == parts
  {
    SplitOnePart(parts[0], sep);
    if |parts| > 1 {
      SplitJoin(parts[1..], sep);
      SplitConcat(parts[0], Join(parts[1..], [sep]), sep);
      assert parts == [parts[0]] + parts[1..];
    } else {
      assert parts == [parts[0]];
    }
  }

  lemma {:induction false} JoinConcat(a: seq<string>, b: seq<string>, sep: string)
    requires a != [] && b != []
    ensures Join(a + b, sep) == Join(a, sep) + sep + Join(b, sep)
  {
    if |a| == 1 {
      assert (a + b)[1..] == b;
    } else {
      assert (a + b)[1..] == a[1..] + b;
      JoinConcat(a[1..], b, sep);
    }
  }

  // ----- fields -----

  function Gap(s: string): (n: nat)
    ensures n <= |s|
  {
    if s != "" && IsSpace(s[0]) then 1 + Gap(s[1..]) else 0
  }

  function Word(s: string): (n: nat)
    ensures n <= |s|
  {
    if s != "" && !IsSpace(s[0]) then 1 + Word(s[1..]) else 0
  }

  /** `strings.Fields` */
  function Fields(s: string): (fields: seq<string>)
    decreases |s|
  {
    var t := s[Gap(s)..];
    if Word(t) == 0 then [] else [t[..Word(t)]] + Fields(t[Word(t)..])
  }

  predicate IsWord(s: string) {
    s != "" && forall i :: 0 <= i < |s| ==> !IsSpace(s[i])
  }

  lemma {:induction false} GapBefore(before: string, s: string)
    requires IsGap(before) && s != "" && !IsSpace(s[0])
    ensures Gap(before + s) == |before|
  {
    if before == "" {
      assert before + s == s;
    } else {
      assert (before + s)[1..] == before[1..] + s;
      GapBefore(before[1..], s);
    }
  }

  lemma {:induction false} WordBefore(w: string, rest: string)
    requires (forall i :: 0 <= i < |w| ==> !IsSpace(w[i])) && (rest == "" || IsSpace(rest[0]))
    ensures Word(w + rest) == |w|
  {
    if w == "" {
      assert w + rest == rest;
    } else {
      assert (w + rest)[1..] == w[1..] + rest;
      WordBefore(w[1..], rest);
    }
  }

  /** A written field is read back, whatever white space stands around it. */
  lemma FieldsOfWord(before: string, w: string, rest: string)
    requires IsGap(before) && IsWord(w) && (rest == "" || IsSpace(rest[0]))
    ensures Fields(before + (w + rest)) == [w] + Fields(rest)
  {
    hide IsSpace;
    var s := before + (w + rest);
    GapBefore(before, w + rest);
    assert s[Gap(s)..] == w + rest;
    WordBefore(w, rest);
    assert (w + rest)[..|w|] == w && (w + rest)[|w|..] == rest;
  }

  lemma {:induction false} GapIsNoField(s: string)
    requires IsGap(s)
    ensures Gap(s) == |s| && Fields(s) == []
  {
    if s != "" {
      GapIsNoField(s[1..]);
    }
  }

  /** A written row: each word behind its gap. */
  function Written(gaps: seq<string>, words: seq<string>): string
    requires |gaps| == |words|
  {
    if words == [] then "" else gaps[0] + (words[0] + Written(gaps[1..], words[1..]))
  }

  /** The gaps separate: white space only, and some between any two words. */
  predicate Separates(gaps: seq<string>) {
    && (forall i :: 0 <= i < |gaps| ==> IsGap(gaps[i]))
    && (forall i :: 1 <= i < |gaps| ==> gaps[i] != "")
  }

  /** The words of a written row are its fields. */
  lemma {:induction false} FieldsOfWritten(gaps: seq<string>, words: seq<string>)
    requires |gaps| == |words| && Separates(gaps) && forall i :: 0 <= i < |words| ==> IsWord(words[i])
    ensures Fields(Written(gaps, words)) == words
  {
    if words == [] {
      GapIsNoField("");
    } else {
      var rest := Written(gaps[1..], words[1..]);
      FieldsOfWritten(gaps[1..], words[1..]);
      if |words| > 1 {
        assert rest[0] == gaps[1][0];
      }
      hide IsSpace, Fields;
      FieldsOfWord(gaps[0], words[0], rest);
      assert words == [words[0]] + words[1..];
    }
  }

  // ----- hexadecimal -----

  function HexDigit(c: char): (v: Option<nat>)
    ensures v.Some? ==> v.value < 16
  {
    if '0' <= c <= '9' then Some(c as int - '0' as int)
    else if 'a' <= c <= 'f' then Some(c as int - 'a' as int + 10)
    else if 'A' <= c <= 'F' then Some(c as int - 'A' as int + 10)
    else None
  }

  function HexValue(s: string): Option<nat> {
    if s == "" then Some(0)
    else
      var high, low := HexValue(s[..|s| - 1]), HexDigit(s[|s| - 1]);
      if high.None? || low.None? then None else Some(16 * high.value + low.value)
  }

  const INT32_LIMIT := 0x8000_0000

  /** `strconv.ParseInt(s, 16, 32)`: an optional sign, at least one digit, 32 bits. */
  function ParseHex32(s: string): (v: Option<int>)
    ensures v.Some? ==> -INT32_LIMIT <= v.value < INT32_LIMIT
  {
    var signed := s != "" && (s[0] == '-' || s[0] == '+');
    var digits := if signed then s[1..] else s;
    if digits == "" || HexValue(digits).None? then None
    else
      var magnitude: int := HexValue(digits).value;
      var v := if signed && s[0] == '-' then -magnitude else magnitude;
      if -INT32_LIMIT <= v < INT32_LIMIT then Some(v) else None
  }

  /** A sign is allowed, digits are required, and the value must fit in 32 bits. */
  lemma ParseHex32Is(digits: string)
    requires digits != "" && digits[0] != '-' && digits[0] != '+'
    ensures ParseHex32(digits) == ParseHex32("+" + digits)
            == if HexValue(digits).Some? && HexValue(digits).value < 0x8000_0000 then Some(HexValue(digits).value) else None
    ensures ParseHex32("-" + digits).Some? <==> HexValue(digits).Some? && HexValue(digits).value <= 0x8000_0000
    ensures ParseHex32("-" + digits).Some? ==> ParseHex32("-" + digits).value + HexValue(digits).value == 0
    ensures ParseHex32("") == ParseHex32("-") == ParseHex32("+") == None
  {
    assert ("+" + digits)[1..] == digits && ("-" + digits)[1..] == digits;
    hide HexValue;
  }

  function UpperHex(v: nat): char
    requires v < 16
  {
    if v < 10 then ('0' as int + v) as char else ('A' as int + v - 10) as char
  }

  /** C's `%0<width>X` of a value that fits */
  function PaddedHex(v: nat, width: nat): (s: string)
    ensures |s| == width
    decreases width
  {
    if width == 0 then "" else PaddedHex(v / 16, width - 1) + [UpperHex(v % 16)]
  }

  function Pow16(n: nat): nat {
    if n == 0 then 1 else 16 * Pow16(n - 1)
  }

  lemma {:induction false} PaddedHexReadBack(v: nat, width: nat)
    requires v < Pow16(width)
    ensures HexValue(PaddedHex(v, width)) == Some(v)
    ensures ':' !in PaddedHex(v, width) && '-' !in PaddedHex(v, width) && '+' !in PaddedHex(v, width)
    decreases width
  {
    if width > 0 {
      PaddedHexReadBack(v / 16, width - 1);
      var s := PaddedHex(v, width);
      assert s[..|s| - 1] == PaddedHex(v / 16, width - 1);
    }
  }

  // ----- prefixes and suffixes -----

  /** `strings.LastIndex` of one character */
  function LastIndex(s: string, c: char): (i: int)
    ensures -1 <= i < |s|
    ensures i >= 0 ==> s[i] == c
    ensures forall k :: i < k < |s| ==> s[k] != c
  {
    if s == "" then -1 else if s[|s| - 1] == c then |s| - 1 else LastIndex(s[..|s| - 1], c)
  }

  function TrimPrefix(s: string, prefix: string): string {
    if prefix <= s then s[|prefix|..] else s
  }

  predicate HasSuffix(s: string, suffix: string) {
    |suffix| <= |s| && s[|s| - |suffix|..] == suffix
  }
}
