/**
 * The handful of Python/JavaScript string operations the modelled code relies on:
 * whitespace stripping, lower-casing, prefix and substring tests, splitting on one
 * character and joining, and decimal rendering of naturals.
 */
module Strings {

  /** The characters `str.strip()` removes (the ASCII and Latin-1 ones; wider Unicode white space is
      not modelled). */
  predicate IsSpace(c: char) {
    c == ' ' || c == '\t' || c == '\n' || c == '\r' || c == '\U{B}' || c == '\U{C}'
    || ('\U{1C}' <= c <= '\U{1F}') || c == '\U{85}' || c == '\U{A0}'
  }

  /** The characters JavaScript's `String.prototype.trim` removes: white space and line
      terminators. */
  predicate IsJsSpace(c: char) {
    c == ' ' || c == '\t' || c == '\n' || c == '\r' || c == '\U{B}' || c == '\U{C}'
    || c == '\U{A0}' || c == '\U{1680}' || ('\U{2000}' <= c <= '\U{200A}') || c == '\U{2028}'
    || c == '\U{2029}' || c == '\U{202F}' || c == '\U{205F}' || c == '\U{3000}' || c == '\U{FEFF}'
  }

  /** `s.trimStart()`. */
  function JsTrimStart(s: string): (r: string)
    decreases |s|
    ensures |r| <= |s| && r == s[|s| - |r|..]
    ensures r == [] || !IsJsSpace(r[0])
    ensures forall i :: 0 <= i < |s| - |r| ==> IsJsSpace(s[i])
  {
    if s == [] || !IsJsSpace(s[0]) then s else JsTrimStart(s[1..])
  }

  /** `s.trimEnd()`. */
  function JsTrimEnd(s: string): (r: string)
    decreases |s|
    ensures |r| <= |s| && r == s[..|r|]
    ensures r == [] || !IsJsSpace(r[|r| - 1])
    ensures forall i :: |r| <= i < |s| ==> IsJsSpace(s[i])
  {
    if s == [] || !IsJsSpace(s[|s| - 1]) then s else JsTrimEnd(s[..|s| - 1])
  }

  /** `s.trim()`: empty exactly when every character is white space. */
  function JsTrim(s: string): (r: string)
    ensures |r| <= |s|
    ensures r == [] || (!IsJsSpace(r[0]) && !IsJsSpace(r[|r| - 1]))
    ensures r == [] <==> forall i :: 0 <= i < |s| ==> IsJsSpace(s[i])
  {
    var t := JsTrimStart(s);
    var r := JsTrimEnd(t);
    assert r != [] ==> r[0] == t[0];
    r
  }

  /** `!s.trim()`: the string is empty or all whitespace. */
  predicate JsBlank(s: string)
    decreases |s|
  {
    s == [] || (IsJsSpace(s[0]) && JsBlank(s[1..]))
  }

  lemma {:induction false} JsBlankSpaces(s: string)
    decreases |s|
    ensures JsBlank(s) <==> forall i :: 0 <= i < |s| ==> IsJsSpace(s[i])
  {
    if s != [] {
      JsBlankSpaces(s[1..]);
      assert forall i :: 1 <= i < |s| ==> s[i] == s[1..][i - 1];
    }
  }

  /** Trimming only removes characters: whatever is left comes from `s`. */
  lemma JsTrimChars(s: string)
    ensures forall c :: c in JsTrim(s) ==> c in s
  {
    var t := JsTrimStart(s);
    assert JsTrim(s) == JsTrimEnd(t);
    assert forall c :: c in JsTrimEnd(t) ==> c in t;
  }

  /** A string is blank exactly when trimming leaves nothing. */
  lemma JsBlankTrim(s: string)
    ensures JsBlank(s) <==> JsTrim(s) == []
  {
    JsBlankSpaces(s);
  }


  predicate IsDigit(c: char) {
    '0' <= c <= '9'
  }

  /** `str.isdigit()` on one character, over Latin-1: the ASCII digits and the
      superscripts one, two and three (digits of other scripts are not modelled). */
  predicate IsPyDigit(c: char) {
    IsDigit(c) || c == '\U{B9}' || c == '\U{B2}' || c == '\U{B3}'
  }

  /** Neither end of `s` is a whitespace character. */
  predicate IsStripped(s: string) {
    s == [] || (!IsSpace(s[0]) && !IsSpace(s[|s| - 1]))
  }

  predicate AllSpace(s: string) {
    forall i :: 0 <= i < |s| ==> IsSpace(s[i])
  }

  /** Number of leading whitespace characters. */
  function LeadingSpaces(s: string): (n: nat)
    ensures n <= |s|
    ensures forall i :: 0 <= i < n ==> IsSpace(s[i])
    ensures n < |s| ==> !IsSpace(s[n])
  {
    if s == [] || !IsSpace(s[0]) then 0 else 1 + LeadingSpaces(s[1..])
  }

  /** Number of trailing whitespace characters. */
  function TrailingSpaces(s: string): (n: nat)
    ensures n <= |s|
    ensures forall i :: |s| - n <= i < |s| ==> IsSpace(s[i])
    ensures n < |s| ==> !IsSpace(s[|s| - 1 - n])
  {
    if s == [] || !IsSpace(s[|s| - 1]) then 0 else 1 + TrailingSpaces(s[..|s| - 1])
  }

  function LStrip(s: string): string {
    s[LeadingSpaces(s)..]
  }

  /** Python's `s.strip()`: `s` without its leading and trailing whitespace. */
  function Strip(s: string): (r: string)
    ensures |r| <= |s|
    ensures IsStripped(r)
    ensures r == [] <==> AllSpace(s)
    ensures LeadingSpaces(s) + |r| <= |s| && r == s[LeadingSpaces(s)..LeadingSpaces(s) + |r|]
  {
    var t := LStrip(s);
    var r := t[..|t| - TrailingSpaces(t)];
    assert r != [] ==> r[0] == s[LeadingSpaces(s)];
    assert AllSpace(s) ==> LeadingSpaces(s) == |s|;
    r
  }

  /** Python's `s.startswith(p)` / JavaScript's `s.startsWith(p)`. */
  predicate StartsWith(s: string, p: string) {
    |p| <= |s| && s[..|p|] == p
  }

  predicate EndsWith(s: string, p: string) {
    |p| <= |s| && s[|s| - |p|..] == p
  }

  /** Python's `sub in s` for strings: `sub` occurs somewhere in `s`. */
  predicate Contains(s: string, sub: string)
    decreases |s|
  {
    StartsWith(s, sub) || (s != [] && Contains(s[1..], sub))
  }

  /** Position of the first occurrence of `sub` in `s`, if any (Python's `s.find(sub)`). */
  function Find(s: string, sub: string): (r: int)
    decreases |s|
    ensures r >= -1
    ensures r == -1 <==> !Contains(s, sub)
    ensures r >= 0 ==> OccursAt(s, sub, r)
    ensures r >= 0 ==> forall i :: 0 <= i < r ==> !OccursAt(s, sub, i)
  {
    if StartsWith(s, sub) then 0
    else if s == [] then -1
    else
      var k := Find(s[1..], sub);
      if k == -1 then -1
      else
        ShiftOccurs(s, sub);
        k + 1
  }

  /** JavaScript's `s.replace(target, replacement)` with a string pattern: only the
      first occurrence is replaced. */
  function ReplaceFirst(s: string, target: string, replacement: string): (r: string)
    ensures !Contains(s, target) ==> r == s
    ensures StartsWith(s, target) ==> r == replacement + s[|target|..]
  {
    var k := Find(s, target);
    if k < 0 then s else s[..k] + replacement + s[k + |target|..]
  }

  /** An occurrence in `s[1..]` is an occurrence one place further in `s`. */
  lemma ShiftOccurs(s: string, sub: string)
    requires s != []
    ensures forall i :: 1 <= i ==> (OccursAt(s, sub, i) <==> OccursAt(s[1..], sub, i - 1))
  {
    forall i | 1 <= i
      ensures OccursAt(s, sub, i) <==> OccursAt(s[1..], sub, i - 1)
    {
      if i <= |s| - |sub| {
        SliceOfSlice(s, 1, |s|, i - 1, i - 1 + |sub|);
      }
    }
  }

  /** Python's `s.count(sub)` for a non-empty `sub`: non-overlapping occurrences, left to right. */
  function CountOccurrences(s: string, sub: string): nat
    requires sub != []
    decreases |s|
  {
    var k := Find(s, sub);
    if k == -1 then 0 else 1 + CountOccurrences(s[k + |sub|..], sub)
  }

  function LowerChar(c: char): char {
    if 'A' <= c <= 'Z' || ('À' <= c <= 'Þ' && c != '×') then
      (c as int + 32) as char
    else c
  }

  /** The upper case of one character that stays one character: the ASCII and Latin-1
      small letters, `ÿ` (to `Ÿ`), `µ` (to the Greek capital mu), and the dotless `ı` and
      long `ſ`, which become the ASCII `I` and `S`. */
  function UpperChar(c: char): char {
    if 'a' <= c <= 'z' || ('à' <= c <= 'þ' && c != '÷') then
      (c as int - 32) as char
    else if c == 'ÿ' then '\U{178}'
    else if c == 'µ' then '\U{39C}'
    else if c == '\U{131}' then 'I'
    else if c == '\U{17F}' then 'S'
    else c
  }

  /** The full upper case of one character: `ß` and the Latin ligatures `ﬀ` to `ﬆ` grow
      into two or three capitals; every other character maps as `UpperChar` says. */
  function UpperOf(c: char): (r: string)
    ensures 1 <= |r| <= 3
  {
    if c == 'ß' then "SS"
    else if c == '\U{FB00}' then "FF"
    else if c == '\U{FB01}' then "FI"
    else if c == '\U{FB02}' then "FL"
    else if c == '\U{FB03}' then "FFI"
    else if c == '\U{FB04}' then "FFL"
    else if c == '\U{FB05}' || c == '\U{FB06}' then "ST"
    else [UpperChar(c)]
  }

  /** No character of `s` is changed by lower-casing. */
  predicate IsLowerCase(s: string) {
    forall i :: 0 <= i < |s| ==> LowerChar(s[i]) == s[i]
  }

  /** Python's `s[:n]` / JavaScript's `s.slice(0, n)` for a non-negative `n`. */
  function Take<T>(s: seq<T>, n: nat): (r: seq<T>)
    ensures |r| == if n < |s| then n else |s|
    ensures r == s[..|r|]
  {
    if n < |s| then s[..n] else s
  }

  /** Python's `s.lstrip(chars)`: drops the leading characters that belong to `chars`. */
  function LStripChars(s: string, chars: set<char>): (r: string)
    decreases |s|
    ensures |r| <= |s| && r == s[|s| - |r|..]
    ensures r != [] ==> r[0] !in chars
    ensures forall i :: 0 <= i < |s| - |r| ==> s[i] in chars
  {
    if s != [] && s[0] in chars then LStripChars(s[1..], chars) else s
  }

  /** `str.lower()` / `toLowerCase()` restricted to ASCII and Latin-1 letters. */
  function Lower(s: string): (r: string)
    ensures |r| == |s|
    ensures IsLowerCase(r)
    ensures IsLowerCase(s) ==> r == s
  {
    seq(|s|, i requires 0 <= i < |s| => LowerChar(s[i]))
  }

  /** `str.upper()` / `toUpperCase()`, character by character as `UpperOf` says: never
      shorter than `s`, and of the same length when `s` holds no character that grows. */
  function Upper(s: string): (r: string)
    decreases |s|
    ensures |s| <= |r| <= 3 * |s|
    ensures (forall i :: 0 <= i < |s| ==> |UpperOf(s[i])| == 1) ==> |r| == |s|
  {
    if s == [] then [] else UpperOf(s[0]) + Upper(s[1..])
  }

  /** Upper-casing works piece by piece: the upper case of a concatenation is the
      concatenation of the upper cases. */
  lemma {:induction false} UpperAppend(a: string, b: string)
    decreases |a|
    ensures Upper(a + b) == Upper(a) + Upper(b)
  {
    if a == [] {
      assert a + b == b;
    } else {
      assert (a + b)[0] == a[0];
      assert (a + b)[1..] == a[1..] + b;
      UpperAppend(a[1..], b);
    }
  }

  /** `sep.join(parts)`. */
  function Join(parts: seq<string>, sep: string): string
    decreases |parts|
  {
    if parts == [] then ""
    else if |parts| == 1 then parts[0]
    else parts[0] + sep + Join(parts[1..], sep)
  }

  /** Python's `s.split(sep)` for a one-character separator: never empty, and a string
      with k separators gives k + 1 pieces. */
  function Split(s: string, sep: char): (r: seq<string>)
    decreases |s|
    ensures |r| >= 1
    ensures forall i :: 0 <= i < |r| ==> sep !in r[i]
  {
    if s == [] then [""]
    else
      var rest := Split(s[1..], sep);
      if s[0] == sep then [""] + rest else [[s[0]] + rest[0]] + rest[1..]
  }

  /** `s.split(/[…]/)` with a character class: cuts at every character `isSep` accepts. */
  function SplitWhere(s: string, isSep: char -> bool): (r: seq<string>)
    decreases |s|
    ensures |r| >= 1
    ensures forall i, j :: 0 <= i < |r| && 0 <= j < |r[i]| ==> !isSep(r[i][j])
  {
    if s == [] then [""]
    else
      var rest := SplitWhere(s[1..], isSep);
      if isSep(s[0]) then [""] + rest else [[s[0]] + rest[0]] + rest[1..]
  }

  /** Python's `s.split(sep)` for a non-empty separator string: cut at each occurrence,
      left to right, without overlaps. */
  function SplitOn(s: string, sep: string): (r: seq<string>)
    requires sep != []
    decreases |s|
    ensures |r| >= 1
    ensures !Contains(s, sep) ==> r == [s]
    ensures Contains(s, sep) ==> |r| >= 2
    ensures |r[0]| <= |s| && r[0] == s[..|r[0]|]
  {
    var k := Find(s, sep);
    if k == -1 then [s] else [s[..k]] + SplitOn(s[k + |sep|..], sep)
  }

  /** A slice of a slice is a slice of the original sequence. */
  lemma SliceOfSlice<T>(s: seq<T>, a: nat, b: nat, i: nat, j: nat)
    requires a <= b <= |s| && i <= j <= b - a
    ensures s[a..b][i..j] == s[a + i..a + j]
  {
    var x := s[a..b][i..j];
    var y := s[a + i..a + j];
    forall k | 0 <= k < |x| ensures x[k] == y[k] {
      assert x[k] == s[a..b][i + k] == s[a + i + k];
    }
  }

  /** `sub` starts at position `i` of `s`. */
  predicate OccursAt(s: string, sub: string, i: int) {
    0 <= i <= |s| - |sub| && s[i..i + |sub|] == sub
  }

  /** `sub` occurs in `s` exactly when it starts at some position of `s`. */
  lemma {:induction false} ContainsAt(s: string, sub: string)
    decreases |s|
    ensures Contains(s, sub) <==> exists i :: OccursAt(s, sub, i)
  {
    if StartsWith(s, sub) {
      assert OccursAt(s, sub, 0);
    } else if s == [] {
    } else {
      ContainsAt(s[1..], sub);
      if Contains(s[1..], sub) {
        var i :| OccursAt(s[1..], sub, i);
        assert s[1..][i..i + |sub|] == s[i + 1..i + 1 + |sub|];
        assert OccursAt(s, sub, i + 1);
      }
      if i :| OccursAt(s, sub, i) {
        assert i != 0 by { assert s[..|sub|] == s[0..|sub|]; }
        assert s[1..][i - 1..i - 1 + |sub|] == s[i..i + |sub|];
        assert OccursAt(s[1..], sub, i - 1);
      }
    }
  }

  /** A string that does not contain `sub` has no slice that contains it. */
  lemma NotContainsSlice(s: string, sub: string, a: nat, b: nat)
    requires a <= b <= |s|
    requires !Contains(s, sub)
    ensures !Contains(s[a..b], sub)
  {
    ContainsAt(s, sub);
    ContainsAt(s[a..b], sub);
    forall i | OccursAt(s[a..b], sub, i)
      ensures OccursAt(s, sub, a + i)
    {
      SliceOfSlice(s, a, b, i, i + |sub|);
    }
  }

  /** Stripping a string that does not contain `sub` cannot make it appear. */
  lemma StripKeepsAbsence(s: string, sub: string)
    requires !Contains(s, sub)
    ensures !Contains(Strip(s), sub)
  {
    var lead := LeadingSpaces(s);
    NotContainsSlice(s, sub, lead, lead + |Strip(s)|);
  }

  /** An occurrence inside a prefix is an occurrence in the whole string, and an
      occurrence at `i` is a prefix of `s[i..]`. */
  lemma OccursInPrefix(s: string, sub: string, k: nat, i: nat)
    requires k <= |s| && i <= k
    ensures OccursAt(s[..k], sub, i) ==> OccursAt(s, sub, i)
    ensures OccursAt(s, sub, i) <==> StartsWith(s[i..], sub)
  {
    if i + |sub| <= k {
      SliceOfSlice(s, 0, k, i, i + |sub|);
    }
    if i + |sub| <= |s| {
      SliceOfSlice(s, i, |s|, 0, |sub|);
    }
  }

  /** The first piece of a split never contains the separator. */
  lemma SplitOnFirstPiece(s: string, sep: string)
    requires sep != []
    ensures !Contains(SplitOn(s, sep)[0], sep)
  {
    var k := Find(s, sep);
    if k != -1 {
      ContainsAt(s[..k], sep);
      assert SplitOn(s, sep)[0] == s[..k];
      forall i | 0 <= i < k
        ensures !OccursAt(s[..k], sep, i)
      {
        OccursInPrefix(s, sep, k, i);
      }
    }
  }

  /** Splitting and joining back with the same separator gives the string back. */
  lemma {:induction false} SplitJoin(s: string, sep: char)
    ensures Join(Split(s, sep), [sep]) == s
    decreases |s|
  {
    if s != [] {
      var rest := Split(s[1..], sep);
      SplitJoin(s[1..], sep);
      if s[0] == sep {
        assert Split(s, sep) == [""] + rest;
      } else {
        var r := Split(s, sep);
        assert r == [[s[0]] + rest[0]] + rest[1..];
        if |rest| == 1 {
          assert Join(r, [sep]) == [s[0]] + rest[0];
        } else {
          assert r[1..] == rest[1..];
          assert Join(rest, [sep]) == rest[0] + [sep] + Join(rest[1..], [sep]);
        }
      }
    }
  }

  /** A string without the separator is split into itself. */
  lemma {:induction false} SplitNoSeparator(s: string, sep: char)
    requires sep !in s
    decreases |s|
    ensures Split(s, sep) == [s]
  {
    if s != [] {
      SplitNoSeparator(s[1..], sep);
      assert [s[0]] + s[1..] == s;
    }
  }

  /** Splitting `a + sep + b`, where `a` has no separator, gives `a` then the pieces of `b`. */
  lemma {:induction false} SplitAfterPiece(a: string, sep: char, b: string)
    requires sep !in a
    decreases |a|
    ensures Split(a + [sep] + b, sep) == [a] + Split(b, sep)
  {
    var s := a + [sep] + b;
    if a == [] {
      assert s[1..] == b;
    } else {
      assert s[1..] == a[1..] + [sep] + b;
      SplitAfterPiece(a[1..], sep, b);
      assert [a[0]] + a[1..] == a;
    }
  }

  /** Joining pieces that do not contain the separator and splitting again gives the
      pieces back. */
  lemma {:induction false} JoinSplit(parts: seq<string>, sep: char)
    requires |parts| >= 1
    requires forall i :: 0 <= i < |parts| ==> sep !in parts[i]
    decreases |parts|
    ensures Split(Join(parts, [sep]), sep) == parts
  {
    if |parts| == 1 {
      SplitNoSeparator(parts[0], sep);
    } else {
      JoinSplit(parts[1..], sep);
      SplitAfterPiece(parts[0], sep, Join(parts[1..], [sep]));
      assert [parts[0]] + parts[1..] == parts;
    }
  }

  /** Python's `s.replace(target, replacement)` for a non-empty `target`: every occurrence, left
      to right and without overlaps, is replaced. */
  function Replace(s: string, target: string, replacement: string): (r: string)
    requires target != []
    ensures !Contains(s, target) ==> r == s
  {
    Join(SplitOn(s, target), replacement)
  }

  /** After an occurrence at `k`, the split has one more piece than the split of what follows. */
  lemma SplitOnLength(s: string, sep: string, k: int)
    requires sep != [] && k == Find(s, sep) && k >= 0
    ensures |SplitOn(s, sep)| == 1 + |SplitOn(s[k + |sep|..], sep)|
  {
  }

  /** After an occurrence at `k`, one more occurrence is counted than in what follows. */
  lemma CountStep(s: string, sep: string, k: int)
    requires sep != [] && k == Find(s, sep) && k >= 0
    ensures CountOccurrences(s, sep) == 1 + CountOccurrences(s[k + |sep|..], sep)
  {
  }

  /** Splitting cuts at exactly the occurrences `str.count` counts. */
  lemma {:induction false} SplitOnCount(s: string, sep: string)
    requires sep != []
    decreases |s|
    ensures |SplitOn(s, sep)| == CountOccurrences(s, sep) + 1
  {
    var k := Find(s, sep);
    if k == -1 {
      assert SplitOn(s, sep) == [s];
    } else {
      var rest := s[k + |sep|..];
      SplitOnCount(rest, sep);
      SplitOnLength(s, sep, k);
      CountStep(s, sep, k);
    }
  }

  /** Decimal digits of a natural number, as `str(n)` renders it. */
  function NatToString(n: nat): (r: string)
    decreases n
    ensures |r| >= 1
    ensures forall i :: 0 <= i < |r| ==> IsDigit(r[i])
  {
    var d := ['0' + (n % 10) as char];
    if n < 10 then d else NatToString(n / 10) + d
  }

  /** `"0" * (width - len(s)) + s`: left-pads with zeros (`str.zfill`, `padStart(width, '0')`). */
  function ZeroPad(s: string, width: nat): (r: string)
    ensures |r| == if |s| < width then width else |s|
    ensures EndsWith(r, s)
  {
    if |s| < width then seq(width - |s|, _ => '0') + s else s
  }

  /** The number a string of decimal digits denotes (Python's `int(s)` on digits). */
  function DecimalValue(s: string): nat
    requires forall i :: 0 <= i < |s| ==> IsDigit(s[i])
    decreases |s|
  {
    if s == [] then 0
    else
      assert IsDigit(s[|s| - 1]);
      10 * DecimalValue(s[..|s| - 1]) + (s[|s| - 1] as int - '0' as int)
  }

  /** Reading back the decimal rendering of `n` gives `n`. */
  lemma {:induction false} NatToStringValue(n: nat)
    decreases n
    ensures DecimalValue(NatToString(n)) == n
  {
    var r := NatToString(n);
    if n >= 10 {
      NatToStringValue(n / 10);
      assert r[..|r| - 1] == NatToString(n / 10);
    }
  }

  /** Leading zeros do not change the value of a decimal string. */
  lemma {:induction false} ZeroPadValue(s: string, width: nat)
    requires forall i :: 0 <= i < |s| ==> IsDigit(s[i])
    decreases |s|
    ensures forall i :: 0 <= i < |ZeroPad(s, width)| ==> IsDigit(ZeroPad(s, width)[i])
    ensures DecimalValue(ZeroPad(s, width)) == DecimalValue(s)
  {
    var p := ZeroPad(s, width);
    if |s| < width {
      var zeros := seq(width - |s|, _ => '0');
      assert p == zeros + s;
      LeadingZerosValue(zeros, s);
    }
  }

  lemma {:induction false} LeadingZerosValue(zeros: string, s: string)
    requires forall i :: 0 <= i < |zeros| ==> zeros[i] == '0'
    requires forall i :: 0 <= i < |s| ==> IsDigit(s[i])
    decreases |s|
    ensures forall i :: 0 <= i < |zeros + s| ==> IsDigit((zeros + s)[i])
    ensures DecimalValue(zeros + s) == DecimalValue(s)
  {
    if s == [] {
      assert zeros + s == zeros;
      AllZerosValue(zeros);
    } else {
      var init := s[..|s| - 1];
      LeadingZerosValue(zeros, init);
      assert (zeros + s)[..|zeros + s| - 1] == zeros + init;
    }
  }

  lemma {:induction false} AllZerosValue(zeros: string)
    requires forall i :: 0 <= i < |zeros| ==> zeros[i] == '0'
    decreases |zeros|
    ensures DecimalValue(zeros) == 0
  {
    if zeros != [] {
      AllZerosValue(zeros[..|zeros| - 1]);
    }
  }

  /** Zero-padded decimal renderings of distinct naturals differ. */
  lemma PaddedNumbersDiffer(m: nat, n: nat, width: nat)
    requires m != n
    ensures ZeroPad(NatToString(m), width) != ZeroPad(NatToString(n), width)
  {
    NatToStringValue(m);
    NatToStringValue(n);
    ZeroPadValue(NatToString(m), width);
    ZeroPadValue(NatToString(n), width);
  }
}
