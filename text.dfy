/**
 * The few Python string built-ins the research agent relies on:
 * `str.isspace`, `str.strip`, `str.splitlines`, `str.join` and `str(n)`
 * for integers.
 */
module Text {
  import opened Seqs

  /** Python's `str.isspace` for a single character. */
  predicate IsSpace(c: char) {
    ('\t' <= c <= '\r') || ('\U{1C}' <= c <= '\U{1F}') || c == ' '
    || c == '\U{85}' || c == '\U{A0}' || c == '\U{1680}'
    || ('\U{2000}' <= c <= '\U{200A}') || c == '\U{2028}' || c == '\U{2029}'
    || c == '\U{202F}' || c == '\U{205F}' || c == '\U{3000}'
  }

  /** The characters at which Python's `str.splitlines` breaks a line. */
  predicate IsLineBreak(c: char) {
    c == '\n' || c == '\r' || c == '\U{B}' || c == '\U{C}'
    || c == '\U{1C}' || c == '\U{1D}' || c == '\U{1E}'
    || c == '\U{85}' || c == '\U{2028}' || c == '\U{2029}'
  }

  predicate NoLineBreak(s: string) {
    forall i :: 0 <= i < |s| ==> !IsLineBreak(s[i])
  }

  /** Neither end of `s` is whitespace: `s.strip() == s`. */
  predicate IsStripped(s: string) {
    s == [] || (!IsSpace(s[0]) && !IsSpace(s[|s| - 1]))
  }

  lemma AppendAssociates(a: string, b: string, c: string)
    ensures a + b + c == a + (b + c)
  {
  }

  /** `needle` occurs in `hay` starting at index `at`. */
  predicate OccursAt(needle: string, hay: string, at: nat) {
    at + |needle| <= |hay| && hay[at..at + |needle|] == needle
  }

  /** Python's `s.lstrip()`: a suffix of `s` whose removed prefix is all whitespace. */
  function TrimStart(s: string): (r: string)
    ensures |r| <= |s| && r == s[|s| - |r|..]
    ensures r == [] || !IsSpace(r[0])
    ensures forall i :: 0 <= i < |s| - |r| ==> IsSpace(s[i])
  {
    if s != [] && IsSpace(s[0]) then
      var r := TrimStart(s[1..]);
      SuffixOfSuffix(s, 1, |s| - 1 - |r|);
      r
    else s
  }

  /** Python's `s.rstrip()`: a prefix of `s` whose removed suffix is all whitespace. */
  function TrimEnd(s: string): (r: string)
    ensures |r| <= |s| && r == s[..|r|]
    ensures r == [] || !IsSpace(r[|r| - 1])
    ensures forall i :: |r| <= i < |s| ==> IsSpace(s[i])
  {
    if s != [] && IsSpace(s[|s| - 1]) then
      var r := TrimEnd(s[..|s| - 1]);
      PrefixOfPrefix(s, |r|, |s| - 1);
      r
    else s
  }

  /**
   * Python's `s.strip()`: the slice of `s` left once the whitespace at both
   * ends is removed; the result has no whitespace at either end.
   */
  function Strip(s: string): (r: string)
    ensures IsStripped(r) && |r| <= |s|
  {
    var t := TrimStart(s);
    var r := TrimEnd(t);
    TrimmedSlice(s, t, r);
    r
  }

  /** `Strip` keeps the slice of `s` that starts where `TrimStart` cut. */
  lemma StripSlice(s: string)
    ensures var r := Strip(s); var lo := |s| - |TrimStart(s)|;
      lo + |r| <= |s| && r == s[lo..lo + |r|]
  {
    var t := TrimStart(s);
    var r := TrimEnd(t);
    var lo := |s| - |t|;
    PrefixOfSuffix(s, lo, |r|);
  }

  /** What `Strip` removes is whitespace, before and after the kept slice. */
  lemma StripRemovesSpace(s: string)
    ensures var r := Strip(s); var lo := |s| - |TrimStart(s)|;
      lo + |r| <= |s|
      && (forall i :: 0 <= i < lo ==> IsSpace(s[i]))
      && (forall i :: lo + |r| <= i < |s| ==> IsSpace(s[i]))
  {
    var t := TrimStart(s);
    var r := TrimEnd(t);
    TrimmedSlice(s, t, r);
    assert Strip(s) == r;
  }

  /** A prefix, trimmed at its end, of a suffix trimmed at its start is a stripped slice. */
  lemma TrimmedSlice(s: string, t: string, r: string)
    requires |t| <= |s| && t == s[|s| - |t|..]
    requires t == [] || !IsSpace(t[0])
    requires |r| <= |t| && r == t[..|r|]
    requires r == [] || !IsSpace(r[|r| - 1])
    requires forall i :: |r| <= i < |t| ==> IsSpace(t[i])
    ensures IsStripped(r)
    ensures var lo := |s| - |t|;
      lo + |r| <= |s| && r == s[lo..lo + |r|]
      && (forall i :: lo + |r| <= i < |s| ==> IsSpace(s[i]))
  {
    var lo := |s| - |t|;
    forall i | lo + |r| <= i < |s|
      ensures IsSpace(s[i])
    {
      assert s[i] == t[i - lo];
    }
    if r != [] {
      assert r[0] == t[0];
    }
  }

  /** A slice of a piece with no line break has none. */
  lemma NoLineBreakSlice(s: string, lo: nat, hi: nat)
    requires lo <= hi <= |s| && NoLineBreak(s)
    ensures NoLineBreak(s[lo..hi])
  {
  }

  /** Stripping a piece with no line break leaves none. */
  lemma StripKeepsNoLineBreak(s: string)
    requires NoLineBreak(s)
    ensures NoLineBreak(Strip(s))
  {
    var t := TrimStart(s);
    assert t == s[|s| - |t|..|s|];
    NoLineBreakSlice(s, |s| - |t|, |s|);
    var r := TrimEnd(t);
    NoLineBreakSlice(t, 0, |r|);
    assert Strip(s) == r;
  }

  lemma {:induction false} StripOfStripped(s: string)
    requires IsStripped(s)
    ensures Strip(s) == s
  {
  }

  /**
   * The pieces of `s` between line-break characters. This is Python's
   * `s.splitlines()` up to empty pieces (an empty `s`, a trailing break and
   * the two halves of "\r\n" give an extra empty piece here).
   */
  function SplitLines(s: string): (r: seq<string>)
    ensures |r| >= 1
    ensures forall k :: 0 <= k < |r| ==> NoLineBreak(r[k])
    decreases |s|
  {
    if s == [] then [""]
    else
      var rest := SplitLines(s[1..]);
      if IsLineBreak(s[0]) then [""] + rest
      else [[s[0]] + rest[0]] + rest[1..]
  }

  /** Python's `sep.join(parts)`. */
  function Join(parts: seq<string>, sep: string): string
    decreases |parts|
  {
    if parts == [] then ""
    else if |parts| == 1 then parts[0]
    else parts[0] + sep + Join(parts[1..], sep)
  }

  /** Where `parts[k]` starts inside `Join(parts, sep)`. */
  function JoinOffset(parts: seq<string>, sep: string, k: nat): nat
    requires k < |parts|
  {
    if k == 0 then 0 else |Join(parts[..k], sep)| + |sep|
  }

  /** Joining splits at every separator: the first `k` parts, then the rest. */
  lemma {:induction false} JoinAt(parts: seq<string>, sep: string, k: nat)
    requires 0 < k < |parts|
    ensures Join(parts, sep) == Join(parts[..k], sep) + sep + Join(parts[k..], sep)
    decreases k
  {
    if k > 1 {
      JoinAt(parts[1..], sep, k - 1);
      assert parts[1..][..k - 1] == parts[1..k];
      assert parts[1..][k - 1..] == parts[k..];
      assert parts[..k][1..] == parts[1..k];
    } else {
      assert parts[1..] == parts[k..];
    }
  }

  /** Whatever occurs in a string occurs, shifted, after any prefix. */
  lemma OccursAfter(needle: string, hay: string, at: nat, pre: string)
    requires OccursAt(needle, hay, at)
    ensures OccursAt(needle, pre + hay, |pre| + at)
  {
    assert (pre + hay)[|pre| + at..|pre| + at + |needle|] == hay[at..at + |needle|];
  }

  /** What occurs in a string occurs, at the same place, in any extension of it. */
  lemma OccursInExtension(needle: string, hay: string, at: nat, more: string)
    requires OccursAt(needle, hay, at)
    ensures OccursAt(needle, hay + more, at)
  {
    assert (hay + more)[at..at + |needle|] == hay[at..at + |needle|];
  }

  lemma OccursInExtension3(needle: string, hay: string, at: nat, x: string, y: string, z: string)
    requires OccursAt(needle, hay, at)
    ensures OccursAt(needle, hay + x + y + z, at)
  {
    OccursInExtension(needle, hay, at, x);
    OccursInExtension(needle, hay + x, at, y);
    OccursInExtension(needle, hay + x + y, at, z);
  }

  /** An occurrence stays put, shifted by the prefix, when text is added on both sides. */
  lemma OccursInside(needle: string, hay: string, at: nat, pre: string, post: string)
    requires OccursAt(needle, hay, at)
    ensures OccursAt(needle, pre + hay + post, |pre| + at)
  {
    OccursAfter(needle, hay, at, pre);
    OccursInExtension(needle, pre + hay, |pre| + at, post);
  }

  /** Whatever occurs in a string occurs, at the same place, in any string it is a prefix of. */
  lemma OccursInLonger(needle: string, hay: string, at: nat, longer: string)
    requires OccursAt(needle, hay, at) && hay <= longer
    ensures OccursAt(needle, longer, at)
  {
    assert longer[at..at + |needle|] == hay[at..at + |needle|];
  }

  /** The joined string starts with the first part. */
  lemma JoinStartsWithFirst(parts: seq<string>, sep: string)
    requires parts != []
    ensures OccursAt(parts[0], Join(parts, sep), 0)
  {
    if |parts| > 1 {
      assert Join(parts, sep) == parts[0] + (sep + Join(parts[1..], sep));
    }
  }

  /** Each part appears in the joined string at its offset. */
  lemma {:induction false} JoinPartAt(parts: seq<string>, sep: string, k: nat)
    requires k < |parts|
    ensures OccursAt(parts[k], Join(parts, sep), JoinOffset(parts, sep, k))
  {
    if k == 0 {
      JoinStartsWithFirst(parts, sep);
    } else {
      JoinAt(parts, sep, k);
      JoinStartsWithFirst(parts[k..], sep);
      OccursAfter(parts[k], Join(parts[k..], sep), 0, Join(parts[..k], sep) + sep);
    }
  }

  /**
   * Every part appears in the joined string at its offset, and the parts
   * appear in their order without overlapping.
   */
  lemma {:induction false} JoinContainsPart(parts: seq<string>, sep: string, k: nat)
    requires k < |parts|
    ensures OccursAt(parts[k], Join(parts, sep), JoinOffset(parts, sep, k))
    ensures forall j :: 0 <= j < k ==>
      JoinOffset(parts, sep, j) + |parts[j]| + |sep| <= JoinOffset(parts, sep, k)
  {
    JoinPartAt(parts, sep, k);
    forall j | 0 <= j < k
      ensures JoinOffset(parts, sep, j) + |parts[j]| + |sep| <= JoinOffset(parts, sep, k)
    {
      var prefix := parts[..k];
      JoinPartAt(prefix, sep, j);
      assert prefix[j] == parts[j];
      if j > 0 {
        assert prefix[..j] == parts[..j];
      }
    }
  }

  /** A leading piece without line breaks only extends the first piece. */
  lemma {:induction false} SplitLinesPrefix(a: string, b: string)
    requires NoLineBreak(a)
    ensures SplitLines(a + b) == [a + SplitLines(b)[0]] + SplitLines(b)[1..]
    decreases |a|
  {
    if a != [] {
      assert (a + b)[1..] == a[1..] + b;
      SplitLinesPrefix(a[1..], b);
      assert [a[0]] + (a[1..] + SplitLines(b)[0]) == a + SplitLines(b)[0];
    } else {
      assert a + b == b;
      assert a + SplitLines(b)[0] == SplitLines(b)[0];
      assert [SplitLines(b)[0]] + SplitLines(b)[1..] == SplitLines(b);
    }
  }

  /** Splitting lines undoes joining with "\n" lines that hold no break. */
  lemma {:induction false} SplitLinesOfJoin(lines: seq<string>)
    requires |lines| >= 1
    requires forall k :: 0 <= k < |lines| ==> NoLineBreak(lines[k])
    ensures SplitLines(Join(lines, "\n")) == lines
    decreases |lines|
  {
    if |lines| == 1 {
      SplitLinesPrefix(lines[0], "");
      assert lines[0] + "" == lines[0];
    } else {
      var rest := Join(lines[1..], "\n");
      SplitLinesOfJoin(lines[1..]);
      assert ("\n" + rest)[1..] == rest;
      assert SplitLines("\n" + rest) == [""] + lines[1..];
      assert Join(lines, "\n") == lines[0] + ("\n" + rest);
      SplitLinesPrefix(lines[0], "\n" + rest);
      assert lines[0] + "" == lines[0];
      assert [lines[0]] + lines[1..] == lines;
    }
  }

  predicate IsDigit(c: char) {
    '0' as int <= c as int <= '9' as int
  }

  function DigitChar(d: nat): (c: char)
    requires d < 10
    ensures IsDigit(c) && c as int - '0' as int == d
  {
    "0123456789"[d]
  }

  /** The value of a string of decimal digits. */
  function DigitsValue(s: string): nat
    requires forall i :: 0 <= i < |s| ==> IsDigit(s[i])
  {
    if s == [] then 0
    else
      var last := s[|s| - 1];
      assert IsDigit(last);
      DigitsValue(s[..|s| - 1]) * 10 + (last as int - '0' as int)
  }

  /** Python's `str(n)` for a non-negative integer: decimal digits, no leading zero. */
  function NatToString(n: nat): (r: string)
    ensures |r| >= 1
    ensures forall i :: 0 <= i < |r| ==> IsDigit(r[i])
    ensures |r| > 1 ==> r[0] != '0'
    ensures n < 10 <==> |r| == 1
  {
    if n < 10 then [DigitChar(n)] else NatToString(n / 10) + [DigitChar(n % 10)]
  }

  /** Reading the digits back gives the number. */
  lemma {:induction false} NatToStringValue(n: nat)
    ensures DigitsValue(NatToString(n)) == n
  {
    var r := NatToString(n);
    if n >= 10 {
      NatToStringValue(n / 10);
      assert r[..|r| - 1] == NatToString(n / 10);
    }
  }

  /** A decimal numeral: digits, at least one, and no leading zero unless it is "0". */
  predicate Canonical(s: string) {
    |s| >= 1 && DigitsOf(s) && (|s| > 1 ==> s[0] != '0')
  }

  /** `s` is how Python writes `i`: an optional '-' and then a canonical numeral of the magnitude. */
  predicate IsDecimal(s: string, i: int) {
    if i < 0 then |s| >= 1 && s[0] == '-' && Canonical(s[1..]) && DigitsValue(s[1..]) == -i
    else Canonical(s) && DigitsValue(s) == i
  }

  /** Python's `str(i)` for any integer. */
  function IntToString(i: int): (r: string)
    ensures |r| >= 1
    ensures i < 0 <==> r[0] == '-'
    ensures IsDecimal(r, i)
  {
    if i < 0 then
      var d := NatToString(-i);
      NatToStringValue(-i);
      assert Canonical(d);
      assert ("-" + d)[1..] == d;
      "-" + d
    else
      NatToStringValue(i);
      assert Canonical(NatToString(i));
      NatToString(i)
  }

  predicate DigitsOf(s: string) {
    forall i :: 0 <= i < |s| ==> IsDigit(s[i])
  }

  /** A canonical numeral of two or more digits denotes at least 10. */
  lemma {:induction false} CanonicalAtLeastTen(s: string)
    requires Canonical(s) && |s| > 1
    ensures DigitsValue(s) >= 10
    decreases |s|
  {
    var p := s[..|s| - 1];
    assert p[0] == s[0];
    if |p| > 1 {
      CanonicalAtLeastTen(p);
    }
  }

  /** Two canonical numerals with the same value are the same string. */
  lemma {:induction false} CanonicalUnique(a: string, b: string)
    requires Canonical(a) && Canonical(b) && DigitsValue(a) == DigitsValue(b)
    ensures a == b
    decreases |a|
  {
    if |a| == 1 && |b| == 1 {
      assert a[0] as int == b[0] as int;
    } else if |a| == 1 {
      CanonicalAtLeastTen(b);
    } else if |b| == 1 {
      CanonicalAtLeastTen(a);
    } else {
      var pa, pb := a[..|a| - 1], b[..|b| - 1];
      var da, db := a[|a| - 1] as int - '0' as int, b[|b| - 1] as int - '0' as int;
      assert DigitsValue(a) == DigitsValue(pa) * 10 + da;
      assert DigitsValue(b) == DigitsValue(pb) * 10 + db;
      DigitSplit(DigitsValue(pa), da, DigitsValue(pb), db);
      assert pa[0] == a[0] && pb[0] == b[0];
      CanonicalUnique(pa, pb);
      assert a == pa + [a[|a| - 1]] && b == pb + [b[|b| - 1]];
    }
  }

  /** The last decimal digit and the rest of a number are determined by the number. */
  lemma DigitSplit(p: nat, d: int, q: nat, e: int)
    requires 0 <= d < 10 && 0 <= e < 10 && p * 10 + d == q * 10 + e
    ensures p == q && d == e
  {
  }

  /** `str(i)` is the only way to write `i` in decimal. */
  lemma {:induction false} DecimalUnique(s: string, i: int)
    requires IsDecimal(s, i)
    ensures s == IntToString(i)
  {
    var r := IntToString(i);
    if i < 0 {
      CanonicalUnique(s[1..], r[1..]);
      assert s == [s[0]] + s[1..] && r == [r[0]] + r[1..];
    } else {
      CanonicalUnique(s, r);
    }
  }
}
