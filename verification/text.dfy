/**
 * The pieces of Python's `str` behaviour that the log tools rely on:
 * substring tests (`p in s`), `splitlines()`, `"\n".join(...)`,
 * `strip()` / `strip(chars)`, `lower()` and `str(n)` for naturals.
 */
module Text {

  /** `p in s` on strings: `p` occurs as a contiguous slice of `s`. */
  predicate Contains(s: string, p: string) {
    exists i | 0 <= i <= |s| - |p| :: OccursAt(s, p, i)
  }

  /** `p` occurs in `s` starting at index `i`. */
  predicate OccursAt(s: string, p: string, i: int) {
    0 <= i && i + |p| <= |s| && s[i..i + |p|] == p
  }

  predicate StartsWith(s: string, p: string) {
    |p| <= |s| && s[..|p|] == p
  }

  predicate EndsWith(s: string, p: string) {
    |p| <= |s| && s[|s| - |p|..] == p
  }

  /** A slice of `s` that equals `t` contains every slice of `t`. */
  lemma ContainsThroughSlice(s: string, k: nat, t: string, i: nat, p: string)
    requires k + |t| <= |s| && s[k..k + |t|] == t
    requires i + |p| <= |t| && t[i..i + |p|] == p
    ensures Contains(s, p)
  {
    forall m | 0 <= m < |p|
      ensures s[k + i + m] == p[m]
    {
      assert t[i + m] == s[k..k + |t|][i + m];
    }
    assert OccursAt(s, p, k + i);
  }

  // ---------------------------------------------------------------------
  // str.splitlines()
  // ---------------------------------------------------------------------

  /** The characters at which Python's `str.splitlines()` breaks a line. */
  predicate IsLineBoundary(c: char) {
    c == '\n' || c == '\r' || c == '\U{0B}' || c == '\U{0C}'
    || c == '\U{1C}' || c == '\U{1D}' || c == '\U{1E}'
    || c == '\U{85}' || c == '\U{2028}' || c == '\U{2029}'
  }

  predicate NoBoundary(s: string) {
    forall i :: 0 <= i < |s| ==> !IsLineBoundary(s[i])
  }

  /** Index of the first line boundary of `s`, or `|s|` when there is none. */
  function FirstBoundary(s: string): (k: nat)
    ensures k <= |s|
    ensures k < |s| ==> IsLineBoundary(s[k])
    ensures NoBoundary(s[..k])
  {
    if s == [] || IsLineBoundary(s[0]) then 0
    else
      var k := 1 + FirstBoundary(s[1..]);
      assert s[..k] == [s[0]] + s[1..][..k - 1];
      k
  }

  /**
   * `s.splitlines()`: the text between boundaries, where `"\r\n"` is one
   * boundary, and a boundary at the very end opens no further (empty) line.
   */
  function SplitLines(s: string): (lines: seq<string>)
    ensures forall j :: 0 <= j < |lines| ==> NoBoundary(lines[j])
    ensures s == [] <==> lines == []
    decreases |s|
  {
    if s == [] then []
    else
      var k := FirstBoundary(s);
      if k == |s| then [s]
      else
        var next := if s[k] == '\r' && k + 1 < |s| && s[k + 1] == '\n' then k + 2 else k + 1;
        [s[..k]] + SplitLines(s[next..])
  }

  /** `sep.join(xs)`. */
  function Join(xs: seq<string>, sep: string): string {
    if |xs| == 0 then ""
    else if |xs| == 1 then xs[0]
    else xs[0] + sep + Join(xs[1..], sep)
  }

  lemma {:induction false} JoinEndsWithLast(xs: seq<string>, sep: string)
    requires |xs| > 0
    ensures EndsWith(Join(xs, sep), xs[|xs| - 1])
  {
    if |xs| > 1 {
      JoinEndsWithLast(xs[1..], sep);
      var j := Join(xs[1..], sep);
      var whole := xs[0] + sep + j;
      assert whole[|whole| - |xs[|xs| - 1]|..] == j[|j| - |xs[|xs| - 1]|..];
    }
  }

  lemma NoBoundaryFirstBoundary(s: string)
    requires NoBoundary(s)
    ensures FirstBoundary(s) == |s|
  {
  }

  /** Splitting a boundary-free line followed by `"\n"` and more text. */
  lemma SplitLinesCons(x: string, rest: string)
    requires NoBoundary(x) && rest != ""
    ensures SplitLines(x + "\n" + rest) == [x] + SplitLines(rest)
  {
    var s := x + "\n" + rest;
    var k := FirstBoundary(s);
    assert s[|x|] == '\n';
    assert forall i :: 0 <= i < |x| ==> s[i] == x[i];
    assert k == |x|;
    assert s[..k] == x;
    assert s[k + 1..] == rest;
  }

  /**
   * Joining boundary-free lines with `"\n"` and splitting the result gives
   * the lines back, provided the last line is not empty (an empty last line
   * leaves only a trailing `"\n"`, which `splitlines()` does not report).
   */
  lemma {:induction false} SplitJoin(xs: seq<string>)
    requires forall j :: 0 <= j < |xs| ==> NoBoundary(xs[j])
    requires |xs| > 0 ==> xs[|xs| - 1] != ""
    ensures SplitLines(Join(xs, "\n")) == xs
  {
    if |xs| == 1 {
      NoBoundaryFirstBoundary(xs[0]);
    } else if |xs| > 1 {
      var tail := xs[1..];
      assert forall j :: 0 <= j < |tail| ==> tail[j] == xs[j + 1];
      SplitJoin(tail);
      SplitJoinStep(xs[0], tail);
      assert xs == [xs[0]] + tail;
    }
  }

  lemma SplitJoinStep(x: string, tail: seq<string>)
    requires NoBoundary(x) && |tail| > 0 && tail[|tail| - 1] != ""
    requires SplitLines(Join(tail, "\n")) == tail
    ensures SplitLines(Join([x] + tail, "\n")) == [x] + tail
  {
    var rest := Join(tail, "\n");
    assert ([x] + tail)[1..] == tail;
    assert Join([x] + tail, "\n") == x + "\n" + rest;
    JoinEndsWithLast(tail, "\n");
    SplitLinesCons(x, rest);
  }

  // ---------------------------------------------------------------------
  // str.strip()
  // ---------------------------------------------------------------------

  /** Python's `str.isspace()` for one character: what `strip()` removes. */
  predicate IsSpace(c: char) {
    ('\U{09}' <= c <= '\U{0D}') || ('\U{1C}' <= c <= '\U{20}')
    || c == '\U{85}' || c == '\U{A0}' || c == '\U{1680}'
    || ('\U{2000}' <= c <= '\U{200A}') || c == '\U{2028}' || c == '\U{2029}'
    || c == '\U{202F}' || c == '\U{205F}' || c == '\U{3000}'
  }

  /** Length of the run of dropped characters at the front of `s`. */
  function LeadingRun(s: string, drop: char -> bool): (i: nat)
    ensures i <= |s|
    ensures forall k :: 0 <= k < i ==> drop(s[k])
    ensures i < |s| ==> !drop(s[i])
  {
    if s == [] || !drop(s[0]) then 0
    else 1 + LeadingRun(s[1..], drop)
  }

  /** Start of the run of dropped characters at the back of `s`. */
  function TrailingRun(s: string, drop: char -> bool): (j: nat)
    ensures j <= |s|
    ensures forall k :: j <= k < |s| ==> drop(s[k])
    ensures 0 < j ==> !drop(s[j - 1])
  {
    if s == [] || !drop(s[|s| - 1]) then |s|
    else TrailingRun(s[..|s| - 1], drop)
  }

  /**
   * `s.strip(chars)` where `drop` says which characters are in `chars`
   * (`s.strip()` when `drop` is `IsSpace`): the slice of `s` that remains
   * once dropped characters are removed from both ends.
   */
  function Strip(s: string, drop: char -> bool): (r: string)
    ensures r == [] || (!drop(r[0]) && !drop(r[|r| - 1]))
    ensures r == [] <==> forall k :: 0 <= k < |s| ==> drop(s[k])
    ensures exists i | 0 <= i <= |s| - |r| :: StrippedAt(s, r, drop, i)
  {
    var i := LeadingRun(s, drop);
    if i == |s| then
      assert StrippedAt(s, "", drop, 0);
      ""
    else
      var j := TrailingRun(s, drop);
      assert i < j;
      assert StrippedAt(s, s[i..j], drop, i);
      s[i..j]
  }

  /**
   * `r` occurs in `s` at `i`, and every character of `s` before or after
   * that occurrence is dropped.
   */
  predicate StrippedAt(s: string, r: string, drop: char -> bool, i: int) {
    && OccursAt(s, r, i)
    && (forall k :: 0 <= k < i ==> drop(s[k]))
    && (forall k :: i + |r| <= k < |s| ==> drop(s[k]))
  }

  /** `s[:n]`. */
  function Take<T>(s: seq<T>, n: nat): (r: seq<T>)
    ensures |r| == if |s| <= n then |s| else n
    ensures r == s[..|r|]
  {
    if |s| <= n then s else s[..n]
  }

  // ---------------------------------------------------------------------
  // str.lower() and str(n)
  // ---------------------------------------------------------------------

  predicate IsUpperAscii(c: char) {
    'A' <= c <= 'Z'
  }

  function LowerChar(c: char): char {
    if IsUpperAscii(c) then (c as int + 32) as char else c
  }

  /**
   * `s.lower()` on the ASCII letters: each capital becomes its small
   * letter, every other character is kept, and no capital remains.
   */
  function Lower(s: string): (r: string)
    ensures |r| == |s|
    ensures forall i :: 0 <= i < |s| && IsUpperAscii(s[i]) ==> r[i] as int == s[i] as int + 32
    ensures forall i :: 0 <= i < |s| && !IsUpperAscii(s[i]) ==> r[i] == s[i]
    ensures forall i :: 0 <= i < |r| ==> !IsUpperAscii(r[i])
  {
    seq(|s|, i requires 0 <= i < |s| => LowerChar(s[i]))
  }

  predicate IsDigit(c: char) {
    '0' <= c <= '9'
  }

  function DigitValue(c: char): nat
    requires IsDigit(c)
  {
    c as int - '0' as int
  }

  /** The character of decimal digit `d`. */
  function DigitChar(d: nat): (c: char)
    requires d < 10
    ensures IsDigit(c) && DigitValue(c) == d
  {
    ('0' as int + d) as char
  }

  /** `str(n)` for a natural number: its decimal digits, without leading zeros. */
  function NatToString(n: nat): string
    decreases n
  {
    if n < 10 then [DigitChar(n)]
    else NatToString(n / 10) + [DigitChar(n % 10)]
  }

  /** The number a string of decimal digits denotes. */
  function DecimalValue(s: string): nat
    requires forall i :: 0 <= i < |s| ==> IsDigit(s[i])
  {
    if s == [] then 0 else 10 * DecimalValue(s[..|s| - 1]) + DigitValue(s[|s| - 1])
  }

  /** `str(n)` is a non-empty run of digits without a leading zero that denotes `n`. */
  lemma {:induction false} NatToStringDecimal(n: nat)
    ensures var s := NatToString(n);
      && |s| > 0 && (forall i :: 0 <= i < |s| ==> IsDigit(s[i]))
      && (|s| > 1 ==> s[0] != '0')
      && DecimalValue(s) == n
    decreases n
  {
    if n >= 10 {
      NatToStringDecimal(n / 10);
      var s := NatToString(n);
      assert s[..|s| - 1] == NatToString(n / 10);
    }
  }
}
