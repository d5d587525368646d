/**
 * The JavaScript `String.prototype` operations the program relies on:
 * `trim`, `toLowerCase`, `includes`, `replace` with a string pattern,
 * `split(...)` as used to cut file names, and `Number.prototype.toString`
 * on integers.
 */
module Text {
  import opened Base

  // ---------------------------------------------------------------- trim

  /**
   * ECMAScript WhiteSpace and LineTerminator code points: what `trim` removes
   * (TAB, VT, FF, SP, NBSP, ZWNBSP, the Unicode space separators, LF, CR,
   * LS and PS).
   */
  predicate IsSpace(c: char) {
    var u := c as int;
    (0x09 <= u <= 0x0D) || u == 0x20 || u == 0xA0 || u == 0x1680 ||
    (0x2000 <= u <= 0x200A) || u == 0x2028 || u == 0x2029 || u == 0x202F ||
    u == 0x205F || u == 0x3000 || u == 0xFEFF
  }

  /** Number of white-space characters at the start of `s`. */
  function LeadingSpace(s: string): (k: nat)
    ensures k <= |s|
    ensures forall i :: 0 <= i < k ==> IsSpace(s[i])
    ensures k < |s| ==> !IsSpace(s[k])
  {
    if s == [] || !IsSpace(s[0]) then 0 else 1 + LeadingSpace(s[1..])
  }

  /** Number of white-space characters at the end of `s`. */
  function TrailingSpace(s: string): (k: nat)
    ensures k <= |s|
    ensures forall i :: |s| - k <= i < |s| ==> IsSpace(s[i])
    ensures k < |s| ==> !IsSpace(s[|s| - k - 1])
  {
    if s == [] || !IsSpace(s[|s| - 1]) then 0 else 1 + TrailingSpace(s[..|s| - 1])
  }

  /** `String.prototype.trim`: `s` without leading and trailing white space. */
  function Trim(s: string): (r: string)
    ensures exists a, b ::
      && 0 <= a <= b <= |s| && r == s[a..b]
      && (forall i :: 0 <= i < a ==> IsSpace(s[i]))
      && (forall i :: b <= i < |s| ==> IsSpace(s[i]))
    ensures r == [] || (!IsSpace(r[0]) && !IsSpace(r[|r| - 1]))
  {
    var a := LeadingSpace(s);
    var rest := s[a..];
    var k := TrailingSpace(rest);
    var b := |s| - k;
    assert rest[..|rest| - k] == s[a..b];
    assert forall i :: b <= i < |s| ==> s[i] == rest[i - a];
    s[a..b]
  }

  // ------------------------------------------------------------ lowercase

  /** Case mapping of one character; only the ASCII letters are mapped. */
  function LowerChar(c: char): char {
    if 'A' <= c <= 'Z' then (c as int + 32) as char else c
  }

  /**
   * `String.prototype.toLowerCase`, restricted to ASCII letters: no upper-case
   * letter is left, each one becomes the lower-case letter at the same place
   * in the alphabet, and every other character is kept.
   */
  function ToLower(s: string): (r: string)
    ensures |r| == |s|
    ensures forall i :: 0 <= i < |r| ==> !('A' <= r[i] <= 'Z')
    ensures forall i :: 0 <= i < |s| && 'A' <= s[i] <= 'Z' ==>
      'a' <= r[i] <= 'z' && r[i] as int - 'a' as int == s[i] as int - 'A' as int
    ensures forall i :: 0 <= i < |s| && !('A' <= s[i] <= 'Z') ==> r[i] == s[i]
  {
    seq(|s|, i requires 0 <= i < |s| => LowerChar(s[i]))
  }

  // ------------------------------------------------------------ length

  /** UTF-16 code units of one character: two outside the Basic Multilingual Plane. */
  function CodeUnits(c: char): nat {
    if c as int > 0xFFFF then 2 else 1
  }

  /**
   * A JavaScript string's `length`, which counts UTF-16 code units: at least
   * one per character and at most two, and exactly one per character when
   * every character lies in the Basic Multilingual Plane.
   */
  function Utf16Length(s: string): (n: nat)
    ensures |s| <= n <= 2 * |s|
    ensures (forall k :: 0 <= k < |s| ==> s[k] as int <= 0xFFFF) ==> n == |s|
    decreases |s|
  {
    if s == [] then 0 else CodeUnits(s[0]) + Utf16Length(s[1..])
  }

  // -------------------------------------------------- search and replace

  /** `p` occurs in `s` starting at index `j`. */
  predicate OccursAt(s: string, p: string, j: int) {
    0 <= j && j + |p| <= |s| && s[j..j + |p|] == p
  }

  lemma ShiftOccurrence(s: string, p: string)
    requires s != []
    ensures forall j :: OccursAt(s[1..], p, j) ==> OccursAt(s, p, j + 1)
    ensures forall j :: 1 <= j && OccursAt(s, p, j) ==> OccursAt(s[1..], p, j - 1)
  {
    forall j | OccursAt(s[1..], p, j)
      ensures OccursAt(s, p, j + 1)
    {
      assert s[1..][j..j + |p|] == s[j + 1..j + 1 + |p|];
    }
    forall j | 1 <= j && OccursAt(s, p, j)
      ensures OccursAt(s[1..], p, j - 1)
    {
      assert s[1..][j - 1..j - 1 + |p|] == s[j..j + |p|];
    }
  }

  /** `String.prototype.indexOf`: where `p` first occurs in `s`, if anywhere. */
  function FindFirst(s: string, p: string): (r: Option<nat>)
    ensures r.Some? ==> OccursAt(s, p, r.value) && forall j :: 0 <= j < r.value ==> !OccursAt(s, p, j)
    ensures r.None? ==> forall j :: !OccursAt(s, p, j)
    decreases |s|
  {
    if |p| > |s| then None
    else if s[..|p|] == p then Some(0)
    else
      ShiftOccurrence(s, p);
      match FindFirst(s[1..], p)
      case None => None
      case Some(k) => Some(k + 1)
  }

  /** `String.prototype.includes`. */
  predicate Contains(s: string, p: string) {
    FindFirst(s, p).Some?
  }

  lemma ContainsIff(s: string, p: string)
    ensures Contains(s, p) <==> exists j :: OccursAt(s, p, j)
  {
  }

  /** A string lacking a character of `p` cannot contain `p`. */
  lemma MissingCharNotContained(s: string, p: string, c: char)
    requires c in p && c !in s
    ensures !Contains(s, p)
  {
  }

  /** `String.prototype.replace(p, q)` with a string pattern: only the first occurrence changes. */
  function ReplaceFirst(s: string, p: string, q: string): (r: string)
  {
    match FindFirst(s, p)
    case None => s
    case Some(i) => s[..i] + q + s[i + |p|..]
  }

  lemma ReplaceFirstSpec(s: string, p: string, q: string)
    ensures !Contains(s, p) ==> ReplaceFirst(s, p, q) == s
    ensures Contains(s, p) ==>
      var i := FindFirst(s, p).value;
      && ReplaceFirst(s, p, q)[..i] == s[..i]
      && ReplaceFirst(s, p, q)[i..i + |q|] == q
      && ReplaceFirst(s, p, q)[i + |q|..] == s[i + |p|..]
      && (forall j :: j < i ==> !OccursAt(s, p, j))
      && |ReplaceFirst(s, p, q)| == |s| - |p| + |q|
  {
  }

  /** A pattern at the very start is the one `replace` rewrites. */
  lemma ReplaceAtStart(p: string, q: string, rest: string)
    ensures ReplaceFirst(p + rest, p, q) == q + rest
  {
    var u := p + rest;
    assert u[..|p|] == p && u[|p|..] == rest;
  }

  /** `p` occurs in `a + p + b`. */
  lemma ContainsInside(a: string, p: string, b: string)
    ensures Contains(a + p + b, p)
  {
    var s := a + p + b;
    assert s[|a|..|a| + |p|] == p;
    assert OccursAt(s, p, |a|);
  }

  /** An occurrence in `b` is an occurrence in `a + b + c`. */
  lemma ContainsExtend(a: string, b: string, c: string, p: string)
    requires Contains(b, p)
    ensures Contains(a + b + c, p)
  {
    var j := FindFirst(b, p).value;
    var s := a + b + c;
    assert s[|a| + j..|a| + j + |p|] == b[j..j + |p|];
    assert OccursAt(s, p, |a| + j);
  }

  // ------------------------------------------------------- cut file names

  /** `String.prototype.lastIndexOf` for one character: -1 when `c` does not occur. */
  function LastIndexOf(s: string, c: char): (i: int)
    ensures -1 <= i < |s|
    ensures i >= 0 ==> s[i] == c
    ensures forall j :: i < j < |s| ==> s[j] != c
    decreases |s|
  {
    if s == [] then -1
    else if s[|s| - 1] == c then |s| - 1
    else LastIndexOf(s[..|s| - 1], c)
  }

  /** `String.prototype.indexOf` for one character, with `|s|` standing for "absent". */
  function IndexOfChar(s: string, c: char): (i: nat)
    ensures i <= |s|
    ensures i < |s| ==> s[i] == c
    ensures forall j :: 0 <= j < i ==> s[j] != c
    decreases |s|
  {
    if s == [] || s[0] == c then 0 else 1 + IndexOfChar(s[1..], c)
  }

  /** `s.split(c).pop()`: the part of `s` after its last `c` (all of `s` if there is none). */
  function AfterLast(s: string, c: char): (r: string)
    ensures c !in r
  {
    s[LastIndexOf(s, c) + 1..]
  }

  /** `s.split(c)[0]`: the part of `s` before its first `c` (all of `s` if there is none). */
  function BeforeFirst(s: string, c: char): (r: string)
    ensures c !in r
  {
    s[..IndexOfChar(s, c)]
  }

  /** `s.replace(/a/g, b)` for a one-character pattern `a`. */
  function ReplaceChar(s: string, a: char, b: char): (r: string)
    ensures |r| == |s|
    ensures forall i :: 0 <= i < |s| ==> r[i] == if s[i] == a then b else s[i]
  {
    seq(|s|, i requires 0 <= i < |s| => if s[i] == a then b else s[i])
  }

  // ------------------------------------------------------ decimal numbers

  predicate IsDigit(c: char) {
    '0' <= c <= '9'
  }

  predicate AllDigits(s: string) {
    forall i :: 0 <= i < |s| ==> IsDigit(s[i])
  }

  function DigitChar(d: nat): (c: char)
    requires d < 10
    ensures IsDigit(c)
  {
    (48 + d) as char
  }

  function DigitValue(c: char): (d: nat)
    requires IsDigit(c)
    ensures d < 10
  {
    c as int - 48
  }

  /** `String(n)` for a non-negative integer: its shortest decimal rendering. */
  function NatToString(n: nat): (r: string)
    ensures |r| >= 1 && AllDigits(r)
    ensures |r| > 1 ==> r[0] != '0'
    decreases n
  {
    if n < 10 then [DigitChar(n)] else NatToString(n / 10) + [DigitChar(n % 10)]
  }

  /** The value of a string of decimal digits (a reference reading, not in the program). */
  function DigitsValue(s: string): nat
    requires AllDigits(s)
    decreases |s|
  {
    if s == [] then 0 else DigitsValue(s[..|s| - 1]) * 10 + DigitValue(s[|s| - 1])
  }

  lemma {:induction false} NatToStringRoundTrip(n: nat)
    ensures DigitsValue(NatToString(n)) == n
    decreases n
  {
    var r := NatToString(n);
    if n >= 10 {
      NatToStringRoundTrip(n / 10);
      assert r[..|r| - 1] == NatToString(n / 10);
    }
  }

  /**
   * `Number.prototype.toString()` for an integer value: a minus sign exactly
   * when the value is negative, then the shortest run of decimal digits whose
   * value is the magnitude.
   */
  function IntToString(i: int): (r: string)
    ensures |r| >= 1 && (r[0] == '-' <==> i < 0)
    ensures var digits := if i < 0 then r[1..] else r;
      |digits| >= 1 && AllDigits(digits) && (|digits| > 1 ==> digits[0] != '0') &&
      DigitsValue(digits) == if i < 0 then -i else i
  {
    if i < 0 then
      NatToStringRoundTrip(-i);
      var digits := NatToString(-i);
      assert ("-" + digits)[1..] == digits;
      "-" + digits
    else
      NatToStringRoundTrip(i);
      NatToString(i)
  }

  /** Distinct integers render differently. */
  lemma IntToStringInjective(a: int, b: int)
    requires IntToString(a) == IntToString(b)
    ensures a == b
  {
    var r := IntToString(a);
    var digits := if a < 0 then r[1..] else r;
    assert DigitsValue(digits) == (if a < 0 then -a else a);
    assert DigitsValue(digits) == (if b < 0 then -b else b);
  }
}
