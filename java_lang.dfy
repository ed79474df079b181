/**
 * The pieces of the Java platform that the bid engine leans on, stated
 * exactly enough to reason about its edge cases: 32- and 64-bit integer
 * ranges, `Long.parseLong` / `Integer.parseInt`, `Long.toString`,
 * `String.trim`, `String.equalsIgnoreCase`, `java.util.Random.nextInt(bound)`
 * and exceptions.
 */
module JavaLang {

  datatype Option<+T> = None | Some(value: T)

  // ---------------------------------------------------------------------
  // Exceptions

  /** The exception classes whose handling the engine distinguishes. */
  datatype Exception =
    | IllegalArgument(message: string)
    | InvalidProtocolBuffer(message: string)
    /** any other `Exception` (the handler's catch-all) */
    | RuntimeFault(message: string)

  /** A Java call either returns a value or throws. */
  datatype Outcome<+T> = Returned(value: T) | Threw(exception: Exception)

  // ---------------------------------------------------------------------
  // Primitive integer ranges

  const LONG_MIN: int := -0x8000_0000_0000_0000
  const LONG_MAX: int := 0x7FFF_FFFF_FFFF_FFFF
  const INT_MIN: int := -0x8000_0000
  const INT_MAX: int := 0x7FFF_FFFF

  /** Java `long` */
  type Long = x: int | LONG_MIN <= x <= LONG_MAX
  /** Java `int` */
  type Int = x: int | INT_MIN <= x <= INT_MAX

  /** Two's-complement wrap-around of a mathematical integer into a `long`,
      which is what Java's `long` arithmetic does on overflow. */
  function WrapLong(x: int): (r: Long)
    ensures (r - x) % 0x1_0000_0000_0000_0000 == 0
    ensures LONG_MIN <= x <= LONG_MAX ==> r == x
  {
    (x - LONG_MIN) % 0x1_0000_0000_0000_0000 + LONG_MIN
  }

  // ---------------------------------------------------------------------
  // Decimal text

  predicate IsDigit(c: char) {
    '0' <= c <= '9'
  }

  predicate AllDigits(s: string) {
    forall i :: 0 <= i < |s| ==> IsDigit(s[i])
  }

  /** The value of a non-empty run of decimal digits, most significant first. */
  function DigitsValue(s: string): (v: nat)
    requires AllDigits(s)
  {
    if |s| == 0 then 0
    else 10 * DigitsValue(s[..|s| - 1]) + (s[|s| - 1] - '0') as int
  }

  predicate IsSign(c: char) {
    c == '-' || c == '+'
  }

  /** The text `Long.parseLong` and `Integer.parseInt` accept in radix 10,
      the regular language `[+-]?[0-9]+`. */
  predicate IsDecimalText(s: string) {
    && |s| > 0
    && (IsDigit(s[0]) || (IsSign(s[0]) && |s| > 1))
    && (forall i :: 1 <= i < |s| ==> IsDigit(s[i]))
  }

  /** The digits of decimal text, after its sign if it has one. */
  function Magnitude(s: string): (d: string)
    requires IsDecimalText(s)
    ensures |d| > 0 && AllDigits(d)
    ensures s == d || s == [s[0]] + d
  {
    if IsSign(s[0]) then s[1..] else s
  }

  /** The integer decimal text denotes, whatever its size. */
  function TextValue(s: string): (v: int)
    requires IsDecimalText(s)
  {
    if s[0] == '-' then 0 - DigitsValue(Magnitude(s)) else DigitsValue(Magnitude(s))
  }

  /**
   * `Long.parseLong` / `Integer.parseInt` in radix 10: an optional leading
   * '-' or '+', then at least one digit, and a value inside [lo, hi];
   * anything else is a `NumberFormatException`, modelled as None.
   */
  function ParseDecimal(s: string, lo: int, hi: int): (r: Option<int>)
    ensures r.Some? ==> lo <= r.value <= hi
    ensures |s| == 0 ==> r.None?
  {
    if |s| == 0 then None
    else
      var signed := s[0] == '-' || s[0] == '+';
      var digits := if signed then s[1..] else s;
      if |digits| == 0 || !AllDigits(digits) then None
      else
        var v: int := if s[0] == '-' then 0 - DigitsValue(digits) as int else DigitsValue(digits);
        if lo <= v <= hi then Some(v) else None
  }

  /** Decimal text parses exactly when its value is in [lo, hi], and then
      to that value. */
  lemma ParseDecimalGrammar(s: string, lo: int, hi: int)
    ensures ParseDecimal(s, lo, hi).Some? <==> IsDecimalText(s) && lo <= TextValue(s) <= hi
    ensures ParseDecimal(s, lo, hi).Some? ==> ParseDecimal(s, lo, hi).value == TextValue(s)
  {
  }

  /** `Long.parseLong(s)` */
  function ParseLong(s: string): (r: Option<Long>)
    ensures r.Some? <==> IsDecimalText(s) && LONG_MIN <= TextValue(s) <= LONG_MAX
    ensures r.Some? ==> r.value as int == TextValue(s)
    ensures r.Some? ==> ParseDecimal(s, LONG_MIN, LONG_MAX) == Some(r.value as int)
    ensures r.None? ==> ParseDecimal(s, LONG_MIN, LONG_MAX).None?
  {
    ParseDecimalGrammar(s, LONG_MIN, LONG_MAX);
    match ParseDecimal(s, LONG_MIN, LONG_MAX)
    case Some(v) => Some(v as Long)
    case None => None
  }

  /** `Integer.parseInt(s)` */
  function ParseInt(s: string): (r: Option<Int>)
    ensures r.Some? <==> IsDecimalText(s) && INT_MIN <= TextValue(s) <= INT_MAX
    ensures r.Some? ==> r.value as int == TextValue(s)
    ensures r.Some? ==> ParseDecimal(s, INT_MIN, INT_MAX) == Some(r.value as int)
    ensures r.None? ==> ParseDecimal(s, INT_MIN, INT_MAX).None?
  {
    ParseDecimalGrammar(s, INT_MIN, INT_MAX);
    match ParseDecimal(s, INT_MIN, INT_MAX)
    case Some(v) => Some(v as Int)
    case None => None
  }

  /** An `int` parse is a `long` parse narrowed to the `int` range: it
      succeeds exactly when the `long` parse does with a value that fits. */
  lemma ParseIntNarrowsParseLong(s: string)
    ensures ParseInt(s).Some? <==> ParseLong(s).Some? && INT_MIN <= ParseLong(s).value <= INT_MAX
    ensures ParseInt(s).Some? ==> ParseInt(s).value as int == ParseLong(s).value as int
  {
  }

  /** The shortest decimal digits of a natural number. */
  function NatToDigits(n: nat): (s: string)
    ensures |s| > 0 && AllDigits(s)
    ensures n == 0 ==> s == "0"
    ensures n > 0 ==> s[0] != '0'
    decreases n
  {
    var d := [(n % 10) as char + '0'];
    if n < 10 then d else NatToDigits(n / 10) + d
  }

  /** `Long.toString(n)` / `Integer.toString(n)` */
  function ToDecimalString(n: int): (s: string)
    ensures |s| > 0
    ensures s[0] == '-' <==> n < 0
    ensures n >= 0 ==> AllDigits(s)
    ensures n < 0 ==> |s| > 1 && AllDigits(s[1..])
    ensures n == 0 ==> s == "0"
    ensures n > 0 ==> s[0] != '0'
    ensures n < 0 ==> s[1] != '0'
  {
    if n < 0 then "-" + NatToDigits(-n) else NatToDigits(n)
  }

  lemma {:induction false} NatToDigitsValue(n: nat)
    ensures DigitsValue(NatToDigits(n)) == n
    decreases n
  {
    var d := [(n % 10) as char + '0'];
    if n >= 10 {
      var s := NatToDigits(n / 10) + d;
      assert s[..|s| - 1] == NatToDigits(n / 10);
      NatToDigitsValue(n / 10);
    }
  }

  /** Printing then parsing gives the number back, for every value in range. */
  lemma ParseToDecimalString(n: int, lo: int, hi: int)
    requires lo <= n <= hi
    ensures ParseDecimal(ToDecimalString(n), lo, hi) == Some(n)
  {
    PrintedText(n);
  }

  /** A number outside [lo, hi] is rejected even in its printed form, which
      is how `parseInt` refuses a `long`-sized value. */
  lemma OutOfRangeRejected(n: int, lo: int, hi: int)
    requires n < lo || hi < n
    ensures ParseDecimal(ToDecimalString(n), lo, hi).None?
  {
    PrintedText(n);
  }

  /** What `toString` prints is decimal text denoting the number printed. */
  lemma PrintedText(n: int)
    ensures IsDecimalText(ToDecimalString(n))
    ensures TextValue(ToDecimalString(n)) == n
  {
    var s := ToDecimalString(n);
    if n < 0 {
      NatToDigitsValue(-n);
      assert Magnitude(s) == NatToDigits(-n);
    } else {
      NatToDigitsValue(n);
      assert Magnitude(s) == NatToDigits(n);
    }
  }

  /** Leading zeros do not change the value of a run of digits. */
  lemma {:induction false} LeadingZeroValue(x: string)
    requires AllDigits(x)
    ensures AllDigits("0" + x) && DigitsValue("0" + x) == DigitsValue(x)
  {
    if |x| > 0 {
      var y := "0" + x;
      assert y[..|y| - 1] == "0" + x[..|x| - 1];
      LeadingZeroValue(x[..|x| - 1]);
    }
  }

  /** A run of digits without its superfluous leading zeros. */
  function StripZeros(d: string): (r: string)
    requires |d| > 0 && AllDigits(d)
    ensures |r| > 0 && AllDigits(r)
    ensures r[0] == '0' ==> r == "0"
    ensures DigitsValue(r) == DigitsValue(d)
  {
    if |d| > 1 && d[0] == '0' then
      LeadingZeroValue(d[1..]);
      assert d == "0" + d[1..];
      StripZeros(d[1..])
    else d
  }

  /** The canonical spelling of decimal text: no '+', no superfluous leading
      zero, and no '-' on zero. */
  function Canonical(s: string): string
    requires IsDecimalText(s)
  {
    var d := StripZeros(Magnitude(s));
    if s[0] == '-' && d != "0" then "-" + d else d
  }

  /** Printing the value of digits without superfluous zeros gives them back. */
  lemma {:induction false} PrintDigitsValue(d: string)
    requires |d| > 0 && AllDigits(d)
    requires d[0] == '0' ==> d == "0"
    ensures NatToDigits(DigitsValue(d)) == d
  {
    var n := DigitsValue(d);
    var last := d[|d| - 1];
    if |d| > 1 {
      var init := d[..|d| - 1];
      assert init[0] == d[0];
      PrintDigitsValue(init);
      assert DigitsValue(init) != 0;
      assert n / 10 == DigitsValue(init) && n % 10 == (last - '0') as int;
    }
  }

  /** Parse then print: a parsed number prints as the canonical spelling of
      the text it was parsed from. */
  lemma ParseThenPrint(s: string, lo: int, hi: int, v: int)
    requires ParseDecimal(s, lo, hi) == Some(v)
    ensures ToDecimalString(v) == Canonical(s)
  {
    var d := StripZeros(Magnitude(s));
    PrintDigitsValue(d);
  }

  // ---------------------------------------------------------------------
  // Strings

  /** `String.trim` strips every character at or below U+0020. */
  predicate IsTrimmed(c: char) {
    c <= ' '
  }

  /** `s` without its leading characters at or below U+0020. */
  function TrimStart(s: string): (r: string)
    ensures |r| <= |s| && r == s[|s| - |r|..]
    ensures forall k :: 0 <= k < |s| - |r| ==> IsTrimmed(s[k])
    ensures |r| > 0 ==> !IsTrimmed(r[0])
  {
    if |s| > 0 && IsTrimmed(s[0]) then TrimStart(s[1..]) else s
  }

  /** `s` without its trailing characters at or below U+0020. */
  function TrimEnd(s: string): (r: string)
    ensures |r| <= |s| && r == s[..|r|]
    ensures forall k :: |r| <= k < |s| ==> IsTrimmed(s[k])
    ensures |r| > 0 ==> !IsTrimmed(r[|r| - 1])
  {
    if |s| > 0 && IsTrimmed(s[|s| - 1]) then TrimEnd(s[..|s| - 1]) else s
  }

  /** `r` is `s` from index `i` on, short of a run at each end made only of
      characters at or below U+0020. */
  predicate IsTrimmedMiddle(s: string, r: string, i: int) {
    && 0 <= i <= |s| - |r|
    && r == s[i..i + |r|]
    && (forall k :: 0 <= k < i ==> IsTrimmed(s[k]))
    && (forall k :: i + |r| <= k < |s| ==> IsTrimmed(s[k]))
  }

  /** `String.trim`: the middle of `s` left after removing every character
      at or below U+0020 from both ends. */
  function Trim(s: string): (r: string)
    ensures |r| <= |s|
    ensures exists i :: IsTrimmedMiddle(s, r, i)
    ensures |r| > 0 ==> !IsTrimmed(r[0]) && !IsTrimmed(r[|r| - 1])
  {
    var t := TrimStart(s);
    var r := TrimEnd(t);
    TrimBothEnds(s, t, r);
    r
  }

  /** Stripping a leading run `s[..|s| - |t|]` and then a trailing run
      `t[|r|..]`, each of characters at or below U+0020, leaves the middle
      of `s` between the two runs. */
  lemma TrimBothEnds(s: string, t: string, r: string)
    requires |t| <= |s| && t == s[|s| - |t|..]
    requires forall k :: 0 <= k < |s| - |t| ==> IsTrimmed(s[k])
    requires |r| <= |t| && r == t[..|r|]
    requires forall k :: |r| <= k < |t| ==> IsTrimmed(t[k])
    ensures IsTrimmedMiddle(s, r, |s| - |t|)
  {
    var i := |s| - |t|;
    forall k | i + |r| <= k < |s|
      ensures IsTrimmed(s[k])
    {
      assert s[k] == t[k - i];
    }
  }

  /** A string with no character at or below U+0020 at either end is left
      alone by `trim`. */
  lemma TrimUntrimmed(s: string)
    requires |s| > 0 ==> !IsTrimmed(s[0]) && !IsTrimmed(s[|s| - 1])
    ensures Trim(s) == s
  {
  }

  predicate IsAsciiLetter(c: char) {
    'a' <= c <= 'z' || 'A' <= c <= 'Z'
  }

  /** ASCII case folding, as `Character.toUpperCase` does on ASCII letters. */
  function ToUpperAscii(c: char): (u: char)
    ensures 'a' <= c <= 'z' ==> u as int == c as int - 32
    ensures !('a' <= c <= 'z') ==> u == c
  {
    if 'a' <= c <= 'z' then (c as int - 32) as char else c
  }

  /** `String.equalsIgnoreCase`, character by character after folding. */
  predicate EqualsIgnoreCase(a: string, b: string)
    ensures a == b ==> EqualsIgnoreCase(a, b)
    ensures EqualsIgnoreCase(a, b) ==> |a| == |b|
  {
    |a| == |b| && forall i :: 0 <= i < |a| ==> ToUpperAscii(a[i]) == ToUpperAscii(b[i])
  }

  /** Only ASCII letters may differ between two strings that are equal
      ignoring case; every other character must match exactly. */
  lemma EqualsIgnoreCaseNonLetters(a: string, b: string)
    requires EqualsIgnoreCase(a, b)
    ensures forall i :: 0 <= i < |a| && !IsAsciiLetter(a[i]) ==> a[i] == b[i]
  {
  }

  /** equalsIgnoreCase is an equivalence, so a name matches at most one of
      several names that are pairwise different ignoring case. */
  lemma EqualsIgnoreCaseEquivalence(a: string, b: string, c: string)
    ensures EqualsIgnoreCase(a, a)
    ensures EqualsIgnoreCase(a, b) ==> EqualsIgnoreCase(b, a)
    ensures EqualsIgnoreCase(a, b) && EqualsIgnoreCase(b, c) ==> EqualsIgnoreCase(a, c)
  {
  }

  // ---------------------------------------------------------------------
  // java.util.Random

  const BOUND_MUST_BE_POSITIVE: string := "bound must be positive"

  /**
   * `new Random().nextInt(bound)`: a value in [0, bound), chosen freely here
   * since no generator is modelled; a bound that is not positive throws
   * `IllegalArgumentException`.
   */
  method NextInt(bound: int) returns (r: Outcome<int>)
    ensures r.Threw? <==> bound <= 0
    ensures r.Threw? ==> r.exception == IllegalArgument(BOUND_MUST_BE_POSITIVE)
    ensures r.Returned? ==> 0 <= r.value < bound
  {
    if bound <= 0 {
      return Threw(IllegalArgument(BOUND_MUST_BE_POSITIVE));
    }
    var k :| 0 <= k < bound;
    return Returned(k);
  }
}
