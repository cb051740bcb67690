/**
 * Decimal text: the "%u"/"%d" formatting that builds GStreamer pad and
 * element names, the "%u" conversion of sscanf that reads them back, and
 * atoi, which the command-line parsers apply to numeric arguments.
 */
module DecimalText {
  import opened Wrappers

  /** Width of C's `unsigned int` (and `guint`). */
  const UIntModulus: nat := 0x1_0000_0000
  /** Width of C's `unsigned long` on the LP64 platforms the programs target. */
  const ULongModulus: nat := 0x1_0000_0000_0000_0000

  predicate IsDigit(c: char) { '0' <= c <= '9' }

  predicate AllDigits(s: string) { forall i :: 0 <= i < |s| ==> IsDigit(s[i]) }

  /** isspace() in the C locale. */
  predicate IsSpace(c: char) {
    c == ' ' || c == '\t' || c == '\n' || c == '\r' || c as int == 0x0C || c as int == 0x0B
  }

  function DigitChar(d: nat): (c: char)
    requires d < 10
    ensures IsDigit(c)
  {
    ('0' as int + d) as char
  }

  function DigitValue(c: char): (d: nat)
    requires IsDigit(c)
    ensures d < 10
  {
    c as int - '0' as int
  }

  /** The decimal rendering of n, as printf's "%u" (and "%d" for n >= 0) writes it. */
  function Decimal(n: nat): (s: string)
    decreases n
  {
    if n < 10 then [DigitChar(n)] else Decimal(n / 10) + [DigitChar(n % 10)]
  }

  /** The value of a run of decimal digits. */
  function DigitsValue(s: string): nat
    requires AllDigits(s)
  {
    if s == [] then 0 else DigitsValue(s[..|s| - 1]) * 10 + DigitValue(s[|s| - 1])
  }

  lemma {:induction false} DecimalIsDigits(n: nat)
    ensures 1 <= |Decimal(n)| && AllDigits(Decimal(n))
    ensures |Decimal(n)| == 1 <==> n < 10
    decreases n
  {
    if n >= 10 {
      DecimalIsDigits(n / 10);
    }
  }

  /** Reading back what "%u" wrote gives the number that was written. */
  lemma {:induction false} DecimalValue(n: nat)
    ensures AllDigits(Decimal(n)) && DigitsValue(Decimal(n)) == n
    decreases n
  {
    DecimalIsDigits(n);
    if n >= 10 {
      DecimalValue(n / 10);
      var s := Decimal(n);
      assert s[..|s| - 1] == Decimal(n / 10);
    }
  }

  /** Different numbers print differently, so names built from ids are distinct. */
  lemma DecimalInjective(m: nat, n: nat)
    requires Decimal(m) == Decimal(n)
    ensures m == n
  {
    DecimalValue(m);
    DecimalValue(n);
  }

  /** Number of leading decimal digits of s (what "%u" consumes greedily). */
  function DigitRun(s: string): (k: nat)
    ensures k <= |s|
    ensures AllDigits(s[..k])
    ensures k < |s| ==> !IsDigit(s[k])
  {
    if s == [] || !IsDigit(s[0]) then 0
    else
      var k := 1 + DigitRun(s[1..]);
      assert s[..k] == [s[0]] + s[1..][..k - 1];
      k
  }

  lemma {:induction false} DigitRunShift(d: string, rest: string)
    requires AllDigits(d)
    ensures DigitRun(d + rest) == |d| + DigitRun(rest)
    decreases |d|
  {
    if d != [] {
      var s := d + rest;
      assert s[0] == d[0] && IsDigit(s[0]);
      assert s[1..] == d[1..] + rest;
      DigitRunShift(d[1..], rest);
      assert DigitRun(s) == 1 + DigitRun(s[1..]);
    } else {
      assert d + rest == rest;
    }
  }

  /** Number of leading C-locale white-space characters of s. */
  function SpaceRun(s: string): (k: nat)
    ensures k <= |s|
    ensures forall i :: 0 <= i < k ==> IsSpace(s[i])
    ensures k < |s| ==> !IsSpace(s[k])
  {
    if s == [] || !IsSpace(s[0]) then 0 else 1 + SpaceRun(s[1..])
  }

  /** What "%u" and atoi see after the leading white space. */
  function StripSpace(s: string): string { s[SpaceRun(s)..] }

  predicate HasMinus(t: string) { |t| > 0 && t[0] == '-' }

  function StripSign(t: string): string
  {
    if |t| > 0 && (t[0] == '-' || t[0] == '+') then t[1..] else t
  }

  /** The digits a greedy decimal conversion consumes. */
  function LeadingDigits(u: string): (d: string)
    ensures AllDigits(d)
  {
    u[..DigitRun(u)]
  }

  /**
   * The "%u" conversion of glibc's sscanf applied to the front of s: skip white
   * space, accept an optional sign, then at least one digit.  The magnitude
   * saturates at ULONG_MAX, a minus sign negates modulo 2^64, and the value is
   * stored into an `unsigned int`, i.e. reduced modulo 2^32.  None when no digit
   * follows (a matching failure, so the conversion is not counted).
   */
  function ScanUnsigned(s: string): (r: Option<nat>)
    ensures r.Some? ==> r.value < UIntModulus
  {
    var t := StripSpace(s);
    var d := LeadingDigits(StripSign(t));
    if d == [] then None
    else
      var v: int := DigitsValue(d);
      if v >= ULongModulus then Some(UIntModulus - 1)
      else Some((if HasMinus(t) then -v else v) % UIntModulus)
  }

  /** A text that starts with a digit has no white space or sign to skip. */
  lemma StartsWithDigit(s: string)
    requires |s| > 0 && IsDigit(s[0])
    ensures StripSpace(s) == s && StripSign(s) == s && !HasMinus(s)
  {
    assert SpaceRun(s) == 0;
  }

  lemma {:induction false} LeadingDigitsOf(d: string, rest: string)
    requires AllDigits(d)
    requires rest == [] || !IsDigit(rest[0])
    ensures LeadingDigits(d + rest) == d
  {
    DigitRunShift(d, rest);
    assert DigitRun(rest) == 0;
    assert (d + rest)[..|d|] == d;
  }

  /** "%u" reads a digit run that is followed by a non-digit as its value. */
  lemma ScanDigits(d: string, rest: string)
    requires |d| > 0 && AllDigits(d) && DigitsValue(d) < UIntModulus
    requires rest == [] || !IsDigit(rest[0])
    ensures ScanUnsigned(d + rest) == Some(DigitsValue(d))
  {
    var s := d + rest;
    assert StripSpace(s) == s && !HasMinus(s) && StripSign(s) == s by {
      assert s[0] == d[0];
      StartsWithDigit(s);
    }
    assert LeadingDigits(s) == d by {
      LeadingDigitsOf(d, rest);
    }
    ScanOf(s, d);
  }

  lemma ScanOf(s: string, d: string)
    requires StripSpace(s) == s && !HasMinus(s) && StripSign(s) == s
    requires LeadingDigits(s) == d && d != [] && DigitsValue(d) < UIntModulus
    ensures ScanUnsigned(s) == Some(DigitsValue(d))
  {
  }

  /** "%u" reads back any id that printf's "%u" wrote, up to the next non-digit. */
  lemma ScanUnsignedOfDecimal(n: nat, rest: string)
    requires n < UIntModulus
    requires rest == [] || !IsDigit(rest[0])
    ensures ScanUnsigned(Decimal(n) + rest) == Some(n)
  {
    DecimalIsDigits(n);
    DecimalValue(n);
    ScanDigits(Decimal(n), rest);
  }

  /**
   * atoi: skip white space, an optional sign, then the longest run of digits;
   * 0 when there is no digit.  (Overflow of `int` is undefined in C and is not
   * modelled: the value is the exact integer.)
   */
  function Atoi(s: string): (r: int)
  {
    var t := StripSpace(s);
    var v: int := DigitsValue(LeadingDigits(StripSign(t)));
    if HasMinus(t) then -v else v
  }

  lemma AtoiOfDigits(d: string)
    requires |d| > 0 && AllDigits(d)
    ensures Atoi(d) == DigitsValue(d)
    ensures Atoi("-" + d) == 0 - DigitsValue(d)
  {
    StartsWithDigit(d);
    LeadingDigitsOf(d, []);
    assert d + [] == d;
    var m := "-" + d;
    assert SpaceRun(m) == 0;
    assert StripSpace(m) == m;
    assert HasMinus(m) && StripSign(m) == d;
  }

  /** A number printed with "%d" is read back by atoi. */
  lemma AtoiOfDecimal(n: nat)
    ensures Atoi(Decimal(n)) == n
    ensures Atoi("-" + Decimal(n)) == 0 - n
  {
    DecimalIsDigits(n);
    DecimalValue(n);
    AtoiOfDigits(Decimal(n));
  }
}
