/**
 * `strconv.ParseInt(s, 10, 64)` as Init uses it for GITHUB_APP_ID and
 * GITHUB_APP_INSTALLATION_ID, and its inverse `strconv.FormatInt(n, 10)`.
 * With an explicit base of 10 Go accepts an optional `+` or `-` followed
 * by one or more ASCII digits (leading zeros allowed, no underscores, no
 * prefix), and fails when the value leaves the signed 64-bit range.
 */
module Decimal {
  import opened Wrappers

  const MinInt64: int := -0x8000_0000_0000_0000
  const MaxInt64: int := 0x7fff_ffff_ffff_ffff
  const MaxUint64: int := 0xffff_ffff_ffff_ffff

  /** Go's int64. */
  type Int64 = x: int | MinInt64 <= x <= MaxInt64

  predicate IsDigit(c: char) {
    '0' <= c <= '9'
  }

  predicate AllDigits(s: string) {
    forall i :: 0 <= i < |s| ==> IsDigit(s[i])
  }

  function DigitValue(c: char): (d: nat)
    requires IsDigit(c)
    ensures d < 10
  {
    c as int - '0' as int
  }

  function DigitChar(d: nat): (c: char)
    requires d < 10
    ensures IsDigit(c) && DigitValue(c) == d
  {
    ('0' as int + d) as char
  }

  function Pow10(n: nat): (p: nat)
    ensures p >= 1
  {
    if n == 0 then 1 else 10 * Pow10(n - 1)
  }

  /** The positional value of a digit string: each digit times ten to the power of its place. */
  function Value(s: string): nat
    requires AllDigits(s)
  {
    if s == [] then 0 else DigitValue(s[0]) * Pow10(|s| - 1) + Value(s[1..])
  }

  /** The text base-10 ParseInt accepts: an optional sign, then at least one digit. */
  predicate IsSignedDecimal(s: string) {
    if |s| > 0 && (s[0] == '+' || s[0] == '-') then |s| > 1 && AllDigits(s[1..])
    else |s| > 0 && AllDigits(s)
  }

  /** The number such a text denotes, before any range check. */
  function SignedValue(s: string): int
    requires IsSignedDecimal(s)
  {
    if s[0] == '-' then -(Value(s[1..]) as int)
    else if s[0] == '+' then Value(s[1..])
    else Value(s)
  }

  /**
   * The digit loop of ParseUint for base 10 and 64 bits: digits are taken
   * left to right into acc; any other character is a syntax error, and an
   * accumulated value beyond the unsigned 64-bit maximum a range error.
   */
  function AccumulateDigits(s: string, acc: nat): Option<nat>
  {
    if s == [] then Some(acc)
    else if !IsDigit(s[0]) then None
    else
      var n := acc * 10 + DigitValue(s[0]);
      if n > MaxUint64 then None else AccumulateDigits(s[1..], n)
  }

  /** strconv.ParseUint(s, 10, 64); the empty string is a syntax error. */
  function ParseUint64(s: string): Option<nat>
  {
    if s == [] then None else AccumulateDigits(s, 0)
  }

  /**
   * strconv.ParseInt(s, 10, 64): strip one sign, parse the rest as
   * unsigned, then reject magnitudes at or past 2^63 (for a positive
   * value) or past 2^63 (for a negative one).
   */
  function ParseInt64(s: string): (r: Option<Int64>)
  {
    if s == [] then None
    else
      var neg := s[0] == '-';
      var body := if s[0] == '+' || s[0] == '-' then s[1..] else s;
      match ParseUint64(body)
      case None => None
      case Some(u) =>
        if !neg && u > MaxInt64 then None
        else if neg && u > -MinInt64 then None
        else Some(if neg then -(u as int) else u)
  }

  /** strconv.FormatUint(n, 10): shortest digit string, no leading zeros. */
  function FormatUint(n: nat): (s: string)
    ensures |s| > 0
  {
    if n < 10 then [DigitChar(n)] else FormatUint(n / 10) + [DigitChar(n % 10)]
  }

  /** strconv.FormatInt(n, 10). */
  function FormatInt64(n: Int64): string
  {
    if n < 0 then "-" + FormatUint(-(n as int)) else FormatUint(n)
  }

  /** The arithmetic of ValueAppend: multiplying by ten distributes over a leading digit. */
  lemma ScaleLeadingDigit(d: nat, p: nat, v: nat, e: nat)
    ensures d * (10 * p) + (10 * v + e) == 10 * (d * p + v) + e
  {
  }

  /** Appending a digit shifts the value one place to the left. */
  lemma {:induction false} ValueAppend(s: string, c: char)
    requires AllDigits(s) && IsDigit(c)
    ensures AllDigits(s + [c]) && Value(s + [c]) == 10 * Value(s) + DigitValue(c)
  {
    if s != [] {
      var t := s[1..];
      assert (s + [c])[0] == s[0];
      assert (s + [c])[1..] == t + [c];
      ValueAppend(t, c);
      var p := Pow10(|t|);
      assert Pow10(|t + [c]|) == 10 * p;
      assert Value(s + [c]) == DigitValue(s[0]) * (10 * p) + Value(t + [c]);
      ScaleLeadingDigit(DigitValue(s[0]), p, Value(t), DigitValue(c));
    }
  }

  /** FormatUint writes digits whose positional value is n. */
  lemma {:induction false} FormatUintValue(n: nat)
    ensures AllDigits(FormatUint(n)) && Value(FormatUint(n)) == n
  {
    if n >= 10 {
      FormatUintValue(n / 10);
      ValueAppend(FormatUint(n / 10), DigitChar(n % 10));
    }
  }

  /** One more digit d in front of a tail of place p: the arithmetic of the digit loop. */
  lemma ShiftDigit(acc: nat, d: nat, p: nat, v: nat)
    requires p >= 1
    ensures acc * (10 * p) + (d * p + v) == (acc * 10 + d) * p + v
    ensures (acc * 10 + d) * p + v >= acc * 10 + d
  {
  }

  /**
   * The digit loop succeeds exactly on digit strings whose value, placed
   * after acc, stays within the unsigned 64-bit range, and yields that value.
   */
  lemma {:induction false} AccumulateDigitsValue(s: string, acc: nat)
    requires acc <= MaxUint64
    ensures AccumulateDigits(s, acc).Some? <==>
              AllDigits(s) && acc * Pow10(|s|) + Value(s) <= MaxUint64
    ensures AccumulateDigits(s, acc).Some? ==>
              AccumulateDigits(s, acc).value == acc * Pow10(|s|) + Value(s)
  {
    if s != [] && IsDigit(s[0]) {
      var t := s[1..];
      var d := DigitValue(s[0]);
      var n := acc * 10 + d;
      assert AllDigits(s) <==> AllDigits(t) by {
        forall i | 0 <= i < |t| ensures t[i] == s[i + 1] { }
      }
      if AllDigits(s) {
        var p := Pow10(|t|);
        assert Pow10(|s|) == 10 * p;
        assert Value(s) == d * p + Value(t);
        ShiftDigit(acc, d, p, Value(t));
        assert acc * Pow10(|s|) + Value(s) == n * p + Value(t);
      }
      if n <= MaxUint64 {
        AccumulateDigitsValue(t, n);
      }
    }
  }

  /**
   * ParseInt64 succeeds exactly on an optionally signed decimal whose value
   * is in the int64 range, and then returns that value.
   */
  lemma ParseInt64Correct(s: string)
    ensures ParseInt64(s).Some? <==>
              IsSignedDecimal(s) && MinInt64 <= SignedValue(s) <= MaxInt64
    ensures ParseInt64(s).Some? ==> ParseInt64(s).value == SignedValue(s)
  {
    if s != [] {
      var body := if s[0] == '+' || s[0] == '-' then s[1..] else s;
      if body != [] {
        AccumulateDigitsValue(body, 0);
      }
    }
  }

  /** Reading back what FormatInt64 wrote gives the original number. */
  lemma ParseFormatInt64(n: Int64)
    ensures ParseInt64(FormatInt64(n)) == Some(n)
  {
    var m: nat := if n < 0 then -(n as int) else n;
    FormatUintValue(m);
    var digits := FormatUint(m);
    assert IsDigit(digits[0]);
    ParseInt64Correct(FormatInt64(n));
    if n < 0 {
      assert FormatInt64(n)[1..] == digits;
    }
  }
}
