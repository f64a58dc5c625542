/**
 * `int.TryParse(s, out v)` for the 32-bit `int` of C#: an optional leading sign
 * followed by one or more decimal digits whose value lies in the Int32 range.
 * On failure the source's `out` variable is 0, which the callers read as `None`.
 */
module Numerals {
  import opened Wrappers

  const Int32Min: int := -0x8000_0000
  const Int32Max: int := 0x7FFF_FFFF

  predicate IsDigit(c: char) {
    '0' <= c <= '9'
  }

  predicate AllDigits(s: string) {
    forall i :: 0 <= i < |s| ==> IsDigit(s[i])
  }

  function DigitValue(c: char): (d: nat)
    requires IsDigit(c)
    ensures d < 10
  {
    c as int - '0' as int
  }

  function DigitChar(d: nat): (c: char)
    requires d < 10
    ensures IsDigit(c) && DigitValue(c) == d
  {
    ('0' as int + d) as char
  }

  /** The value of a string of decimal digits, most significant first. */
  function DigitsValue(s: string): nat
    requires AllDigits(s)
  {
    if s == [] then 0 else DigitsValue(s[..|s| - 1]) * 10 + DigitValue(s[|s| - 1])
  }

  predicate IsSign(c: char) {
    c == '-' || c == '+'
  }

  /** The digits after an optional sign. */
  function Magnitude(s: string): string {
    if s != [] && IsSign(s[0]) then s[1..] else s
  }

  /** An optional sign followed by one or more decimal digits. */
  predicate Numeral(s: string) {
    Magnitude(s) != [] && AllDigits(Magnitude(s))
  }

  /** The value a numeral denotes, negated after a leading `-`. */
  function SignedValue(s: string): int
    requires Numeral(s)
  {
    if s[0] == '-' then -(DigitsValue(Magnitude(s)) as int) else DigitsValue(Magnitude(s))
  }

  /** `int.TryParse`: the value of a numeral in the Int32 range, and `None` for everything else. */
  function TryParseInt32(s: string): (r: Option<int>)
    ensures r.Some? ==> Int32Min <= r.value <= Int32Max
    ensures r.Some? <==> Numeral(s) && Int32Min <= SignedValue(s) <= Int32Max
    ensures r.Some? ==> r.value == SignedValue(s)
  {
    if !Numeral(s) then None
    else
      var v := SignedValue(s);
      if Int32Min <= v <= Int32Max then Some(v) else None
  }

  /** Decimal rendering of a natural number, without leading zeros. */
  function FormatNat(n: nat): (r: string)
    ensures r != [] && AllDigits(r)
  {
    if n < 10 then [DigitChar(n)] else FormatNat(n / 10) + [DigitChar(n % 10)]
  }

  /** Decimal rendering of an integer, with a `-` for negatives. */
  function FormatInt(n: int): string {
    if n < 0 then "-" + FormatNat(-n) else FormatNat(n)
  }

  lemma {:induction false} DigitsValueOfFormat(n: nat)
    ensures DigitsValue(FormatNat(n)) == n
  {
    if n >= 10 {
      var s := FormatNat(n);
      assert s[..|s| - 1] == FormatNat(n / 10);
      DigitsValueOfFormat(n / 10);
    }
  }

  /** Every Int32 value, written in decimal, parses back to itself. */
  lemma ParseFormatRoundTrip(n: int)
    requires Int32Min <= n <= Int32Max
    ensures TryParseInt32(FormatInt(n)) == Some(n)
  {
    var s := FormatInt(n);
    if n < 0 {
      DigitsValueOfFormat(-n);
      assert Magnitude(s) == FormatNat(-n);
    } else {
      DigitsValueOfFormat(n);
      assert FormatNat(n)[0] != '-';
      assert Magnitude(s) == FormatNat(n);
    }
  }

  /**
   * The range is asymmetric: a numeral is refused exactly when its digits
   * exceed 2147483648 after a `-`, or 2147483647 without a sign or after `+`.
   */
  lemma OutOfRangeRefused(s: string)
    requires Numeral(s)
    ensures TryParseInt32(s) == None <==> DigitsValue(Magnitude(s)) > (if s[0] == '-' then -Int32Min else Int32Max)
  {
  }
}
