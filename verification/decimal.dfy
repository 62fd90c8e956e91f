/**
 * Decimal text of integers: the `%v` rendering of an integer id, Go's
 * `strconv.Atoi` used on a path segment, and the `int32(x)` conversion.
 */
module Decimal {
  import opened Optional

  const MinInt64: int := -0x8000_0000_0000_0000
  const MaxInt64: int := 0x7fff_ffff_ffff_ffff
  const MinInt32: int := -0x8000_0000
  const MaxInt32: int := 0x7fff_ffff

  predicate IsDigit(c: char) { '0' <= c <= '9' }

  predicate AllDigits(s: string) { forall i :: 0 <= i < |s| ==> IsDigit(s[i]) }

  function DigitChar(d: nat): (c: char)
    requires d < 10
    ensures IsDigit(c) && c as int - '0' as int == d
  {
    ('0' as int + d) as char
  }

  /** The value of a string of decimal digits, most significant first. */
  function DigitsValue(s: string): nat
    requires AllDigits(s)
  {
    if |s| == 0 then 0 else DigitsValue(s[..|s| - 1]) * 10 + (s[|s| - 1] as int - '0' as int)
  }

  /** Canonical decimal text of a natural number: at least one digit, no leading zero. */
  function NatToDecimal(n: nat): (s: string)
    ensures |s| >= 1 && AllDigits(s)
    ensures s[0] == '0' ==> n == 0 && |s| == 1
  {
    if n < 10 then [DigitChar(n)] else NatToDecimal(n / 10) + [DigitChar(n % 10)]
  }

  /** The decimal text denotes the number it was made from. */
  lemma {:induction false} NatToDecimalValue(n: nat)
    ensures DigitsValue(NatToDecimal(n)) == n
  {
    if n >= 10 {
      var s := NatToDecimal(n);
      assert s[..|s| - 1] == NatToDecimal(n / 10);
      NatToDecimalValue(n / 10);
    }
  }

  /** `fmt.Sprintf("%v", i)` for an integer: an optional minus sign, then the digits. */
  function IntToDecimal(i: int): (s: string)
    ensures |s| >= 1
    ensures s[0] == '-' <==> i < 0
    ensures i >= 0 ==> AllDigits(s)
    ensures i < 0 ==> AllDigits(s[1..])
  {
    if i < 0 then "-" + NatToDecimal(-i) else NatToDecimal(i)
  }

  /** Text `strconv.Atoi` accepts: an optional '+' or '-', then one or more ASCII digits. */
  predicate SignedDigits(s: string) {
    && |s| >= 1
    && (IsDigit(s[0]) || ((s[0] == '+' || s[0] == '-') && |s| >= 2))
    && AllDigits(s[1..])
  }

  /** The value of signed digit text, before any range check. */
  function SignedValue(s: string): int
    requires SignedDigits(s)
  {
    if s[0] == '+' || s[0] == '-' then
      var magnitude: int := DigitsValue(s[1..]);
      if s[0] == '-' then -magnitude else magnitude
    else
      assert forall i :: 1 <= i < |s| ==> s[i] == s[1..][i - 1];
      DigitsValue(s)
  }

  /**
   * `strconv.Atoi` on a 64-bit platform: `Some` of the value for an
   * optional sign followed by digits whose value fits 64 bits, `None` (a
   * non-nil error) otherwise. Which of its two errors Go reports is not kept.
   */
  function Atoi(s: string): (r: Option<int>)
    ensures r.Some? ==> MinInt64 <= r.value <= MaxInt64
    ensures r.Some? ==> SignedDigits(s)
    ensures SignedDigits(s) && MinInt64 <= SignedValue(s) <= MaxInt64 ==> r == Some(SignedValue(s))
    ensures SignedDigits(s) && !(MinInt64 <= SignedValue(s) <= MaxInt64) ==> r == None
  {
    var signed := |s| > 0 && (s[0] == '+' || s[0] == '-');
    var digits := if signed then s[1..] else s;
    if |digits| == 0 || !AllDigits(digits) then None
    else
      var magnitude: int := DigitsValue(digits);
      var v := if s[0] == '-' then -magnitude else magnitude;
      if MinInt64 <= v <= MaxInt64 then Some(v) else None
  }

  /** Parsing the rendered text of any 64-bit integer gives the integer back. */
  lemma {:induction false} AtoiOfDecimal(i: int)
    requires MinInt64 <= i <= MaxInt64
    ensures Atoi(IntToDecimal(i)) == Some(i)
  {
    var s := IntToDecimal(i);
    if i < 0 {
      NatToDecimalValue(-i);
      assert s[1..] == NatToDecimal(-i);
    } else {
      NatToDecimalValue(i);
      assert IsDigit(s[0]);
    }
  }

  /** The rendered text of an integer beyond 64 bits is refused, whatever its sign. */
  lemma {:induction false} AtoiRefusesOutOfRange(i: int)
    requires i < MinInt64 || MaxInt64 < i
    ensures Atoi(IntToDecimal(i)) == None
  {
    var s := IntToDecimal(i);
    if i < 0 {
      NatToDecimalValue(-i);
      assert s[1..] == NatToDecimal(-i);
    } else {
      NatToDecimalValue(i);
      assert IsDigit(s[0]);
    }
  }

  /** Text with a character that is neither a digit nor a leading sign never parses. */
  lemma AtoiRejectsNonDigit(s: string, k: nat)
    requires k < |s| && !IsDigit(s[k])
    requires k > 0 || (s[0] != '+' && s[0] != '-')
    ensures Atoi(s) == None
  {
    if |s| > 0 && (s[0] == '+' || s[0] == '-') {
      assert s[1..][k - 1] == s[k];
    }
  }

  /** Go's `int32(x)`: keep the low 32 bits, read as two's complement. */
  function Int32Of(x: int): (r: int)
    ensures MinInt32 <= r <= MaxInt32
    ensures (x - r) % 0x1_0000_0000 == 0
    ensures MinInt32 <= x <= MaxInt32 ==> r == x
  {
    var low := (x - MinInt32) % 0x1_0000_0000;
    assert x - (low + MinInt32) == 0x1_0000_0000 * ((x - MinInt32) / 0x1_0000_0000);
    low + MinInt32
  }

  /** A path id beyond the 32-bit range reaches the service wrapped around. */
  lemma Int32OfWrapsAround()
    ensures Int32Of(0x1_0000_0001) == 1
    ensures Int32Of(MaxInt32 + 1) == MinInt32
    ensures Int32Of(-1) == -1
  {
  }
}
