/**
 * The values `option2primitive` may return (`string | number`) and the
 * template-literal conversion `${...}` that turns one into a search key.
 * Numbers are modelled as integers rendered in plain decimal, which is what
 * JavaScript prints for the integers it holds exactly below 10^21 in magnitude;
 * larger magnitudes (printed with an exponent) are outside this model.
 */
module Primitives {

  datatype Primitive = Str(s: string) | Num(n: int)

  function DigitChar(d: nat): (c: char)
    requires d < 10
    ensures '0' <= c <= '9'
  {
    (d + '0' as int) as char
  }

  function DigitValue(c: char): nat
  {
    if '0' <= c <= '9' then (c as int - '0' as int) as nat else 0
  }

  /** Decimal digits of a natural number, most significant first, no leading zeros. */
  function NatToDecimal(n: nat): (r: string)
    ensures |r| >= 1
    ensures forall k :: 0 <= k < |r| ==> '0' <= r[k] <= '9'
    ensures |r| > 1 ==> r[0] != '0'
  {
    if n < 10 then [DigitChar(n)] else NatToDecimal(n / 10) + [DigitChar(n % 10)]
  }

  /**
   * An integer in decimal: a minus sign for negatives, then the digits. This is
   * `${n}` for JavaScript's exactly held integers of magnitude below 10^21.
   */
  function IntToDecimal(n: int): (r: string)
  {
    if n < 0 then "-" + NatToDecimal(-n) else NatToDecimal(n)
  }

  /** `${p}` for a `string | number`. */
  function Interpolate(p: Primitive): string
  {
    match p
    case Str(s) => s
    case Num(n) => IntToDecimal(n)
  }

  /** Reads back a run of decimal digits. */
  function ParseNat(s: string): nat
  {
    if s == [] then 0 else ParseNat(s[..|s| - 1]) * 10 + DigitValue(s[|s| - 1])
  }

  function ParseInt(s: string): int
  {
    if |s| > 0 && s[0] == '-' then -(ParseNat(s[1..]) as int) else ParseNat(s)
  }

  lemma {:induction false} NatToDecimalRoundTrip(n: nat)
    ensures ParseNat(NatToDecimal(n)) == n
  {
    if n >= 10 {
      var prefix := NatToDecimal(n / 10);
      var s := prefix + [DigitChar(n % 10)];
      assert s[..|s| - 1] == prefix;
      assert DigitValue(s[|s| - 1]) == n % 10;
      NatToDecimalRoundTrip(n / 10);
      assert ParseNat(s) == (n / 10) * 10 + n % 10;
    }
  }

  /** The decimal rendering of an integer can be read back, so it loses nothing. */
  lemma IntToDecimalRoundTrip(n: int)
    ensures ParseInt(IntToDecimal(n)) == n
  {
    if n < 0 {
      var s := "-" + NatToDecimal(-n);
      assert s[1..] == NatToDecimal(-n);
      NatToDecimalRoundTrip(-n);
    } else {
      NatToDecimalRoundTrip(n);
    }
  }

  /**
   * A string primitive is its own search key, and two different numbers never
   * share a search key.
   */
  lemma InterpolateKeys(p: Primitive, q: Primitive)
    ensures p.Str? ==> Interpolate(p) == p.s
    ensures p.Num? && q.Num? && p.n != q.n ==> Interpolate(p) != Interpolate(q)
  {
    if p.Num? && q.Num? {
      IntToDecimalRoundTrip(p.n);
      IntToDecimalRoundTrip(q.n);
    }
  }
}
