/** Decimal rendering of an unsigned integer, as Rust's `u64::to_string`
    produces it for the ticket number: ASCII digits, most significant first,
    no leading zeros, and "0" for zero. */
module Decimal {
  import opened Base

  /** The byte `'0'`. */
  const ZeroDigit: byte := 48

  predicate IsDigit(b: byte) {
    48 <= b <= 57
  }

  function DigitValue(b: byte): (d: nat)
    requires IsDigit(b)
    ensures d < 10
  {
    (b - 48) as nat
  }

  function DigitByte(d: nat): (b: byte)
    requires d < 10
    ensures IsDigit(b) && DigitValue(b) == d
  {
    (48 + d) as byte
  }

  predicate AllDigits(s: seq<byte>) {
    forall i :: 0 <= i < |s| ==> IsDigit(s[i])
  }

  /** A string `to_string` can produce: non-empty, digits only, and a
      leading `'0'` only in the string "0" itself. */
  predicate IsCanonical(s: seq<byte>) {
    |s| >= 1 && AllDigits(s) && (s[0] == ZeroDigit ==> |s| == 1)
  }

  /** `n.to_string().as_bytes()`. */
  function NatToDecimal(n: nat): (r: seq<byte>)
    ensures IsCanonical(r)
    ensures r == [ZeroDigit] <==> n == 0
    decreases n
  {
    if n < 10 then [DigitByte(n)] else NatToDecimal(n / 10) + [DigitByte(n % 10)]
  }

  /** The number a string of digits denotes: the reference reading of a
      decimal string, independent of how `NatToDecimal` builds one. */
  function DecimalValue(s: seq<byte>): nat
    requires AllDigits(s)
  {
    if s == [] then 0 else DecimalValue(s[..|s| - 1]) * 10 + DigitValue(s[|s| - 1])
  }

  /** Reading back a rendered number gives the number. */
  lemma {:induction false} DecimalRoundTrip(n: nat)
    ensures DecimalValue(NatToDecimal(n)) == n
    decreases n
  {
    if n >= 10 {
      var p := NatToDecimal(n / 10);
      var r := NatToDecimal(n);
      assert r == p + [DigitByte(n % 10)];
      assert r[..|r| - 1] == p;
      DecimalRoundTrip(n / 10);
    }
  }

  /** A canonical string with a non-zero first digit denotes a positive number. */
  lemma {:induction false} LeadingDigitPositive(s: seq<byte>)
    requires |s| >= 1 && AllDigits(s) && s[0] != ZeroDigit
    ensures DecimalValue(s) >= 1
    decreases |s|
  {
    if |s| > 1 {
      var p := s[..|s| - 1];
      assert p[0] == s[0];
      LeadingDigitPositive(p);
    }
  }

  /** Every canonical string is the rendering of the number it denotes, so
      `NatToDecimal` is onto the canonical strings. */
  lemma {:induction false} CanonicalRoundTrip(s: seq<byte>)
    requires IsCanonical(s)
    ensures NatToDecimal(DecimalValue(s)) == s
    decreases |s|
  {
    var p, d := s[..|s| - 1], s[|s| - 1];
    if |s| == 1 {
      assert DigitByte(DigitValue(d)) == d;
      assert s == [d];
    } else {
      assert p[0] == s[0];
      assert IsCanonical(p);
      LeadingDigitPositive(p);
      CanonicalRoundTrip(p);
      var v := DecimalValue(s);
      assert v == DecimalValue(p) * 10 + DigitValue(d);
      assert v / 10 == DecimalValue(p) && v % 10 == DigitValue(d);
      assert DigitByte(DigitValue(d)) == d;
      assert s == p + [d];
    }
  }

  /** Distinct numbers render as distinct strings. */
  lemma NatToDecimalInjective(a: nat, b: nat)
    requires NatToDecimal(a) == NatToDecimal(b)
    ensures a == b
  {
    DecimalRoundTrip(a);
    DecimalRoundTrip(b);
  }
}
