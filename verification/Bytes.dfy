/** Text as bytes, and numbers in it. */
module Bytes {
  type byte = x: int | 0 <= x < 256

  function Ascii(s: string): seq<byte> {
    seq(|s|, i requires 0 <= i < |s| => s[i] as int % 256)
  }

  /** `n` in decimal, as `write!` formats it. */
  function Decimal(n: nat): seq<byte> {
    if n < 10 then [48 + n] else Decimal(n / 10) + [48 + n % 10]
  }

  function FromDecimal(bs: seq<byte>): int {
    if bs == [] then 0 else 10 * FromDecimal(bs[..|bs| - 1]) + bs[|bs| - 1] - 48
  }

  lemma {:induction false} DecimalRoundTrip(n: nat)
    ensures FromDecimal(Decimal(n)) == n
    ensures forall b <- Decimal(n) :: 48 <= b < 58
  {
    if n >= 10 {
      DecimalRoundTrip(n / 10);
      assert Decimal(n)[..|Decimal(n)| - 1] == Decimal(n / 10);
    }
  }
}
