/** The cache key of a digest: Node's Buffer.toString('hex') (localdb/localdb.ts:24-26). */
module Hex {
  import opened Common

  predicate IsLowerHexDigit(c: char)
  {
    '0' <= c <= '9' || 'a' <= c <= 'f'
  }

  /** The lowercase digit for a nibble. */
  function HexDigit(n: int): (c: char)
    requires 0 <= n < 16
    ensures IsLowerHexDigit(c)
  {
    if n < 10 then ('0' as int + n) as char else ('a' as int + n - 10) as char
  }

  /** The nibble a lowercase digit stands for, or -1 for any other character. */
  function DigitValue(c: char): (v: int)
    ensures -1 <= v < 16
    ensures v == -1 <==> !IsLowerHexDigit(c)
  {
    if '0' <= c <= '9' then c as int - '0' as int
    else if 'a' <= c <= 'f' then c as int - 'a' as int + 10
    else -1
  }

  /** getDigestKey: two lowercase hex digits per byte, high nibble first. */
  function ToHex(s: Bytes): (r: string)
    ensures |r| == 2 * |s|
    ensures forall i :: 0 <= i < |r| ==> IsLowerHexDigit(r[i])
  {
    if s == [] then [] else [HexDigit(s[0] / 16), HexDigit(s[0] % 16)] + ToHex(s[1..])
  }

  /** Reads a hex key back into the bytes it names; None for anything ToHex cannot produce. */
  function FromHex(r: string): Option<Bytes>
  {
    if |r| == 0 then Some([])
    else if |r| == 1 then None
    else
      var hi, lo := DigitValue(r[0]), DigitValue(r[1]);
      if hi < 0 || lo < 0 then None
      else match FromHex(r[2..])
        case None => None
        case Some(rest) => Some([hi * 16 + lo] + rest)
  }

  lemma DigitRoundTrip(n: int)
    requires 0 <= n < 16
    ensures DigitValue(HexDigit(n)) == n
  {
  }

  /** Every key ToHex produces decodes back to the digest it came from. */
  lemma {:induction false} RoundTrip(s: Bytes)
    ensures FromHex(ToHex(s)) == Some(s)
  {
    if s != [] {
      var r := ToHex(s);
      DigitRoundTrip(s[0] / 16);
      DigitRoundTrip(s[0] % 16);
      assert r[2..] == ToHex(s[1..]);
      RoundTrip(s[1..]);
      assert [s[0] / 16 * 16 + s[0] % 16] + s[1..] == s;
    }
  }

  /** Distinct digests never share a cache key. */
  lemma Injective(a: Bytes, b: Bytes)
    ensures ToHex(a) == ToHex(b) ==> a == b
  {
    RoundTrip(a);
    RoundTrip(b);
  }
}
