/** `fmt.Sprintf("%X", bytes)`: two upper-case hexadecimal digits per byte. */
module Hex {
  import opened Wrappers
  import opened Text

  const Digits: string := "0123456789ABCDEF"

  function HexDigitValue(c: char): Option<nat> {
    if '0' <= c <= '9' then Some((c as int) - ('0' as int))
    else if 'A' <= c <= 'F' then Some((c as int) - ('A' as int) + 10)
    else None
  }

  /** The `%X` rendering of a byte slice; an empty slice renders as "". */
  function UpperHex(bs: seq<byte>): (s: string)
    ensures |s| == 2 * |bs|
    decreases |bs|
  {
    if bs == [] then ""
    else [Digits[bs[0] / 16], Digits[bs[0] % 16]] + UpperHex(bs[1..])
  }

  /** Reads `%X` text back into bytes; None for odd length or a foreign character. */
  function DecodeHex(s: string): Option<seq<byte>>
    decreases |s|
  {
    if s == [] then Some([])
    else if |s| == 1 then None
    else
      var hi, lo, rest := HexDigitValue(s[0]), HexDigitValue(s[1]), DecodeHex(s[2..]);
      if hi.Some? && lo.Some? && rest.Some? then Some([(hi.value * 16 + lo.value) as byte] + rest.value)
      else None
  }

  /** The `key` text determines the cipher text: decoding inverts `%X`. */
  lemma {:induction false} DecodeUpperHex(bs: seq<byte>)
    ensures DecodeHex(UpperHex(bs)) == Some(bs)
    decreases |bs|
  {
    if bs != [] {
      var s := UpperHex(bs);
      var hi, lo := bs[0] / 16, bs[0] % 16;
      DecodeUpperHex(bs[1..]);
      assert s[2..] == UpperHex(bs[1..]);
      DigitRoundTrip(hi);
      DigitRoundTrip(lo);
      assert s[0] == Digits[hi] && s[1] == Digits[lo];
      assert hi * 16 + lo == bs[0];
      assert DecodeHex(s) == Some([bs[0]] + bs[1..]);
      assert [bs[0]] + bs[1..] == bs;
    }
  }

  lemma DigitRoundTrip(d: nat)
    requires d < 16
    ensures HexDigitValue(Digits[d]) == Some(d)
  {
  }
}
