/** The IPv4 part of Go's `net.ParseIP`: four dot-separated decimal fields,
    each 0..255, without leading zeros. */
module Address {
  import opened Wrappers
  import opened Text
  import opened Decimal

  datatype IPv4 = IPv4(a: byte, b: byte, c: byte, d: byte)

  /** One field of a dotted quad: digits, no leading zero, at most 255. */
  predicate IsOctet(p: string) {
    |p| > 0 && AllDigits(p) && (|p| == 1 || p[0] != '0') && Value(p) <= 255
  }

  function Octet(p: string): byte
    requires IsOctet(p)
  {
    Value(p)
  }

  /** `net.ParseIP(addr) != nil` restricted to IPv4 text. */
  function ParseIPv4(s: string): (r: Option<IPv4>)
    ensures r.Some? <==> Count(s, '.') == 3 && forall p :: p in Split(s, '.') ==> IsOctet(p)
    ensures r.Some? ==> FormatIPv4(r.value) == s
  {
    var parts := Split(s, '.');
    if |parts| == 4 && IsOctet(parts[0]) && IsOctet(parts[1]) && IsOctet(parts[2]) && IsOctet(parts[3])
    then
      var ip := IPv4(Octet(parts[0]), Octet(parts[1]), Octet(parts[2]), Octet(parts[3]));
      FormatValue(parts[0]);
      FormatValue(parts[1]);
      FormatValue(parts[2]);
      FormatValue(parts[3]);
      assert parts == [parts[0], parts[1], parts[2], parts[3]];
      JoinSplit(s, '.');
      Some(ip)
    else
      assert |parts| == 4 ==> parts[0] in parts && parts[1] in parts && parts[2] in parts && parts[3] in parts;
      None
  }

  /** A canonical field is exactly the `%d` text of its value. */
  lemma {:induction false} FormatValue(p: string)
    requires IsOctet(p)
    ensures FormatNat(Value(p)) == p
  {
    CanonicalFormat(p);
  }

  lemma {:induction false} CanonicalFormat(p: string)
    requires |p| > 0 && AllDigits(p) && (|p| == 1 || p[0] != '0')
    ensures FormatNat(Value(p)) == p
    decreases |p|
  {
    if |p| == 1 {
      assert Value(p) == DigitValue(p[0]);
    } else {
      var q, c := p[..|p| - 1], p[|p| - 1];
      assert p == q + [c];
      assert q[0] == p[0];
      ValueSnoc(q, c);
      LeadingDigitBound(q);
      CanonicalFormat(q);
      var v := Value(p);
      assert v / 10 == Value(q) && v % 10 == DigitValue(c);
    }
  }

  lemma LeadingDigitBound(q: string)
    requires |q| > 0 && AllDigits(q) && q[0] != '0'
    ensures Value(q) >= 1
  {
    PowPositive(|q| - 1);
    assert DigitValue(q[0]) >= 1;
    assert DigitValue(q[0]) * Pow10(|q| - 1) >= 1;
  }

  /** `IP.String()` for an IPv4 address. */
  function FormatIPv4(ip: IPv4): string {
    Join([FormatNat(ip.a), FormatNat(ip.b), FormatNat(ip.c), FormatNat(ip.d)], '.')
  }

  /** Every IPv4 address, written in dotted form, parses back to itself. */
  lemma ParseFormatIPv4(ip: IPv4)
    ensures ParseIPv4(FormatIPv4(ip)) == Some(ip)
  {
    var parts := [FormatNat(ip.a), FormatNat(ip.b), FormatNat(ip.c), FormatNat(ip.d)];
    forall i | 0 <= i < 4 ensures '.' !in parts[i] {
      assert AllDigits(parts[i]);
    }
    SplitJoin(parts, '.');
    FormatNatValue(ip.a);
    FormatNatValue(ip.b);
    FormatNatValue(ip.c);
    FormatNatValue(ip.d);
  }
}
