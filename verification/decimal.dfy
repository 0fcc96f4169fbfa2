/** Decimal text: Go's `strconv.ParseInt(s, 10, 32)` and the `%d` verb of `fmt`. */
module Decimal {
  import opened Wrappers
  import opened Errors

  const MaxUint32: nat := 0xFFFF_FFFF
  const MinInt32: int := -0x8000_0000
  const MaxInt32: int := 0x7FFF_FFFF

  predicate IsDigit(c: char) {
    '0' <= c <= '9'
  }

  predicate AllDigits(s: string) {
    forall i :: 0 <= i < |s| ==> IsDigit(s[i])
  }

  function DigitValue(c: char): nat
    requires IsDigit(c)
  {
    (c as int) - ('0' as int)
  }

  function DigitChar(d: nat): (c: char)
    requires d < 10
    ensures IsDigit(c) && DigitValue(c) == d
  {
    (('0' as int) + d) as char
  }

  function Pow10(n: nat): nat {
    if n == 0 then 1 else 10 * Pow10(n - 1)
  }

  /** The number a string of digits denotes (leading zeros allowed). */
  function Value(s: string): nat
    requires AllDigits(s)
  {
    if s == [] then 0 else DigitValue(s[0]) * Pow10(|s| - 1) + Value(s[1..])
  }

  /** Appending a digit multiplies by ten and adds it. */
  lemma {:induction false} ValueSnoc(s: string, c: char)
    requires AllDigits(s) && IsDigit(c)
    ensures AllDigits(s + [c])
    ensures Value(s + [c]) == 10 * Value(s) + DigitValue(c)
    decreases |s|
  {
    assert AllDigits(s + [c]);
    if s != [] {
      assert (s + [c])[1..] == s[1..] + [c];
      ValueSnoc(s[1..], c);
      calc {
        Value(s + [c]);
        DigitValue(s[0]) * Pow10(|s|) + Value(s[1..] + [c]);
        DigitValue(s[0]) * (10 * Pow10(|s| - 1)) + 10 * Value(s[1..]) + DigitValue(c);
        { assert DigitValue(s[0]) * (10 * Pow10(|s| - 1)) == 10 * (DigitValue(s[0]) * Pow10(|s| - 1)); }
        10 * Value(s) + DigitValue(c);
      }
    }
  }

  /** `fmt.Sprintf("%d", n)` for a natural number: shortest decimal text. */
  function FormatNat(n: nat): (s: string)
    ensures |s| > 0 && AllDigits(s)
    ensures |s| > 1 ==> s[0] != '0'
    decreases n
  {
    if n < 10 then [DigitChar(n)] else FormatNat(n / 10) + [DigitChar(n % 10)]
  }

  /** The text `FormatNat` produces reads back as the same number. */
  lemma {:induction false} FormatNatValue(n: nat)
    ensures Value(FormatNat(n)) == n
    decreases n
  {
    if n >= 10 {
      FormatNatValue(n / 10);
      ValueSnoc(FormatNat(n / 10), DigitChar(n % 10));
    }
  }

  /** `fmt.Sprintf("%d", n)`: a minus sign for negative numbers, then the digits. */
  function FormatInt(n: int): (s: string)
    ensures |s| > 0
    ensures s[0] == '-' <==> n < 0
  {
    if n < 0 then "-" + FormatNat(-n) else FormatNat(n)
  }

  /** The digit loop of Go's `strconv.ParseUint(s, 10, 32)`: a non-digit is a
      syntax error; the moment the value read so far exceeds 2^32-1 it is a range
      error, even if a non-digit follows. */
  function ScanUint32(s: string, acc: nat): (r: Result<nat, Reason>)
    ensures r.Err? ==> r.error == Syntax || r.error == Range
    decreases |s|
  {
    if s == [] then Ok(acc)
    else if !IsDigit(s[0]) then Err(Syntax)
    else if acc * 10 + DigitValue(s[0]) > MaxUint32 then Err(Range)
    else ScanUint32(s[1..], acc * 10 + DigitValue(s[0]))
  }

  /** Go's `strconv.ParseInt(s, 10, 32)`: an optional `+` or `-`, then base-10
      digits (no `_`, no prefix), the value within the int32 range. */
  function ParseInt32(s: string): (r: Result<int, Reason>)
    ensures r.Ok? ==> MinInt32 <= r.value <= MaxInt32
    ensures r.Err? ==> r.error == Syntax || r.error == Range
  {
    if s == [] then Err(Syntax)
    else
      var neg := s[0] == '-';
      var body := if s[0] == '+' || s[0] == '-' then s[1..] else s;
      if body == [] then Err(Syntax)
      else match ScanUint32(body, 0)
        case Err(e) => Err(e)
        case Ok(un) =>
          if !neg && un >= 0x8000_0000 then Err(Range)
          else if neg && un > 0x8000_0000 then Err(Range)
          else if neg then Ok(-(un as int)) else Ok(un)
  }

  /** The shape ParseInt accepts before the range check: optional sign, then at
      least one digit. */
  predicate IsSignedDecimal(s: string) {
    |s| > 0 &&
    var body := Unsigned(s);
    |body| > 0 && AllDigits(body)
  }

  function Unsigned(s: string): string {
    if |s| > 0 && (s[0] == '+' || s[0] == '-') then s[1..] else s
  }

  function SignedValue(s: string): int
    requires IsSignedDecimal(s)
  {
    if s[0] == '-' then -(Value(Unsigned(s)) as int) else Value(Unsigned(s))
  }

  /** The scan loop returns the number exactly when every character is a digit
      and the number fits in 32 bits. */
  lemma {:induction false} ScanUint32Value(s: string, acc: nat)
    requires acc <= MaxUint32
    ensures ScanUint32(s, acc).Ok? <==> AllDigits(s) && acc * Pow10(|s|) + Value(s) <= MaxUint32
    ensures ScanUint32(s, acc).Ok? ==> ScanUint32(s, acc).value == acc * Pow10(|s|) + Value(s)
    decreases |s|
  {
    if s != [] {
      if !IsDigit(s[0]) {
        assert !AllDigits(s);
      } else {
        var n := acc * 10 + DigitValue(s[0]);
        AllDigitsCons(s);
        if AllDigits(s) {
          ShiftDigit(s, acc);
        }
        if n <= MaxUint32 {
          ScanUint32Value(s[1..], n);
        }
      }
    }
  }

  lemma AllDigitsCons(s: string)
    requires |s| > 0 && IsDigit(s[0])
    ensures AllDigits(s) <==> AllDigits(s[1..])
  {
    if AllDigits(s[1..]) {
      forall i | 0 <= i < |s| ensures IsDigit(s[i]) {
        if i > 0 { assert s[i] == s[1..][i - 1]; }
      }
    }
  }

  /** Reading the first digit into the accumulator keeps the total, and the
      total is at least the new accumulator. */
  lemma ShiftDigit(s: string, acc: nat)
    requires |s| > 0 && AllDigits(s)
    ensures acc * Pow10(|s|) + Value(s)
         == (acc * 10 + DigitValue(s[0])) * Pow10(|s| - 1) + Value(s[1..])
    ensures acc * Pow10(|s|) + Value(s) >= acc * 10 + DigitValue(s[0])
  {
    ValueCons(s);
    PowPositive(|s| - 1);
    Distribute(acc, DigitValue(s[0]), Pow10(|s| - 1), Pow10(|s|), Value(s[1..]));
  }

  /** The first digit's weight, split off. */
  lemma ValueCons(s: string)
    requires |s| > 0 && AllDigits(s)
    ensures AllDigits(s[1..])
    ensures Pow10(|s|) == 10 * Pow10(|s| - 1)
    ensures Value(s) == DigitValue(s[0]) * Pow10(|s| - 1) + Value(s[1..])
  {
    AllDigitsCons(s);
  }

  /** `a * 10p + (d * p + v) == (10a + d) * p + v`, which is at least `10a + d`
      when `p >= 1`. */
  lemma Distribute(a: nat, d: nat, p: nat, q: nat, v: nat)
    requires p >= 1 && q == 10 * p
    ensures a * q + (d * p + v) == (a * 10 + d) * p + v
    ensures (a * 10 + d) * p + v >= a * 10 + d
  {
    assert a * q == (a * 10) * p;
    assert (a * 10 + d) * p == (a * 10) * p + d * p;
  }

  lemma {:induction false} PowPositive(n: nat)
    ensures Pow10(n) >= 1
  {
    if n > 0 { PowPositive(n - 1); }
  }

  /** ParseInt32 succeeds exactly on well-formed text whose value is an int32,
      and then returns that value. */
  lemma ParseInt32Spec(s: string)
    ensures ParseInt32(s).Ok? <==> IsSignedDecimal(s) && MinInt32 <= SignedValue(s) <= MaxInt32
    ensures ParseInt32(s).Ok? ==> ParseInt32(s).value == SignedValue(s)
  {
    if s != [] {
      var body := Unsigned(s);
      if body != [] {
        ScanUint32Value(body, 0);
        assert 0 * Pow10(|body|) == 0;
      }
    }
  }

  /** `%d` and ParseInt are inverse on the int32 range. */
  lemma ParseFormatInt32(n: int)
    requires MinInt32 <= n <= MaxInt32
    ensures ParseInt32(FormatInt(n)) == Ok(n)
  {
    var s := FormatInt(n);
    var m := if n < 0 then -n else n;
    FormatNatValue(m);
    assert Unsigned(s) == FormatNat(m);
    ParseInt32Spec(s);
  }
}
