/**
 * Decimal and upper-case hexadecimal text of naturals, as Python's `str(n)` and
 * `f"{n:0wX}"` produce it (used for peer names and by the hexdump formatter).
 */
module Text {

  /** The digit character for d, upper case above 9. */
  function DigitChar(d: nat): (c: char)
    requires d < 16
    ensures DigitValue(c) == d
  {
    if d < 10 then ('0' as int + d) as char else ('A' as int + d - 10) as char
  }

  /** The value of a digit character, -1 for anything else. */
  function DigitValue(c: char): int {
    if '0' <= c <= '9' then c as int - '0' as int
    else if 'A' <= c <= 'F' then c as int - 'A' as int + 10
    else -1
  }

  lemma DivStep(n: nat, base: nat)
    requires 2 <= base <= 16 && n >= base
    ensures n == n / base * base + n % base && 0 <= n % base < base
    ensures 1 <= n / base < n
  {
  }

  /** The digits of n in `base`, most significant first, without leading zeros ("0" for 0). */
  function Digits(n: nat, base: nat): (r: string)
    requires 2 <= base <= 16
    ensures |r| >= 1
    ensures forall i :: 0 <= i < |r| ==> 0 <= DigitValue(r[i]) < base
    ensures r[0] == '0' ==> n == 0
    decreases n
  {
    if n < base then [DigitChar(n)]
    else
      DivStep(n, base);
      Digits(n / base, base) + [DigitChar(n % base)]
  }

  /** The number a digit string denotes in `base`. */
  function ValueOf(s: string, base: nat): int {
    if s == [] then 0 else ValueOf(s[..|s| - 1], base) * base + DigitValue(s[|s| - 1])
  }

  /** Reading the digits back gives the number. */
  lemma {:induction false} DigitsRoundTrip(n: nat, base: nat)
    requires 2 <= base <= 16
    ensures ValueOf(Digits(n, base), base) == n
    decreases n
  {
    if n >= base {
      DivStep(n, base);
      var s := Digits(n, base);
      assert s[..|s| - 1] == Digits(n / base, base);
      DigitsRoundTrip(n / base, base);
    }
  }

  /** str(n) */
  function Decimal(n: nat): (r: string)
    ensures |r| >= 1 && forall i :: 0 <= i < |r| ==> '0' <= r[i] <= '9'
    ensures ValueOf(r, 10) == n
  {
    DigitsRoundTrip(n, 10);
    Digits(n, 10)
  }

  /** k copies of '0'. */
  function Zeros(k: nat): (r: string)
    ensures |r| == k
  {
    if k == 0 then "" else "0" + Zeros(k - 1)
  }

  lemma {:induction false} ZerosAreZeros(k: nat)
    ensures forall i :: 0 <= i < k ==> Zeros(k)[i] == '0'
  {
    if k > 0 {
      ZerosAreZeros(k - 1);
    }
  }

  /** Right-justify `s` to `width` with '0' (the `0w` of a format spec). */
  function ZeroPad(s: string, width: nat): string {
    if |s| >= width then s else Zeros(width - |s|) + s
  }

  /** Leading zeros do not change the value. */
  lemma {:induction false} LeadingZeros(z: string, s: string, base: nat)
    requires forall i :: 0 <= i < |z| ==> z[i] == '0'
    ensures ValueOf(z + s, base) == ValueOf(s, base)
    decreases |s|, |z|
  {
    if s == [] {
      if z != [] {
        assert (z + s)[..|z| - 1] == z[..|z| - 1] + s;
        LeadingZeros(z[..|z| - 1], s, base);
      }
    } else {
      assert (z + s)[..|z + s| - 1] == z + s[..|s| - 1];
      LeadingZeros(z, s[..|s| - 1], base);
    }
  }

  /** f"{n:0{width}X}": upper-case hexadecimal, zero-padded to at least `width` digits. */
  function Hex(n: nat, width: nat): string {
    ZeroPad(Digits(n, 16), width)
  }

  /** The hex text is at least `width` hex digits long and reads back as n. */
  lemma HexValue(n: nat, width: nat)
    ensures var r := Hex(n, width);
      && |r| >= width && |r| >= 1
      && (forall i :: 0 <= i < |r| ==> 0 <= DigitValue(r[i]) < 16)
      && ValueOf(r, 16) == n
  {
    var d := Digits(n, 16);
    DigitsRoundTrip(n, 16);
    if |d| < width {
      var z := Zeros(width - |d|);
      ZerosAreZeros(width - |d|);
      LeadingZeros(z, d, 16);
      var r := z + d;
      forall i | 0 <= i < |r| ensures 0 <= DigitValue(r[i]) < 16 {
        if i >= |z| {
          assert r[i] == d[i - |z|];
        }
      }
    }
  }
}
