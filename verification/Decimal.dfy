/** Decimal numbers as text, the way `std::to_string`, `<<` and `printf` print them. */
module Decimal {

  predicate IsDigit(c: char) {
    '0' <= c <= '9'
  }

  predicate AllDigits(s: string) {
    forall k :: 0 <= k < |s| ==> IsDigit(s[k])
  }

  function DigitChar(d: nat): (c: char)
    requires d < 10
    ensures IsDigit(c) && DigitValue(c) == d
  {
    (d + 48) as char
  }

  function DigitValue(c: char): (d: nat)
    ensures d < 10
  {
    if IsDigit(c) then c as int - 48 else 0
  }

  function NatToString(n: nat): (s: string)
    ensures s != "" && AllDigits(s)
  {
    if n < 10 then [DigitChar(n)] else NatToString(n / 10) + [DigitChar(n % 10)]
  }

  function IntToString(n: int): string {
    if n < 0 then "-" + NatToString(-n) else NatToString(n)
  }

  /** The number a string of digits stands for. */
  function Value(s: string): nat {
    if s == "" then 0 else Value(s[..|s| - 1]) * 10 + DigitValue(s[|s| - 1])
  }

  lemma {:induction false} ValueOfNat(n: nat)
    ensures Value(NatToString(n)) == n
  {
    if n >= 10 {
      ValueOfNat(n / 10);
      var s := NatToString(n);
      assert s[..|s| - 1] == NatToString(n / 10);
    }
  }

  /** `printf("%0<width>u")`. */
  function Padded(n: nat, width: nat): (s: string)
    ensures s != "" && AllDigits(s)
    ensures |NatToString(n)| <= width ==> |s| == width
  {
    var digits := NatToString(n);
    seq(if |digits| < width then width - |digits| else 0, _ => '0') + digits
  }

  lemma {:induction false} LeadingZeros(zeros: nat, s: string)
    ensures Value(seq(zeros, _ => '0') + s) == Value(s)
  {
    var z := seq(zeros, _ => '0');
    if s == "" {
      assert z + s == z;
      if zeros > 0 {
        LeadingZeros(zeros - 1, s);
        assert z[..|z| - 1] == seq(zeros - 1, _ => '0') + s;
      }
    } else {
      LeadingZeros(zeros, s[..|s| - 1]);
      assert (z + s)[..|z + s| - 1] == z + s[..|s| - 1];
    }
  }

  /** The number read back from its zero-padded print is the number. */
  lemma ValueOfPadded(n: nat, width: nat)
    ensures Value(Padded(n, width)) == n
  {
    var digits := NatToString(n);
    LeadingZeros(if |digits| < width then width - |digits| else 0, digits);
    ValueOfNat(n);
  }

  function Pow10(e: nat): (p: nat)
    ensures p > 0
  {
    if e == 0 then 1 else 10 * Pow10(e - 1)
  }

  /** A number below 10^width has at most `width` digits. */
  lemma {:induction false} DigitCount(n: nat, width: nat)
    requires width > 0 && n < Pow10(width)
    ensures |NatToString(n)| <= width
  {
    if n >= 10 {
      assert Pow10(0) == 1;
      assert Pow10(1) == 10;
      DigitCount(n / 10, width - 1);
    }
  }
}
