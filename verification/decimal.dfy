/** Decimal rendering of playlist positions, as Python's `f"{index:02d}"`
    produces it: the decimal digits of the index, left-padded with `0` to at
    least two characters. */
module Decimal {

  predicate IsDigit(c: char)
  {
    '0' <= c <= '9'
  }

  ghost predicate AllDigits(s: string)
  {
    forall i :: 0 <= i < |s| ==> IsDigit(s[i])
  }

  function DigitChar(d: nat): (c: char)
    requires d < 10
    ensures IsDigit(c)
  {
    (48 + d) as char
  }

  function DigitValue(c: char): (d: nat)
    requires IsDigit(c)
    ensures d < 10 && DigitChar(d) == c
  {
    c as int - 48
  }

  /** The value a string of decimal digits denotes; leading zeros are allowed. */
  function ParseDecimal(s: string): nat
    requires AllDigits(s)
  {
    if |s| == 0 then 0 else ParseDecimal(s[..|s| - 1]) * 10 + DigitValue(s[|s| - 1])
  }

  /** Python's `str(n)` for a non-negative integer. */
  function NatToDecimal(n: nat): (r: string)
    ensures |r| >= 1 && AllDigits(r)
    ensures |r| > 1 ==> r[0] != '0'
    ensures ParseDecimal(r) == n
    decreases n
  {
    if n < 10 then [DigitChar(n)]
    else
      var prefix := NatToDecimal(n / 10);
      var r := prefix + [DigitChar(n % 10)];
      assert r[..|r| - 1] == prefix;
      r
  }

  /** `s` left-padded with `pad` to at least `width` characters. */
  function PadLeft(s: string, width: nat, pad: char): (r: string)
    ensures |r| == if |s| >= width then |s| else width
    ensures r[|r| - |s|..] == s
    ensures forall i :: 0 <= i < |r| - |s| ==> r[i] == pad
  {
    if |s| >= width then s
    else
      var fill := seq(width - |s|, _ => pad);
      assert (fill + s)[|fill|..] == s;
      fill + s
  }

  /** The format specification `02d` applied to a non-negative integer. */
  function FormatIndex(n: nat): (r: string)
    ensures AllDigits(r) && |r| >= 2
    ensures |r| == if n < 10 then 2 else |NatToDecimal(n)|
    ensures ParseDecimal(r) == n
  {
    var digits := NatToDecimal(n);
    var r := PadLeft(digits, 2, '0');
    assert r == r[..|r| - |digits|] + digits;
    ParseWithLeadingZeros(r[..|r| - |digits|], digits);
    r
  }

  /** Leading zeros do not change the value of a digit string. */
  lemma {:induction false} ParseWithLeadingZeros(zeros: string, s: string)
    requires forall i :: 0 <= i < |zeros| ==> zeros[i] == '0'
    requires AllDigits(s)
    ensures AllDigits(zeros + s) && ParseDecimal(zeros + s) == ParseDecimal(s)
    decreases |s|
  {
    if |s| == 0 {
      assert zeros + s == zeros;
      AllZerosParseToZero(zeros);
    } else {
      var t := zeros + s;
      assert t[..|t| - 1] == zeros + s[..|s| - 1];
      ParseWithLeadingZeros(zeros, s[..|s| - 1]);
    }
  }

  lemma {:induction false} AllZerosParseToZero(zeros: string)
    requires forall i :: 0 <= i < |zeros| ==> zeros[i] == '0'
    ensures AllDigits(zeros) && ParseDecimal(zeros) == 0
    decreases |zeros|
  {
    if |zeros| > 0 {
      AllZerosParseToZero(zeros[..|zeros| - 1]);
    }
  }

  /** Distinct indices never share a prefix, so the prefix identifies the item. */
  lemma FormatIndexInjective(m: nat, n: nat)
    ensures FormatIndex(m) == FormatIndex(n) <==> m == n
  {
  }

  /** From two digits on, padding adds nothing: the rendering is plain `str(n)`. */
  lemma FormatIndexUnpadded(n: nat)
    requires n >= 10
    ensures FormatIndex(n) == NatToDecimal(n)
  {
    var d := NatToDecimal(n);
    assert |d| >= 2;
  }

  lemma FormatIndexPadsOneDigit()
    ensures FormatIndex(3) == "03"
  {
    assert NatToDecimal(3) == "3";
    assert PadLeft("3", 2, '0') == "03";
  }

  lemma FormatIndexKeepsWideIndex()
    ensures FormatIndex(100) == "100"
  {
    assert NatToDecimal(100) == "100" by {
      assert NatToDecimal(1) == "1";
      assert NatToDecimal(10) == "10";
    }
  }
}
