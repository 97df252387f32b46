/** Conversions between integers and strings: `String(n)` for an integer n, and
    the part of `Number(s)` that reads a signed decimal numeral. */
module Numbers {
  import opened Seqs
  import opened Text

  predicate IsDigit(c: char) { '0' <= c <= '9' }

  predicate AllDigits(s: string) { forall k :: 0 <= k < |s| ==> IsDigit(s[k]) }

  function DigitChar(d: int): (c: char)
    requires 0 <= d < 10
    ensures IsDigit(c) && c as int - '0' as int == d
  {
    (d + '0' as int) as char
  }

  /** The decimal digits of n, most significant first, without leading zeros. */
  function Digits(n: nat): (r: string)
    ensures |r| >= 1 && AllDigits(r)
    ensures |r| > 1 ==> r[0] != '0'
  {
    if n < 10 then [DigitChar(n)] else Digits(n / 10) + [DigitChar(n % 10)]
  }

  /** `String(n)` for an integer n of moderate size. */
  function DecimalString(n: int): (r: string)
    ensures |r| >= 1 && (IsDigit(r[0]) || r[0] == '-')
  {
    if n < 0 then "-" + Digits(-n) else Digits(n)
  }

  /** The value of a string of decimal digits (the empty string reads as 0). */
  function DigitsValue(s: string): (v: nat)
    requires AllDigits(s)
  {
    if s == [] then 0 else 10 * DigitsValue(s[..|s| - 1]) + (s[|s| - 1] as int - '0' as int)
  }

  function Pow10(k: nat): (p: nat)
    ensures p >= 1
  {
    if k == 0 then 1 else 10 * Pow10(k - 1)
  }

  /** Position of the first '.' in s, or |s| when there is none. */
  function IndexOfDot(s: string): (i: nat)
    ensures i <= |s|
    ensures i < |s| ==> s[i] == '.'
    ensures forall k :: 0 <= k < i ==> s[k] != '.'
  {
    if s == [] then 0 else if s[0] == '.' then 0 else 1 + IndexOfDot(s[1..])
  }

  /** An unsigned numeral: digits, optionally followed by '.' and more digits,
      with at least one digit in all. */
  function ParseUnsigned(u: string): Option<real>
  {
    var p := IndexOfDot(u);
    var whole := u[..p];
    var frac := if p < |u| then u[p + 1..] else "";
    if AllDigits(whole) && AllDigits(frac) && |whole| + |frac| >= 1 then
      Some(DigitsValue(whole) as real + DigitsValue(frac) as real / Pow10(|frac|) as real)
    else None
  }

  /** `Number(s)` for decimal numerals: surrounding white space is ignored, the
      empty string reads as 0, and None stands for NaN. */
  function ParseNumber(s: string): Option<real>
  {
    var t := Trim(s);
    if t == [] then Some(0.0)
    else if t[0] == '-' then
      match ParseUnsigned(t[1..])
      case Some(v) => Some(-v)
      case None => None
    else if t[0] == '+' then ParseUnsigned(t[1..])
    else ParseUnsigned(t)
  }

  lemma {:induction false} DigitsValueOfDigits(n: nat)
    ensures DigitsValue(Digits(n)) == n
  {
    if n >= 10 {
      var ds := Digits(n);
      assert ds[..|ds| - 1] == Digits(n / 10);
      DigitsValueOfDigits(n / 10);
    }
  }

  lemma UnsignedOfDigits(n: nat)
    ensures ParseUnsigned(Digits(n)) == Some(n as real)
  {
    var ds := Digits(n);
    assert IndexOfDot(ds) == |ds|;
    assert ds[..|ds|] == ds;
    DigitsValueOfDigits(n);
  }

  /** Reading back what `String(n)` prints gives n. */
  lemma ParseDecimalString(n: int)
    ensures ParseNumber(DecimalString(n)) == Some(n as real)
  {
    var s := DecimalString(n);
    DecimalStringHasNoSpace(n);
    NoSpaceTrim(s);
    if n < 0 {
      assert s[0] == '-' && s[1..] == Digits(-n);
      UnsignedOfDigits(-n);
    } else {
      assert IsDigit(s[0]);
      UnsignedOfDigits(n);
    }
  }

  lemma DecimalStringHasNoSpace(n: int)
    ensures forall k :: 0 <= k < |DecimalString(n)| ==> !IsSpace(DecimalString(n)[k])
  {
    var s := DecimalString(n);
    forall k | 0 <= k < |s| ensures !IsSpace(s[k]) {
      if n >= 0 {
        assert IsDigit(Digits(n)[k]);
      } else if k > 0 {
        assert s[k] == Digits(-n)[k - 1];
        assert IsDigit(Digits(-n)[k - 1]);
      }
    }
  }

  /** Different integers print differently. */
  lemma DecimalStringInjective(a: int, b: int)
    ensures DecimalString(a) == DecimalString(b) <==> a == b
  {
    if DecimalString(a) == DecimalString(b) {
      ParseDecimalString(a);
      ParseDecimalString(b);
    }
  }
}
