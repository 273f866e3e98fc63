/**
 * Decimal text of integers, as `std::ostream` writes an `int` or a `uint32_t`
 * (and, in this model, the integral values that stand for the source's doubles).
 * `ParseInt` reads such text back and is the partner of `IntToStr`.
 */
module Decimal {
  import opened Wrappers

  predicate IsDigit(c: char) { '0' <= c <= '9' }

  predicate IsDigits(s: string) { forall i :: 0 <= i < |s| ==> IsDigit(s[i]) }

  function DigitChar(d: nat): (c: char)
    requires d < 10
    ensures IsDigit(c) && DigitValue(c) == d
  {
    ('0' as int + d) as char
  }

  function DigitValue(c: char): (d: nat)
    requires IsDigit(c)
    ensures d < 10
  {
    c as int - '0' as int
  }

  /** Digits of `n`, most significant first, with no leading zero. */
  function NatToStr(n: nat): (s: string)
    ensures |s| > 0 && IsDigits(s)
    ensures s[0] == '0' ==> n == 0 && s == "0"
    decreases n
  {
    if n < 10 then [DigitChar(n)] else NatToStr(n / 10) + [DigitChar(n % 10)]
  }

  /** `ostream << int`: a minus sign for negative values, then the digits. */
  function IntToStr(n: int): (s: string)
    ensures |s| > 0
    ensures s[0] == '-' <==> n < 0
    ensures s[0] == '0' ==> n == 0 && s == "0"
    ensures n < 0 ==> |s| > 1 && s[1] != '0'
    ensures forall i :: 0 <= i < |s| ==> IsDigit(s[i]) || (i == 0 && s[i] == '-')
  {
    if n < 0 then "-" + NatToStr(-n) else NatToStr(n)
  }

  /** Value of a non-empty digit string. */
  function ParseNat(s: string): nat
    requires |s| > 0 && IsDigits(s)
  {
    if |s| == 1 then DigitValue(s[0])
    else ParseNat(s[..|s| - 1]) * 10 + DigitValue(s[|s| - 1])
  }

  /** Reads an optional minus sign and a non-empty digit string. */
  function ParseInt(s: string): Option<int>
  {
    if |s| > 1 && s[0] == '-' && IsDigits(s[1..]) then Some(0 - ParseNat(s[1..]) as int)
    else if |s| > 0 && IsDigits(s) then Some(ParseNat(s))
    else None
  }

  lemma {:induction false} ParseNatToStr(n: nat)
    ensures ParseNat(NatToStr(n)) == n
    decreases n
  {
    if n >= 10 {
      var s := NatToStr(n);
      assert s[..|s| - 1] == NatToStr(n / 10);
      ParseNatToStr(n / 10);
    }
  }

  /** Decimal text reads back to the integer it was written from. */
  lemma IntToStrRoundTrip(n: int)
    ensures ParseInt(IntToStr(n)) == Some(n)
  {
    var s := IntToStr(n);
    if n < 0 {
      assert s[1..] == NatToStr(-n);
      ParseNatToStr(-n);
    } else {
      ParseNatToStr(n);
    }
  }

  /** Two integers with the same decimal text are equal. */
  lemma IntToStrInjective(m: int, n: int)
    requires IntToStr(m) == IntToStr(n)
    ensures m == n
  {
    IntToStrRoundTrip(m);
    IntToStrRoundTrip(n);
  }

  /** Decimal text holds none of the separators the SVG serialiser writes around it. */
  lemma IntToStrPlain(n: int)
    ensures '"' !in IntToStr(n) && ',' !in IntToStr(n) && ' ' !in IntToStr(n)
    ensures '=' !in IntToStr(n)
  {
    var s := IntToStr(n);
    forall i | 0 <= i < |s|
      ensures s[i] != '"' && s[i] != ',' && s[i] != ' ' && s[i] != '='
    {
    }
  }
}
