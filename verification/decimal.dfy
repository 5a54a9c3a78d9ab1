/** Python's decimal rendering of integers: str(i) / f"{i}" for a non-negative i,
    and the zero-padded format f"{n:0Wd}", whose width W counts the sign. The
    parser beside each is the partner that shows nothing is lost. */
module Decimal {

  predicate IsDigit(c: char)
  {
    '0' <= c <= '9'
  }

  predicate AllDigits(s: string)
  {
    forall k :: 0 <= k < |s| ==> IsDigit(s[k])
  }

  function DigitChar(d: nat): (c: char)
    requires d < 10
    ensures IsDigit(c) && c as int - '0' as int == d
  {
    ('0' as int + d) as char
  }

  /** str(n) for n >= 0: no leading zeros, at least one digit. */
  function Digits(n: nat): (s: string)
    ensures |s| >= 1 && AllDigits(s)
    ensures |s| > 1 ==> s[0] != '0'
    decreases n
  {
    if n < 10 then [DigitChar(n)] else Digits(n / 10) + [DigitChar(n % 10)]
  }

  /** int(s) for a string of decimal digits (leading zeros allowed). */
  function ParseDigits(s: string): nat
    requires AllDigits(s)
  {
    if |s| == 0 then 0
    else
      assert AllDigits(s[..|s| - 1]);
      ParseDigits(s[..|s| - 1]) * 10 + (s[|s| - 1] as int - '0' as int)
  }

  lemma {:induction false} ParseDigitsOfDigits(n: nat)
    ensures ParseDigits(Digits(n)) == n
    decreases n
  {
    if n >= 10 {
      var s := Digits(n);
      assert s[..|s| - 1] == Digits(n / 10);
      ParseDigitsOfDigits(n / 10);
    }
  }

  function Zeros(k: nat): (s: string)
    ensures |s| == k && AllDigits(s)
    ensures forall i :: 0 <= i < k ==> s[i] == '0'
  {
    seq(k, _ => '0')
  }

  /** Leading zeros do not change the value of a digit string. */
  lemma {:induction false} ParseLeadingZeros(k: nat, s: string)
    requires AllDigits(s)
    ensures AllDigits(Zeros(k) + s)
    ensures ParseDigits(Zeros(k) + s) == ParseDigits(s)
    decreases |s|
  {
    var t := Zeros(k) + s;
    assert AllDigits(t);
    if |s| == 0 {
      assert t == Zeros(k);
      ZerosParse(k);
    } else {
      assert t[..|t| - 1] == Zeros(k) + s[..|s| - 1];
      ParseLeadingZeros(k, s[..|s| - 1]);
    }
  }

  lemma {:induction false} ZerosParse(k: nat)
    ensures ParseDigits(Zeros(k)) == 0
    decreases k
  {
    if k > 0 {
      assert Zeros(k)[..k - 1] == Zeros(k - 1);
      ZerosParse(k - 1);
    }
  }

  /** Left-pad a digit string with zeros up to `width` characters; never truncates. */
  function ZeroPad(s: string, width: nat): (r: string)
    ensures |r| == if |s| >= width then |s| else width
    ensures |r| >= |s| && r[|r| - |s|..] == s
  {
    if |s| >= width then s else Zeros(width - |s|) + s
  }

  /** f"{n:0{width}d}": the sign, then the digits of |n| zero-padded so that the
      whole text is at least `width` characters. */
  function FormatInt(n: int, width: nat): (r: string)
  {
    if n < 0 then "-" + ZeroPad(Digits(-n), if width > 0 then width - 1 else 0)
    else ZeroPad(Digits(n), width)
  }

  predicate IsIntText(s: string)
  {
    (|s| > 0 && s[0] == '-' && AllDigits(s[1..])) || AllDigits(s)
  }

  /** int(s) for an optionally signed decimal text. */
  function ParseInt(s: string): int
    requires IsIntText(s)
  {
    if |s| > 0 && s[0] == '-' then -(ParseDigits(s[1..]) as int) else ParseDigits(s)
  }

  /** The formatted number reads back as itself. */
  lemma FormatIntRoundTrip(n: int, width: nat)
    ensures IsIntText(FormatInt(n, width))
    ensures ParseInt(FormatInt(n, width)) == n
  {
    var m := if n < 0 then -n else n;
    var w := if n < 0 then (if width > 0 then width - 1 else 0) else width;
    var d := Digits(m);
    ParseDigitsOfDigits(m);
    var p := ZeroPad(d, w);
    if |d| < w {
      ParseLeadingZeros(w - |d|, d);
    }
    assert AllDigits(p) && ParseDigits(p) == m;
    if n < 0 {
      assert FormatInt(n, width) == "-" + p;
      assert ("-" + p)[1..] == p;
    } else {
      assert FormatInt(n, width) == p;
      assert |p| > 0 && p[0] != '-';
    }
  }

  /** Different numbers never share a formatted text. */
  lemma FormatIntInjective(a: int, b: int, width: nat)
    requires FormatInt(a, width) == FormatInt(b, width)
    ensures a == b
  {
    FormatIntRoundTrip(a, width);
    FormatIntRoundTrip(b, width);
  }

  /** The text is at least `width` long and no digit of the number is cut off. */
  lemma FormatIntLength(n: int, width: nat)
    ensures |FormatInt(n, width)| >= width
    ensures n >= 0 ==> |FormatInt(n, width)| == if |Digits(n)| >= width then |Digits(n)| else width
    ensures n < 0 ==> |FormatInt(n, width)| == 1 + (if |Digits(-n)| >= width - 1 then |Digits(-n)| else width - 1)
    ensures var r := FormatInt(n, width);
            var d := Digits(if n < 0 then -n else n);
            |r| >= |d| && r[|r| - |d|..] == d
  {
    if n < 0 {
      var p := ZeroPad(Digits(-n), if width > 0 then width - 1 else 0);
      assert FormatInt(n, width) == "-" + p;
      assert ("-" + p)[|"-" + p| - |Digits(-n)|..] == p[|p| - |Digits(-n)|..];
    }
  }
}
