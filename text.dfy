/**
 * Text the source gets from the Python runtime: `str()` of an integer is
 * spelled out here; the text of a float (`repr`) and of a date
 * (`strftime`) are supplied by the caller as a `Host`.
 */
module Text {

  /** The formatting services of the runtime that the model leaves abstract. */
  datatype Host = Host(
    floatText: real -> string,         // str(x) of a Python float
    strftime: (string, int) -> string  // date.strftime(format) of a day ordinal
  )

  predicate IsDigit(ch: char) { '0' <= ch <= '9' }

  /** Decimal digits of a natural number, most significant first, no leading zeros. */
  function Digits(n: nat): (s: string)
    ensures |s| >= 1
    ensures forall k :: 0 <= k < |s| ==> IsDigit(s[k])
    ensures |s| > 1 ==> s[0] != '0'
    decreases n
  {
    var last := [(('0' as int) + n % 10) as char];
    if n < 10 then last else Digits(n / 10) + last
  }

  /** `str(i)` for a Python int: an optional minus sign, then the digits. */
  function IntText(i: int): (s: string)
    ensures |s| >= 1
    ensures (i < 0) <==> (s[0] == '-')
  {
    if i < 0 then "-" + Digits(-i) else Digits(i)
  }

  /** The value a string of decimal digits denotes (`int(s)` on such a string). */
  function DigitsValue(s: string): nat
    requires forall k :: 0 <= k < |s| ==> IsDigit(s[k])
  {
    if s == [] then 0
    else
      assert IsDigit(s[|s| - 1]);
      10 * DigitsValue(s[..|s| - 1]) + ((s[|s| - 1] as int) - ('0' as int))
  }

  /** Reading back the digits `str` writes gives the number again. */
  lemma {:induction false} DigitsRoundTrip(n: nat)
    ensures DigitsValue(Digits(n)) == n
    decreases n
  {
    var s := Digits(n);
    if n >= 10 {
      DigitsRoundTrip(n / 10);
      assert s[..|s| - 1] == Digits(n / 10);
    }
  }

  /** `int(str(i)) == i` for every integer. */
  lemma IntTextRoundTrip(i: int)
    ensures var s := IntText(i);
      if i < 0 then s[1..] == Digits(-i) && -(DigitsValue(s[1..]) as int) == i
      else DigitsValue(s) == i
  {
    if i < 0 { DigitsRoundTrip(-i); } else { DigitsRoundTrip(i); }
  }
}
