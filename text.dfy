/** Decimal renderings of integers, as Python's `str` and JavaScript's
    `String` produce them for integral values. */
module Text {
  predicate IsDigit(c: char) {
    '0' <= c <= '9'
  }

  /** The number a string of decimal digits denotes, most significant first. */
  function Value(s: string): nat
    requires forall i :: 0 <= i < |s| ==> IsDigit(s[i])
  {
    if s == [] then 0
    else
      assert IsDigit(s[|s| - 1]);
      Value(s[..|s| - 1]) * 10 + (s[|s| - 1] as int - '0' as int)
  }

  /** The character of one decimal digit. */
  function DigitChar(d: nat): (c: char)
    requires d < 10
    ensures IsDigit(c) && c as int - '0' as int == d
  {
    "0123456789"[d]
  }

  /** The digits of a natural number: they denote it, and only zero itself
      starts with `0`. */
  function Digits(n: nat): (s: string)
    ensures |s| >= 1
    ensures forall i :: 0 <= i < |s| ==> IsDigit(s[i])
    ensures Value(s) == n
    ensures n < 10 <==> |s| == 1
    ensures |s| > 1 ==> s[0] != '0'
  {
    if n < 10 then [DigitChar(n)]
    else
      var init := Digits(n / 10);
      var s := init + [DigitChar(n % 10)];
      assert s[..|init|] == init;
      assert Value(s) == Value(init) * 10 + n % 10;
      s
  }

  /** The decimal form of an integer: an optional minus sign, then the
      digits of its magnitude. */
  function Decimal(n: int): (s: string)
    ensures |s| >= 1
    ensures n >= 0 ==> (forall i :: 0 <= i < |s| ==> IsDigit(s[i])) && Value(s) == n
    ensures n < 0 ==> s[0] == '-' && |s| >= 2
    ensures forall i :: 0 < i < |s| ==> IsDigit(s[i])
    ensures n < 0 ==> Value(s[1..]) == -n
  {
    if n >= 0 then Digits(n)
    else
      var s := "-" + Digits(-n);
      assert s[1..] == Digits(-n);
      s
  }
}
