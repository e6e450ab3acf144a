/** Decimal text of integers, as JavaScript's template interpolation `${n}`
    renders an integral number: optional minus sign, digits, no leading zeros.
    `ParseInt` is the reading direction, used to state that the rendered text
    determines the number it came from. */
module Decimal {
  import opened Optional

  predicate IsDigit(c: char) {
    '0' <= c <= '9'
  }

  predicate AllDigits(s: string) {
    forall i :: 0 <= i < |s| ==> IsDigit(s[i])
  }

  function DigitChar(d: nat): (c: char)
    requires d < 10
    ensures IsDigit(c)
  {
    ('0' as int + d) as char
  }

  function DigitValue(c: char): (d: nat)
    requires IsDigit(c)
    ensures d < 10 && DigitChar(d) == c
  {
    c as int - '0' as int
  }

  /** The digits of `n`, most significant first. */
  function NatToString(n: nat): (s: string)
    ensures |s| > 0 && AllDigits(s)
    ensures (s[0] == '0') == (n == 0)
    ensures n == 0 ==> s == "0"
  {
    if n < 10 then [DigitChar(n)] else NatToString(n / 10) + [DigitChar(n % 10)]
  }

  /** The number a digit string denotes; the empty string denotes 0. */
  function ValueOf(s: string): nat
    requires AllDigits(s)
  {
    if |s| == 0 then 0 else 10 * ValueOf(s[..|s| - 1]) + DigitValue(s[|s| - 1])
  }

  /** `${n}` for an integral number `n`. */
  function IntToString(n: int): (s: string)
    ensures |s| > 0
    ensures (s[0] == '-') == (n < 0)
  {
    if n < 0 then "-" + NatToString(-n) else NatToString(n)
  }

  /** Digits without a leading zero, except for "0" itself. */
  predicate Canonical(s: string) {
    |s| > 0 && AllDigits(s) && (s[0] != '0' || |s| == 1)
  }

  /** Reads back an integer written as `${n}` writes it: an optional minus
      sign before canonical digits, and no "-0"; None on anything else. */
  function ParseInt(s: string): Option<int> {
    if |s| > 1 && s[0] == '-' && Canonical(s[1..]) && s[1] != '0' then
      var magnitude: int := ValueOf(s[1..]);
      Some(-magnitude)
    else if Canonical(s) then Some(ValueOf(s) as int)
    else None
  }

  lemma {:induction false} ValueOfNatToString(n: nat)
    ensures ValueOf(NatToString(n)) == n
  {
    var s := NatToString(n);
    if n >= 10 {
      ValueOfNatToString(n / 10);
      assert s[..|s| - 1] == NatToString(n / 10);
    }
  }

  /** Reading the rendered text gives the number back. */
  lemma ParseIntToString(n: int)
    ensures ParseInt(IntToString(n)) == Some(n)
  {
    var s := IntToString(n);
    if n < 0 {
      assert s[1..] == NatToString(-n);
      ValueOfNatToString(-n);
    } else {
      ValueOfNatToString(n);
    }
  }

  /** Canonical digits are exactly what `NatToString` writes for their value. */
  lemma {:induction false} NatToStringValueOf(s: string)
    requires Canonical(s)
    ensures NatToString(ValueOf(s)) == s
    decreases |s|
  {
    var last := s[|s| - 1];
    if |s| == 1 {
      assert s == [last];
    } else {
      var prefix := s[..|s| - 1];
      assert prefix[0] == s[0];
      NatToStringValueOf(prefix);
      var v := ValueOf(prefix);
      assert v != 0;
      var n := 10 * v + DigitValue(last);
      assert n / 10 == v && n % 10 == DigitValue(last);
      assert s == prefix + [last];
    }
  }

  /** The only text that reads back as `n` is the text `${n}` renders, so
      reading back fixes the text as well as the number. */
  lemma ParseIntOnlyRendered(s: string, n: int)
    requires ParseInt(s) == Some(n)
    ensures s == IntToString(n)
  {
    if |s| > 1 && s[0] == '-' && Canonical(s[1..]) && s[1] != '0' {
      NatToStringValueOf(s[1..]);
      assert s == "-" + s[1..];
    } else {
      NatToStringValueOf(s);
    }
  }

  /** Distinct numbers render to distinct text. */
  lemma IntToStringInjective(a: int, b: int)
    ensures IntToString(a) == IntToString(b) <==> a == b
  {
    ParseIntToString(a);
    ParseIntToString(b);
  }
}
