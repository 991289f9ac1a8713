/** The character and number handling the converter borrows from its
    language: recognising decimal digits, keeping the digits of a text, and
    writing an integer in decimal. */
module Digits {

  predicate IsDigit(c: char) {
    '0' <= c <= '9'
  }

  function DigitValue(c: char): (d: nat)
    requires IsDigit(c)
    ensures d <= 9
  {
    c as int - '0' as int
  }

  function DigitChar(d: nat): (c: char)
    requires d <= 9
    ensures IsDigit(c) && DigitValue(c) == d
  {
    ('0' as int + d) as char
  }

  /** The values of the digit characters of `s`, in their order; every other
      character is dropped. */
  function DigitsOf(s: string): (ds: seq<nat>)
    ensures |ds| <= |s|
    ensures forall k :: 0 <= k < |ds| ==> ds[k] <= 9
  {
    if s == [] then []
    else (if IsDigit(s[0]) then [DigitValue(s[0])] else []) + DigitsOf(s[1..])
  }

  /** Keeping the digits distributes over concatenation: the digits of a text
      are the digits of its first part followed by those of the rest. */
  lemma {:induction false} DigitsOfAppend(a: string, b: string)
    ensures DigitsOf(a + b) == DigitsOf(a) + DigitsOf(b)
  {
    if a == [] {
      assert a + b == b;
    } else {
      var head := if IsDigit(a[0]) then [DigitValue(a[0])] else [];
      assert (a + b)[0] == a[0];
      assert (a + b)[1..] == a[1..] + b;
      calc {
        DigitsOf(a + b);
        head + DigitsOf(a[1..] + b);
        { DigitsOfAppend(a[1..], b); }
        head + (DigitsOf(a[1..]) + DigitsOf(b));
        (head + DigitsOf(a[1..])) + DigitsOf(b);
        DigitsOf(a) + DigitsOf(b);
      }
    }
  }

  /** Every character of `s` is a decimal digit. */
  predicate AllDigits(s: string) {
    forall k :: 0 <= k < |s| ==> IsDigit(s[k])
  }

  /** No character of `s` is a decimal digit. */
  predicate NoDigits(s: string) {
    forall k :: 0 <= k < |s| ==> !IsDigit(s[k])
  }

  /** A text yields no digits exactly when none of its characters is a digit. */
  lemma {:induction false} DigitsOfEmpty(s: string)
    ensures DigitsOf(s) == [] <==> NoDigits(s)
  {
    if s != [] {
      DigitsOfEmpty(s[1..]);
      assert forall k :: 1 <= k < |s| ==> s[k] == s[1..][k - 1];
    }
  }

  /** On a text made only of digits, nothing is dropped and every value is
      the value of the character at the same position. */
  lemma {:induction false} DigitsOfAllDigits(s: string)
    requires AllDigits(s)
    ensures |DigitsOf(s)| == |s|
    ensures forall k :: 0 <= k < |s| ==> DigitsOf(s)[k] == DigitValue(s[k])
  {
    if s != [] {
      DigitsOfAllDigits(s[1..]);
      assert forall k :: 1 <= k < |s| ==> s[k] == s[1..][k - 1];
    }
  }

  /** The decimal text of a natural number: digits only, and no leading zero
      unless the number is zero itself. */
  function NatToDecimal(n: nat): (s: string)
    ensures |s| >= 1 && AllDigits(s)
    ensures s[0] == '0' ==> n == 0
    ensures |s| == 1 <==> n < 10
  {
    if n < 10 then [DigitChar(n)] else NatToDecimal(n / 10) + [DigitChar(n % 10)]
  }

  /** The number a digit text stands for, read most significant digit first. */
  function DecimalValue(s: string): nat
    requires AllDigits(s)
  {
    if s == [] then 0 else DecimalValue(s[..|s| - 1]) * 10 + DigitValue(s[|s| - 1])
  }

  /** Reading back the decimal text of a number gives the number. */
  lemma {:induction false} NatDecimalRoundTrip(n: nat)
    ensures DecimalValue(NatToDecimal(n)) == n
  {
    if n >= 10 {
      var s := NatToDecimal(n);
      assert s[..|s| - 1] == NatToDecimal(n / 10);
      NatDecimalRoundTrip(n / 10);
    }
  }

  /** The decimal text of an integer, with a leading minus sign when it is
      negative and no leading zero: the only text that starts with '0' is
      "0" itself. */
  function IntToDecimal(i: int): (s: string)
    ensures |s| >= 1
    ensures s[0] == '-' <==> i < 0
    ensures AllDigits(s[1..])
    ensures s[0] == '0' ==> s == "0"
    ensures i < 0 ==> |s| >= 2 && s[1] != '0'
  {
    if i < 0 then "-" + NatToDecimal(-i) else NatToDecimal(i)
  }

  /** The integer a decimal text with an optional minus sign stands for. */
  function ParseInt(s: string): int
    requires |s| >= 1 && AllDigits(s[1..]) && (s[0] == '-' || IsDigit(s[0]))
  {
    if s[0] == '-' then -(DecimalValue(s[1..]) as int) else DecimalValue(s)
  }

  /** Reading back the decimal text of an integer gives the integer. */
  lemma IntDecimalRoundTrip(i: int)
    ensures var s := IntToDecimal(i); (s[0] == '-' || IsDigit(s[0])) && ParseInt(s) == i
  {
    var s := IntToDecimal(i);
    if i < 0 {
      assert s[1..] == NatToDecimal(-i);
      NatDecimalRoundTrip(-i);
    } else {
      NatDecimalRoundTrip(i);
    }
  }
}
