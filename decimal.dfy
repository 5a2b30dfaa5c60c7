/**
 * Python's `str` applied to an `int`: the canonical decimal spelling
 * (an optional minus sign, no leading zeros), and a parser that reads it back.
 * The argv of an xdotool invocation carries the window id in this form.
 */
module Decimal {
  import opened Options

  function DigitChar(d: nat): (c: char)
    requires d < 10
    ensures '0' <= c <= '9'
    ensures (c == '0') == (d == 0)
  {
    (('0' as int) + d) as char
  }

  predicate IsDigit(c: char) {
    '0' <= c <= '9'
  }

  /** Decimal digits of a natural number, most significant first, no leading zeros. */
  function NatStr(n: nat): (s: string)
    ensures |s| >= 1
    ensures forall i :: 0 <= i < |s| ==> IsDigit(s[i])
    ensures (s[0] == '0') == (n == 0)
    decreases n
  {
    if n < 10 then [DigitChar(n)] else NatStr(n / 10) + [DigitChar(n % 10)]
  }

  /** `str(n)` for a Python int. */
  function Str(n: int): (s: string)
    ensures |s| >= 1
  {
    if n < 0 then "-" + NatStr(-n) else NatStr(n)
  }

  /** Value of a string of decimal digits. */
  predicate AllDigits(s: string) {
    forall i :: 0 <= i < |s| ==> IsDigit(s[i])
  }

  function DigitsValue(s: string): nat
    requires AllDigits(s)
  {
    if s == [] then 0
    else
      assert IsDigit(s[|s| - 1]);
      DigitsValue(s[..|s| - 1]) * 10 + (s[|s| - 1] as int - '0' as int)
  }

  /** Reads an optional minus sign followed by at least one digit. */
  function Parse(s: string): Option<int> {
    if |s| >= 2 && s[0] == '-' && AllDigits(s[1..]) then Some(0 - DigitsValue(s[1..]) as int)
    else if |s| >= 1 && AllDigits(s) then Some(DigitsValue(s))
    else None
  }

  lemma {:induction false} NatStrValue(n: nat)
    ensures DigitsValue(NatStr(n)) == n
    decreases n
  {
    if n >= 10 {
      var s := NatStr(n);
      var hi := NatStr(n / 10);
      assert s == hi + [DigitChar(n % 10)];
      assert s[..|s| - 1] == hi;
      NatStrValue(n / 10);
    }
  }

  /** Parsing the decimal spelling of any integer gives that integer back. */
  lemma StrRoundTrip(n: int)
    ensures Parse(Str(n)) == Some(n)
  {
    var s := Str(n);
    if n < 0 {
      var digits := NatStr(-n);
      assert s == "-" + digits;
      assert s[1..] == digits;
      assert AllDigits(digits);
      NatStrValue(-n);
      assert Parse(s) == Some(0 - DigitsValue(digits) as int);
    } else {
      assert s == NatStr(n);
      assert AllDigits(s);
      assert s[0] != '-';
      NatStrValue(n);
    }
  }

  /** Distinct window ids are spelled differently. */
  lemma StrInjective(m: int, n: int)
    requires Str(m) == Str(n)
    ensures m == n
  {
    StrRoundTrip(m);
    StrRoundTrip(n);
  }
}
