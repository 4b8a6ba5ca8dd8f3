/**
 The two integer conversions of Go's strconv package the client relies on, for a
 64-bit `int`: `Atoi` reads an optional sign followed by one or more ASCII digits and
 fails on anything else or on a value outside the 64-bit range; `Itoa` writes the
 shortest decimal text of a number.
 */
module Strconv {
  import opened Results

  const MinInt: int := -0x8000_0000_0000_0000
  const MaxInt: int := 0x7fff_ffff_ffff_ffff

  predicate InIntRange(n: int) {
    MinInt <= n <= MaxInt
  }

  predicate IsDigit(c: char) {
    '0' <= c <= '9'
  }

  function DigitValue(c: char): (d: nat)
    requires IsDigit(c)
    ensures d < 10
  {
    (c as int) - ('0' as int)
  }

  function DigitChar(d: nat): (c: char)
    requires d < 10
    ensures IsDigit(c) && DigitValue(c) == d
  {
    (('0' as int) + d) as char
  }

  predicate AllDigits(s: string) {
    forall i :: 0 <= i < |s| ==> IsDigit(s[i])
  }

  /** The value of a run of decimal digits, most significant first. */
  function DigitsValue(s: string): nat
    requires AllDigits(s)
  {
    if |s| == 0 then 0 else DigitsValue(s[..|s| - 1]) * 10 + DigitValue(s[|s| - 1])
  }

  predicate HasSign(s: string) {
    |s| > 0 && (s[0] == '+' || s[0] == '-')
  }

  function Unsigned(s: string): string {
    if HasSign(s) then s[1..] else s
  }

  /** An optional `+` or `-` followed by at least one ASCII digit, and nothing else. */
  predicate IsIntSyntax(s: string) {
    |Unsigned(s)| > 0 && AllDigits(Unsigned(s))
  }

  function SyntaxValue(s: string): int
    requires IsIntSyntax(s)
  {
    if s[0] == '-' then -(DigitsValue(Unsigned(s)) as int) else DigitsValue(Unsigned(s))
  }

  /** Reference definition of `strconv.Atoi`: the value, when the text is an integer in range. */
  function Atoi(s: string): Option<int> {
    if IsIntSyntax(s) && InIntRange(SyntaxValue(s)) then Some(SyntaxValue(s)) else None
  }

  /** The decimal digits of a natural number, without leading zeros. */
  function NatText(n: nat): string
    decreases n
  {
    if n < 10 then [DigitChar(n)] else NatText(n / 10) + [DigitChar(n % 10)]
  }

  /** `strconv.Itoa`: a minus sign for negative numbers, then the digits. */
  function Itoa(n: int): string {
    if n < 0 then "-" + NatText(-n) else NatText(n)
  }

  /** Appending one digit multiplies the value by ten and adds the digit. */
  lemma DigitsValueSnoc(s: string, c: char)
    requires AllDigits(s) && IsDigit(c)
    ensures AllDigits(s + [c])
    ensures DigitsValue(s + [c]) == DigitsValue(s) * 10 + DigitValue(c)
  {
    assert (s + [c])[..|s|] == s;
  }

  /** A longer run of digits never has a smaller value than its prefix. */
  lemma {:induction false} DigitsValuePrefix(s: string, i: nat)
    requires AllDigits(s) && i <= |s|
    ensures AllDigits(s[..i])
    ensures DigitsValue(s[..i]) <= DigitsValue(s)
    decreases |s| - i
  {
    assert AllDigits(s[..i]);
    if i < |s| {
      var t := s[..|s| - 1];
      assert AllDigits(t);
      assert t[..i] == s[..i];
      DigitsValuePrefix(t, i);
      assert DigitsValue(s) == DigitsValue(t) * 10 + DigitValue(s[|s| - 1]);
    } else {
      assert s[..i] == s;
    }
  }

  /** The digits written by `NatText` read back as the same number. */
  lemma {:induction false} NatTextValue(n: nat)
    ensures |NatText(n)| > 0 && AllDigits(NatText(n))
    ensures DigitsValue(NatText(n)) == n
    decreases n
  {
    if n >= 10 {
      NatTextValue(n / 10);
      DigitsValueSnoc(NatText(n / 10), DigitChar(n % 10));
    }
  }

  /** Every 64-bit integer survives `Itoa` followed by `Atoi`. */
  lemma AtoiItoa(n: int)
    requires InIntRange(n)
    ensures Atoi(Itoa(n)) == Some(n)
  {
    var s := Itoa(n);
    if n < 0 {
      NatTextValue(-n);
      assert s[0] == '-' && Unsigned(s) == NatText(-n);
    } else {
      NatTextValue(n);
      assert IsDigit(s[0]) && Unsigned(s) == s;
    }
  }

  /** The decimal text of a number outside the 64-bit range is rejected as out of range. */
  lemma AtoiRejectsOutOfRange(n: int)
    requires !InIntRange(n)
    ensures Atoi(Itoa(n)) == None
  {
    var s := Itoa(n);
    if n < 0 {
      NatTextValue(-n);
      assert s[0] == '-' && Unsigned(s) == NatText(-n);
    } else {
      NatTextValue(n);
      assert IsDigit(s[0]) && Unsigned(s) == s;
    }
  }

  /**
   A scanning implementation of `Atoi`, proved to agree with the reference definition:
   strip one sign, accumulate digits, and stop as soon as the magnitude passes 2^63,
   beyond which no 64-bit value lies.
   */
  method ScanAtoi(s: string) returns (r: Option<int>)
    ensures r == Atoi(s)
  {
    if |s| == 0 {
      return None;
    }
    var negative := s[0] == '-';
    var start := if HasSign(s) then 1 else 0;
    if start == |s| {
      return None;
    }
    var u := Unsigned(s);
    assert u == s[start..];
    var n: nat := 0;
    var i := 0;
    while i < |u|
      invariant 0 <= i <= |u|
      invariant AllDigits(u[..i])
      invariant n == DigitsValue(u[..i])
      invariant n <= -MinInt
    {
      if !IsDigit(u[i]) {
        return None;
      }
      DigitsValueSnoc(u[..i], u[i]);
      assert u[..i] + [u[i]] == u[..i + 1];
      n := n * 10 + DigitValue(u[i]);
      if n > -MinInt {
        if IsIntSyntax(s) {
          DigitsValuePrefix(u, i + 1);
        }
        return None;
      }
      i := i + 1;
    }
    assert u[..i] == u;
    if negative {
      r := Some(-(n as int));
    } else if n <= MaxInt {
      r := Some(n);
    } else {
      r := None;
    }
  }
}
