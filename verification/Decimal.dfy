/** Decimal rendering of integers, and reading it back. */
module Decimal {

  predicate IsDigit(c: char) { '0' <= c <= '9' }

  function DigitChar(d: nat): (c: char)
    requires d < 10
    ensures IsDigit(c) && DigitValue(c) == d
  {
    ('0' as int + d) as char
  }

  function DigitValue(c: char): nat
    requires IsDigit(c)
  {
    c as int - '0' as int
  }

  predicate AllDigits(s: string) { forall i | 0 <= i < |s| :: IsDigit(s[i]) }

  function PrintNat(n: nat): string {
    if n < 10 then [DigitChar(n)] else PrintNat(n / 10) + [DigitChar(n % 10)]
  }

  function PrintInt(n: int): string {
    if n < 0 then "-" + PrintNat(-n) else PrintNat(n)
  }

  function Value(s: string): nat
    requires AllDigits(s)
  {
    if s == [] then 0 else Value(s[..|s| - 1]) * 10 + DigitValue(s[|s| - 1])
  }

  lemma {:induction false} PrintNatDigits(n: nat)
    ensures AllDigits(PrintNat(n)) && |PrintNat(n)| > 0 && Value(PrintNat(n)) == n
    ensures n > 0 ==> PrintNat(n)[0] != '0'
    ensures n == 0 ==> PrintNat(n) == "0"
  {
    if n >= 10 {
      PrintNatDigits(n / 10);
      var s := PrintNat(n);
      assert s[..|s| - 1] == PrintNat(n / 10);
    } else {
      var s := PrintNat(n);
      assert s[..|s| - 1] == [];
    }
  }

  lemma PrintNatInjective(m: nat, n: nat)
    requires PrintNat(m) == PrintNat(n)
    ensures m == n
  {
    PrintNatDigits(m);
    PrintNatDigits(n);
  }

  /** How many digits a string starts with. */
  function DigitRun(s: string): (k: nat)
    ensures k <= |s|
  {
    if s == [] || !IsDigit(s[0]) then 0 else 1 + DigitRun(s[1..])
  }

  lemma {:induction false} DigitRunIs(digits: string, rest: string)
    requires AllDigits(digits) && (rest == [] || !IsDigit(rest[0]))
    ensures DigitRun(digits + rest) == |digits|
  {
    if digits == [] {
      assert digits + rest == rest;
    } else {
      DigitRunIs(digits[1..], rest);
      assert (digits + rest)[1..] == digits[1..] + rest;
    }
  }

  // ---- Names that end in a number ----

  /** A base name to which a number can be appended without being mistaken for part of it. */
  predicate EndsInNonDigit(s: string) { |s| > 0 && !IsDigit(s[|s| - 1]) }

  lemma NumberedNameShape(a: string, m: nat)
    requires EndsInNonDigit(a)
    ensures !IsDigit((a + PrintNat(m))[|a| - 1])
    ensures forall k | |a| <= k < |a + PrintNat(m)| :: IsDigit((a + PrintNat(m))[k])
  {
    PrintNatDigits(m);
  }

  /** A base name and a number can be told apart again: equal names have equal parts. */
  lemma NumberedNameInjective(a: string, m: nat, b: string, n: nat)
    requires EndsInNonDigit(a) && EndsInNonDigit(b) && a + PrintNat(m) == b + PrintNat(n)
    ensures a == b && m == n
  {
    NumberedNameShape(a, m);
    NumberedNameShape(b, n);
    var s, t := a + PrintNat(m), b + PrintNat(n);
    assert |a| == |b|;
    assert a == s[..|a|] && b == t[..|b|];
    assert PrintNat(m) == s[|a|..] && PrintNat(n) == t[|b|..];
    PrintNatInjective(m, n);
  }
}
