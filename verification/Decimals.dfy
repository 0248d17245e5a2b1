/** Decimal numerals: reading, printing, and what two numerals of one number share. */
module Decimals {
  predicate Digits(s: string) {
    s != "" && forall i :: 0 <= i < |s| ==> '0' <= s[i] <= '9'
  }

  function DigitOf(c: char): nat
    requires '0' <= c <= '9'
  {
    c as int - '0' as int
  }

  function Number(s: string): nat
    requires s == "" || Digits(s)
  {
    if s == "" then 0 else 10 * Number(s[..|s| - 1]) + DigitOf(s[|s| - 1])
  }

  function Numeral(n: nat): (s: string)
    ensures Digits(s)
  {
    var last := [('0' as int + n % 10) as char];
    if n < 10 then last else Numeral(n / 10) + last
  }

  /** The numeral without its leading zeros; empty for zero. */
  function Significant(s: string): string {
    if s != "" && s[0] == '0' then Significant(s[1..]) else s
  }

  lemma {:induction false} NumberOfNumeral(n: nat)
    ensures Number(Numeral(n)) == n
  {
    var s := Numeral(n);
    if n < 10 {
      assert Number(s[..0]) == 0;
    } else {
      NumberOfNumeral(n / 10);
      assert s[..|s| - 1] == Numeral(n / 10);
    }
  }

  lemma {:induction false} LeadingZero(s: string)
    requires Digits(s) && s[0] == '0'
    ensures Number(s[1..]) == Number(s)
    decreases |s|
  {
    if |s| > 1 {
      LeadingZero(s[..|s| - 1]);
      assert s[1..][..|s| - 2] == s[..|s| - 1][1..];
    }
  }

  lemma {:induction false} SignificantValue(s: string)
    requires s == "" || Digits(s)
    ensures var t := Significant(s); (t == "" || Digits(t)) && (t == "" || t[0] != '0') && Number(t) == Number(s)
    decreases |s|
  {
    if s != "" && s[0] == '0' {
      LeadingZero(s);
      SignificantValue(s[1..]);
    }
  }

  lemma {:induction false} PositiveValue(s: string)
    requires Digits(s) && s[0] != '0'
    ensures Number(s) > 0
    decreases |s|
  {
    if |s| > 1 {
      PositiveValue(s[..|s| - 1]);
    }
  }

  lemma {:induction false} SameNumberSameText(s: string, t: string)
    requires (s == "" || (Digits(s) && s[0] != '0')) && (t == "" || (Digits(t) && t[0] != '0'))
    requires Number(s) == Number(t)
    ensures s == t
    decreases |s|
  {
    if s == "" {
      if t != "" { PositiveValue(t); }
    } else if t == "" {
      PositiveValue(s);
    } else {
      var a, b := s[..|s| - 1], t[..|t| - 1];
      assert Number(a) == Number(s) / 10 && Number(b) == Number(t) / 10;
      SameNumberSameText(a, b);
      assert s == a + [s[|s| - 1]] && t == b + [t[|t| - 1]];
    }
  }

  /** Two numerals of one number differ in leading zeros only. */
  lemma SameNumber(s: string, t: string)
    requires Digits(s) && Digits(t)
    ensures Number(s) == Number(t) <==> Significant(s) == Significant(t)
  {
    SignificantValue(s);
    SignificantValue(t);
    if Number(s) == Number(t) {
      SameNumberSameText(Significant(s), Significant(t));
    }
  }

  lemma {:induction false} NumeralSignificant(n: nat)
    ensures n > 0 ==> Numeral(n)[0] != '0' && Significant(Numeral(n)) == Numeral(n)
  {
    if n >= 10 {
      NumeralSignificant(n / 10);
    }
  }
}
