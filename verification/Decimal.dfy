/** Plain decimal numerals, as `std::to_string`, `number-to-string` and `<<` write them. */
module Decimal {
  import opened Common

  predicate IsDigit(c: char) {
    '0' <= c <= '9'
  }

  predicate AllDigits(s: string) {
    forall i :: 0 <= i < |s| ==> IsDigit(s[i])
  }

  function DigitValue(c: char): nat
    requires IsDigit(c)
  {
    c as int - '0' as int
  }

  function Digits(n: nat): string {
    if n < 10 then [('0' as int + n) as char] else Digits(n / 10) + [('0' as int + n % 10) as char]
  }

  function Value(s: string): nat
    requires AllDigits(s)
  {
    if s == "" then 0 else Value(DropLast(s)) * 10 + DigitValue(Last(s))
  }

  /** A numeral is nonempty, consists of digits, and means its number; so numerals are injective. */
  lemma {:induction false} ValueOfDigits(n: nat)
    ensures Digits(n) != "" && AllDigits(Digits(n)) && Value(Digits(n)) == n
  {
    if n < 10 {
      assert DropLast(Digits(n)) == "";
    } else {
      ValueOfDigits(n / 10);
      assert DropLast(Digits(n)) == Digits(n / 10);
    }
  }

  lemma DigitsAreInjective(m: nat, n: nat)
    requires Digits(m) == Digits(n)
    ensures m == n
  {
    ValueOfDigits(m);
    ValueOfDigits(n);
  }

  /** Longer numerals mean bigger numbers: `k` digits suffice below 10^k. */
  lemma DigitsAreShort(n: nat)
    requires n < 10000000
    ensures |Digits(n)| <= 7
  {
    assert |Digits(n)| == if n < 10 then 1 else 1 + |Digits(n / 10)|;
    var a := n / 10;
    assert |Digits(a)| == if a < 10 then 1 else 1 + |Digits(a / 10)|;
    var b := a / 10;
    assert |Digits(b)| == if b < 10 then 1 else 1 + |Digits(b / 10)|;
    var c := b / 10;
    assert |Digits(c)| == if c < 10 then 1 else 1 + |Digits(c / 10)|;
    var d := c / 10;
    assert |Digits(d)| == if d < 10 then 1 else 1 + |Digits(d / 10)|;
    var e := d / 10;
    assert |Digits(e)| == if e < 10 then 1 else 1 + |Digits(e / 10)|;
    var f := e / 10;
    assert f < 10 && |Digits(f)| == 1;
  }

  lemma AppendDigit(s: string, c: char)
    requires AllDigits(s) && IsDigit(c)
    ensures AllDigits(s + [c]) && Value(s + [c]) == Value(s) * 10 + DigitValue(c)
  {
    assert DropLast(s + [c]) == s;
  }

  /** Reading more digits never makes the number smaller. */
  lemma {:induction false} PrefixIsSmaller(s: string, n: nat)
    requires n <= |s| && AllDigits(s)
    ensures AllDigits(s[..n]) && Value(s[..n]) <= Value(s)
  {
    if n < |s| {
      PrefixIsSmaller(DropLast(s), n);
      assert DropLast(s)[..n] == s[..n];
    } else {
      assert s[..n] == s;
    }
  }
}
