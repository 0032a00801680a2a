/** Decimal numerals, as template literals and String() print them and parseInt reads them. */
module Decimals {

  predicate IsDigit(ch: char) {
    '0' <= ch <= '9'
  }

  predicate AllDigits(s: string) {
    forall i :: 0 <= i < |s| ==> IsDigit(s[i])
  }

  function DigitValue(ch: char): (d: nat)
    requires IsDigit(ch)
    ensures d < 10
  {
    ch as int - '0' as int
  }

  function DigitChar(d: nat): (ch: char)
    requires d < 10
    ensures IsDigit(ch) && DigitValue(ch) == d
  {
    ('0' as int + d) as char
  }

  function Print(n: nat): (s: string)
    ensures s != [] && AllDigits(s)
  {
    if n < 10 then [DigitChar(n)] else Print(n / 10) + [DigitChar(n % 10)]
  }

  function Parse(s: string): nat
    requires AllDigits(s)
  {
    if s == [] then 0 else Parse(s[..|s| - 1]) * 10 + DigitValue(s[|s| - 1])
  }

  lemma {:induction false} ParsePrint(n: nat)
    ensures Parse(Print(n)) == n
  {
    if n >= 10 {
      ParsePrint(n / 10);
      assert Print(n)[..|Print(n)| - 1] == Print(n / 10);
    }
  }

  lemma PrintInjective(m: nat, n: nat)
    ensures Print(m) == Print(n) <==> m == n
  {
    ParsePrint(m);
    ParsePrint(n);
  }

  /** A canonical numeral: no leading zero. */
  predicate Canonical(s: string) {
    s != [] && AllDigits(s) && (s[0] == '0' ==> |s| == 1)
  }

  /** The canonical numerals are exactly the printed numbers. */
  lemma {:induction false} CanonicalIffPrinted(s: string)
    requires AllDigits(s) && s != []
    ensures Canonical(s) <==> s == Print(Parse(s))
    decreases |s|
  {
    var init := s[..|s| - 1];
    if |s| == 1 {
      assert Parse(s[..0]) == 0;
      assert DigitChar(DigitValue(s[0])) == s[0];
    } else {
      CanonicalIffPrinted(init);
      var n, d := Parse(init), DigitValue(s[|s| - 1]);
      assert s == init + [DigitChar(d)];
      assert (n * 10 + d) / 10 == n && (n * 10 + d) % 10 == d;
      if Canonical(s) {
        ParseCanonicalPositive(init);
      } else {
        ParsePrint(n);
        if n * 10 + d >= 10 {
          assert Print(n * 10 + d)[..|Print(n * 10 + d)| - 1] == Print(n);
        }
      }
    }
  }

  lemma {:induction false} ParseCanonicalPositive(s: string)
    requires Canonical(s) && s[0] != '0'
    ensures Parse(s) > 0
  {
    if |s| > 1 {
      ParseCanonicalPositive(s[..|s| - 1]);
    } else {
      assert Parse(s[..0]) == 0;
    }
  }

  /** The most significant digit comes first, and leading zeros are worth nothing. */
  lemma {:induction false} DigitsWeigh(s: string, t: string)
    requires AllDigits(s) && AllDigits(t) && t != []
    ensures Parse(s + t) == Parse(s) * Power10(|t|) + Parse(t)
    decreases |t|
  {
    var last := t[|t| - 1];
    assert (s + t)[..|s + t| - 1] == s + t[..|t| - 1];
    if |t| == 1 {
      assert s + t[..0] == s && t[..0] == [];
      assert Power10(1) == 10;
    } else {
      DigitsWeigh(s, t[..|t| - 1]);
      Shifted(Parse(s), Power10(|t| - 1), Parse(t[..|t| - 1]), DigitValue(last));
    }
  }

  lemma Shifted(a: nat, b: nat, c: nat, d: nat)
    ensures (a * b + c) * 10 + d == a * (10 * b) + (c * 10 + d)
  {
    assert a * b * 10 == a * (10 * b);
  }

  function Power10(n: nat): nat {
    if n == 0 then 1 else 10 * Power10(n - 1)
  }

  lemma SingleDigits()
    ensures Parse("0") == 0 && Parse("1") == 1 && Parse("2") == 2 && Parse("3") == 3 && Parse("4") == 4
    ensures Parse("5") == 5 && Parse("6") == 6 && Parse("7") == 7 && Parse("8") == 8 && Parse("9") == 9
  {
  }
}
