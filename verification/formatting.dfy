// Decimal formatting, and when strings built from parts can be taken apart again.
module Formatting {

  function Digit(n: nat): char
    requires n < 10
  {
    "0123456789"[n]
  }

  function DigitsOf(n: nat): (s: string) {
    (if n < 10 then [] else DigitsOf(n / 10)) + [Digit(n % 10)]
  }

  function Decimal(n: int): (s: string) {
    if n < 0 then "-" + DigitsOf(-n) else DigitsOf(n)
  }

  predicate IsDigit(c: char) { '0' <= c <= '9' }

  lemma {:induction false} AllDigits(n: nat)
    ensures DigitsOf(n) != []
    ensures forall i :: 0 <= i < |DigitsOf(n)| ==> IsDigit(DigitsOf(n)[i])
  {
    if n >= 10 { AllDigits(n / 10); }
  }

  function ValueOf(s: string): int {
    if s == [] then 0 else 10 * ValueOf(s[..|s| - 1]) + (s[|s| - 1] as int - '0' as int)
  }

  lemma {:induction false} ValueOfDigits(n: nat)
    ensures ValueOf(DigitsOf(n)) == n
  {
    var s := DigitsOf(n);
    if n >= 10 {
      ValueOfDigits(n / 10);
      assert s[..|s| - 1] == DigitsOf(n / 10);
    } else {
      assert s[..|s| - 1] == [];
    }
    assert Digit(n % 10) as int - '0' as int == n % 10;
  }

  lemma DecimalChars(n: int)
    ensures Decimal(n) != []
    ensures forall i :: 0 <= i < |Decimal(n)| ==> IsDigit(Decimal(n)[i]) || Decimal(n)[i] == '-'
  {
    AllDigits(if n < 0 then -n else n);
  }

  lemma DecimalInjective(m: int, n: int)
    requires Decimal(m) == Decimal(n)
    ensures m == n
  {
    var a, b := if m < 0 then -m else m, if n < 0 then -n else n;
    AllDigits(a);
    AllDigits(b);
    ValueOfDigits(a);
    ValueOfDigits(b);
    assert m < 0 ==> Decimal(m)[0] == '-' && Decimal(m)[1..] == DigitsOf(a);
    assert n < 0 ==> Decimal(n)[0] == '-' && Decimal(n)[1..] == DigitsOf(b);
    assert m >= 0 ==> IsDigit(Decimal(m)[0]);
    assert n >= 0 ==> IsDigit(Decimal(n)[0]);
  }

  // A common prefix can be dropped.
  lemma SamePrefix(p: string, x: string, y: string)
    requires p + x == p + y
    ensures x == y
  {
    assert (p + x)[|p|..] == x && (p + y)[|p|..] == y;
  }

  lemma Before(a: string, sep: char, x: string, i: nat)
    requires i < |a|
    ensures (a + [sep] + x)[i] == a[i]
  {
  }

  lemma At(a: string, sep: char, x: string)
    ensures (a + [sep] + x)[|a|] == sep
  {
  }

  lemma After(a: string, sep: char, x: string, i: nat)
    requires |a| < i <= |a| + |x|
    ensures (a + [sep] + x)[i] == x[i - |a| - 1]
  {
  }

  lemma SeparatorComesLate(a: string, b: string, sep: char, x: string, y: string)
    requires sep !in b && a + [sep] + x == b + [sep] + y
    ensures |b| <= |a|
  {
    if |a| < |b| {
      Before(b, sep, y, |a|);
      At(a, sep, x);
      assert false;
    }
  }

  // Text up to a separator that it does not contain is determined, and so is the rest.
  lemma SplitAtSeparator(a: string, b: string, sep: char, x: string, y: string)
    requires sep !in a && sep !in b
    requires a + [sep] + x == b + [sep] + y
    ensures a == b && x == y
  {
    var s := a + [sep] + x;
    SeparatorComesLate(a, b, sep, x, y);
    SeparatorComesLate(b, a, sep, y, x);
    assert a == s[..|a|] && b == s[..|b|];
    assert x == s[|a| + 1..] && y == s[|b| + 1..];
  }

  lemma NoSeparatorInDecimal(n: int)
    ensures '_' !in Decimal(n)
  {
    DecimalChars(n);
  }
}
