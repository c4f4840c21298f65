/** String rules used by the handlers: prefix tests and the rendering of numbers as text. */
module Text {

  /** `s.startsWith(p)` */
  predicate StartsWith(s: string, p: string) {
    |p| <= |s| && s[..|p|] == p
  }

  /** One lower-case digit of base 16 or less. */
  function Digit(d: nat): (c: char)
    requires d < 16
  {
    if d < 10 then ('0' as int + d) as char else ('a' as int + (d - 10)) as char
  }

  lemma DigitInjective(a: nat, b: nat)
    requires a < 16 && b < 16
    requires Digit(a) == Digit(b)
    ensures a == b
  {
    assert Digit(a) as int == if a < 10 then '0' as int + a else 'a' as int + (a - 10);
    assert Digit(b) as int == if b < 10 then '0' as int + b else 'a' as int + (b - 10);
  }

  /** The numeral of `n` in `base`, most significant digit first and without leading zeros:
      `Date.now()` in a template string (base 10), an identifier's text (base 16). */
  function Numeral(n: nat, base: nat): (s: string)
    requires 2 <= base <= 16
    ensures |s| >= 1
    ensures (|s| == 1) == (n < base)
    decreases n
  {
    if n < base then [Digit(n)] else Numeral(n / base, base) + [Digit(n % base)]
  }

  /** Different numbers have different numerals. */
  lemma {:induction false} NumeralInjective(a: nat, b: nat, base: nat)
    requires 2 <= base <= 16
    requires Numeral(a, base) == Numeral(b, base)
    ensures a == b
    decreases a
  {
    if a < base {
      assert Numeral(a, base)[0] == Digit(a) && Numeral(b, base)[0] == Digit(b);
      DigitInjective(a, b);
    } else {
      SplitLast(a, b, base);
      DivShrinks(a, base);
      NumeralInjective(a / base, b / base, base);
      Recombine(a, b, base);
    }
  }
  /** Quotient and remainder determine the number. */
  lemma Recombine(a: nat, b: nat, base: nat)
    requires base > 0
    requires a / base == b / base && a % base == b % base
    ensures a == b
  {
    DivModUnique(a, base);
    DivModUnique(b, base);
  }
  /** The last digit and the leading digits of equal numerals agree. */
  lemma SplitLast(a: nat, b: nat, base: nat)
    requires 2 <= base <= 16
    requires a >= base
    requires Numeral(a, base) == Numeral(b, base)
    ensures a % base == b % base
    ensures Numeral(a / base, base) == Numeral(b / base, base)
  {
    var sa, sb := Numeral(a / base, base), Numeral(b / base, base);
    var whole := Numeral(a, base);
    assert whole == sa + [Digit(a % base)];
    assert whole == sb + [Digit(b % base)];
    assert whole[|whole| - 1] == Digit(a % base) == Digit(b % base);
    DigitInjective(a % base, b % base);
    assert sa == whole[..|whole| - 1] == sb;
  }
  lemma DivShrinks(n: nat, base: nat)
    requires base >= 2 && n >= 1
    ensures n / base < n
  {
  }
  lemma DivModUnique(n: nat, base: nat)
    requires base > 0
    ensures n == base * (n / base) + n % base
  {
  }

  /** Fixed text around a numeral keeps different numbers apart. */
  lemma FramedNumeralInjective(prefix: string, a: nat, b: nat, base: nat, suffix: string)
    requires 2 <= base <= 16
    requires prefix + Numeral(a, base) + suffix == prefix + Numeral(b, base) + suffix
    ensures a == b
  {
    var na, nb := Numeral(a, base), Numeral(b, base);
    var whole := prefix + na + suffix;
    assert |na| == |nb|;
    assert na == whole[|prefix|..|prefix| + |na|];
    assert nb == (prefix + nb + suffix)[|prefix|..|prefix| + |nb|];
    NumeralInjective(a, b, base);
  }

  /** How many times `c` occurs in `s`. */
  function Occurrences(s: string, c: char): (n: nat)
    ensures n <= |s|
    ensures n == 0 <==> c !in s
  {
    if s == [] then 0 else (if s[0] == c then 1 else 0) + Occurrences(s[1..], c)
  }

  /** Occurrences add up over a concatenation. */
  lemma {:induction false} OccurrencesAppend(a: string, b: string, c: char)
    ensures Occurrences(a + b, c) == Occurrences(a, c) + Occurrences(b, c)
  {
    if a != [] {
      assert (a + b)[0] == a[0];
      assert (a + b)[1..] == a[1..] + b;
      OccurrencesAppend(a[1..], b, c);
    } else {
      assert a + b == b;
    }
  }
}
