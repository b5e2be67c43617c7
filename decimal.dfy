/**
 * Decimal text of a non-negative integer, as `serde_json::to_string` writes an
 * unsigned integer: the shortest string of ASCII digits, no sign, no leading zero.
 * `Value` reads such a string back and is the partner of `Render`.
 */
module Decimal {

  predicate IsDigit(c: char) {
    '0' <= c <= '9'
  }

  predicate AllDigits(s: string) {
    forall i :: 0 <= i < |s| ==> IsDigit(s[i])
  }

  /** The ASCII digit for `d`. */
  function DigitChar(d: nat): (c: char)
    requires d < 10
    ensures IsDigit(c)
    ensures c as int - '0' as int == d
  {
    ('0' as int + d) as char
  }

  /** The decimal text of `n`: non-empty, all digits, and no leading zero unless `n` is zero. */
  function Render(n: nat): (s: string)
    ensures |s| >= 1 && AllDigits(s)
    ensures s[0] == '0' <==> n == 0
    ensures n == 0 ==> s == "0"
  {
    if n < 10 then [DigitChar(n)] else Render(n / 10) + [DigitChar(n % 10)]
  }

  /** The number a string of decimal digits denotes (the empty string denotes 0). */
  function Value(s: string): nat
    requires AllDigits(s)
  {
    if s == [] then 0 else Value(s[..|s| - 1]) * 10 + (s[|s| - 1] as int - '0' as int)
  }

  /** Reading back what `Render` writes gives the number again. */
  lemma {:induction false} ValueOfRender(n: nat)
    ensures Value(Render(n)) == n
  {
    if n >= 10 {
      var s := Render(n);
      assert s[..|s| - 1] == Render(n / 10);
      ValueOfRender(n / 10);
    }
  }

  /** Distinct numbers have distinct decimal texts. */
  lemma RenderInjective(a: nat, b: nat)
    ensures Render(a) == Render(b) <==> a == b
  {
    ValueOfRender(a);
    ValueOfRender(b);
  }

  /** A canonical digit string (no leading zero, or exactly "0") is the rendering of its value. */
  lemma {:induction false} RenderOfValue(s: string)
    requires |s| >= 1 && AllDigits(s)
    requires s[0] == '0' ==> s == "0"
    ensures Render(Value(s)) == s
  {
    if |s| > 1 {
      var init := s[..|s| - 1];
      assert init[0] == s[0];
      RenderOfValue(init);
      ValueAtLeastLeading(init);
      var d := s[|s| - 1] as int - '0' as int;
      assert Value(s) / 10 == Value(init) && Value(s) % 10 == d;
      assert DigitChar(d) == s[|s| - 1];
      assert s == init + [s[|s| - 1]];
    }
  }

  /** A digit string whose first digit is not zero denotes a positive number. */
  lemma {:induction false} ValueAtLeastLeading(s: string)
    requires |s| >= 1 && AllDigits(s) && s[0] != '0'
    ensures Value(s) >= 1
  {
    if |s| > 1 {
      var init := s[..|s| - 1];
      assert init[0] == s[0];
      ValueAtLeastLeading(init);
    }
  }
}
