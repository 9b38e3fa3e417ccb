/**
 * Decimal text of role ids: `Number.prototype.toString()` on a non-negative integer and
 * `Number(s)` on a string of decimal digits (the empty string converts to 0).
 */
module Decimal {

  predicate IsDigit(c: char) {
    '0' <= c <= '9'
  }

  predicate AllDigits(s: string) {
    forall i :: 0 <= i < |s| ==> IsDigit(s[i])
  }

  function DigitChar(d: nat): (c: char)
    requires d < 10
    ensures IsDigit(c)
  {
    ('0' as int + d) as char
  }

  function DigitValue(c: char): (d: nat)
    requires IsDigit(c)
    ensures d < 10
  {
    c as int - '0' as int
  }

  /** `n.toString()`: never empty, digits only, and no leading zero except for 0 itself. */
  function ToString(n: nat): (s: string)
    ensures |s| >= 1
    ensures AllDigits(s)
    ensures s[0] == '0' ==> n == 0
    ensures n == 0 ==> s == "0"
    decreases n
  {
    if n < 10 then [DigitChar(n)] else ToString(n / 10) + [DigitChar(n % 10)]
  }

  /** `Number(s)` for a digit string; `Number("")` is 0. */
  function Number(s: string): nat
    requires AllDigits(s)
    decreases |s|
  {
    if s == [] then 0 else Number(s[..|s| - 1]) * 10 + DigitValue(s[|s| - 1])
  }

  /** Converting an id to text and back gives the id. */
  lemma {:induction false} NumberOfToString(n: nat)
    ensures Number(ToString(n)) == n
    decreases n
  {
    var s := ToString(n);
    if n >= 10 {
      var p := ToString(n / 10);
      assert s[..|s| - 1] == p;
      NumberOfToString(n / 10);
      assert DigitValue(DigitChar(n % 10)) == n % 10;
    } else {
      assert s[..|s| - 1] == [];
    }
  }

  /** `toString` is injective: different ids never share a text. */
  lemma ToStringInjective(m: nat, n: nat)
    requires ToString(m) == ToString(n)
    ensures m == n
  {
    NumberOfToString(m);
    NumberOfToString(n);
  }
}
