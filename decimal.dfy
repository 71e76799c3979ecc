/** Decimal rendering of natural numbers, as Go's `%d` verb prints a
    non-negative int: no sign, no leading zeros. Used for the positional
    names `arg1`, `r2`, `rval3` that the generator invents. */
module Decimal {

  function DigitChar(d: nat): (c: char)
    requires d < 10
    ensures '0' <= c <= '9'
  {
    "0123456789"[d]
  }

  function DigitValue(c: char): (d: nat)
    requires '0' <= c <= '9'
    ensures d < 10 && DigitChar(d) == c
  {
    (c as int - '0' as int) as nat
  }

  predicate IsDigits(s: string) {
    forall k :: 0 <= k < |s| ==> '0' <= s[k] <= '9'
  }

  /** The decimal text of `n`, most significant digit first. */
  function NatToDecimal(n: nat): (s: string)
    ensures |s| >= 1 && IsDigits(s)
    ensures s[0] == '0' ==> n == 0
  {
    if n < 10 then [DigitChar(n)] else NatToDecimal(n / 10) + [DigitChar(n % 10)]
  }

  /** The number a digit string denotes; the inverse of NatToDecimal. */
  function DecimalValue(s: string): nat
    requires IsDigits(s)
  {
    if s == [] then 0 else DecimalValue(s[..|s| - 1]) * 10 + DigitValue(s[|s| - 1])
  }

  lemma {:induction false} DecimalRoundTrip(n: nat)
    ensures DecimalValue(NatToDecimal(n)) == n
  {
    var s := NatToDecimal(n);
    if n < 10 {
      assert s[..|s| - 1] == [];
    } else {
      DecimalRoundTrip(n / 10);
      assert s[..|s| - 1] == NatToDecimal(n / 10);
    }
  }

  /** Distinct numbers print as distinct texts. */
  lemma DecimalInjective(a: nat, b: nat)
    ensures NatToDecimal(a) == NatToDecimal(b) <==> a == b
  {
    if NatToDecimal(a) == NatToDecimal(b) {
      DecimalRoundTrip(a);
      DecimalRoundTrip(b);
    }
  }

  /** A fixed prefix followed by a decimal ordinal names each ordinal uniquely. */
  lemma PrefixedOrdinalInjective(prefix: string, a: nat, b: nat)
    ensures prefix + NatToDecimal(a) == prefix + NatToDecimal(b) <==> a == b
  {
    if prefix + NatToDecimal(a) == prefix + NatToDecimal(b) {
      assert (prefix + NatToDecimal(a))[|prefix|..] == NatToDecimal(a);
      assert (prefix + NatToDecimal(b))[|prefix|..] == NatToDecimal(b);
      DecimalInjective(a, b);
    }
  }
}
