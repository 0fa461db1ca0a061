/** Decimal text of natural numbers. */
module Numerals {
  function Digit(d: nat): (c: char)
    requires d < 10
    ensures '0' <= c <= '9' && c as int - '0' as int == d
  {
    '0' + d as char
  }

  function Decimal(n: nat): (s: string)
    ensures s != [] && forall i :: 0 <= i < |s| ==> '0' <= s[i] <= '9'
  {
    if n < 10 then [Digit(n)] else Decimal(n / 10) + [Digit(n % 10)]
  }

  function Power(k: nat): nat {
    if k == 0 then 1 else 10 * Power(k - 1)
  }

  function Parsed(s: string): nat
    requires forall i :: 0 <= i < |s| ==> '0' <= s[i] <= '9'
  {
    if s == [] then 0 else 10 * Parsed(s[..|s| - 1]) + (s[|s| - 1] as int - '0' as int)
  }

  /** The numeral has at most k digits exactly below the k-th power of ten. */
  lemma {:induction false} DecimalLength(n: nat, k: nat)
    requires k >= 1
    ensures |Decimal(n)| <= k <==> n < Power(k)
  {
    if n < 10 {
      PowerGrows(k);
    } else if k == 1 {
      assert Power(1) == 10;
    } else {
      DecimalLength(n / 10, k - 1);
      hide Power, Decimal;
      PowerSteps(k);
      DecimalSteps(n);
    }
  }

  lemma PowerSteps(k: nat)
    requires k >= 1
    ensures Power(k) == 10 * Power(k - 1)
  {
  }

  lemma DecimalSteps(n: nat)
    requires n >= 10
    ensures Decimal(n) == Decimal(n / 10) + [Digit(n % 10)]
  {
  }

  /** No numeral starts with a zero but that of zero. */
  lemma {:induction false} DecimalStart(n: nat)
    ensures Decimal(n)[0] == '0' ==> n == 0
  {
    if n >= 10 {
      DecimalStart(n / 10);
      hide Decimal;
      DecimalSteps(n);
    }
  }

  lemma {:induction false} DecimalRoundTrip(n: nat)
    ensures Parsed(Decimal(n)) == n
  {
    if n >= 10 {
      DecimalRoundTrip(n / 10);
      hide Decimal, Parsed;
      DecimalSteps(n);
      ParsedSteps(Decimal(n / 10), Digit(n % 10));
    } else {
      ParsedSteps([], Digit(n));
      assert [] + [Digit(n)] == [Digit(n)];
    }
  }

  lemma ParsedSteps(s: string, c: char)
    requires '0' <= c <= '9' && forall i :: 0 <= i < |s| ==> '0' <= s[i] <= '9'
    ensures Parsed(s + [c]) == 10 * Parsed(s) + (c as int - '0' as int)
  {
    assert (s + [c])[..|s|] == s;
  }

  lemma DecimalShape(n: nat, k: nat)
    requires k >= 1
    ensures |Decimal(n)| <= k <==> n < Power(k)
    ensures Decimal(n)[0] == '0' ==> n == 0
    ensures Parsed(Decimal(n)) == n
  {
    DecimalLength(n, k);
    DecimalStart(n);
    DecimalRoundTrip(n);
  }

  lemma {:induction false} PowerGrows(k: nat)
    requires k >= 1
    ensures Power(k) >= 10
  {
    if k > 1 {
      PowerGrows(k - 1);
    }
  }
}
