/** Conversion between a token's external decimals and the chain's 18. */
module Decimals {
  import opened Arith
  import opened Wrappers

  const STANDARD_DECIMALS: nat := 18
  const MAX_DECIMALS: nat := 24

  function Narrow(n: nat): Option<nat> {
    if n <= U128_MAX then Some(n) else None
  }

  /** The amount in 10^-18 units; `None` when it does not fit. */
  function Standardised(amount: nat, d: nat): Option<nat> {
    if d > STANDARD_DECIMALS then Some(Quotient(amount, Pow10(d - STANDARD_DECIMALS)))
    else Narrow(Times(amount, Pow10(STANDARD_DECIMALS - d)))
  }

  /** The amount in 10^-d units; `None` when it does not fit. */
  function Externalised(amount: nat, d: nat): Option<nat> {
    if d > STANDARD_DECIMALS then Narrow(Times(amount, Pow10(d - STANDARD_DECIMALS)))
    else Some(Quotient(amount, Pow10(STANDARD_DECIMALS - d)))
  }

  lemma QuotientSmall(a: nat, b: nat)
    requires b > 0
    ensures Quotient(a, b) <= a
  {
    MulMono(1, b, a);
    DivBound(a, a, b);
  }

  /** Dividing by ten again and again is one division. */
  lemma DivStep(n: nat, p: nat)
    requires p > 0
    ensures n / p / 10 == n / (10 * p)
  {
    var q, r := n / p, n % p;
    assert n == q / 10 * (10 * p) + (q % 10 * p + r) by {
      assert n == q * p + r;
      assert q == q / 10 * 10 + q % 10;
      assert q * p == q / 10 * (10 * p) + q % 10 * p by {
        assert q / 10 * 10 * p == q / 10 * (10 * p);
      }
    }
    MulMono(q % 10, 9, p);
    DivModUnique(n, 10 * p, q / 10, q % 10 * p + r);
  }

  lemma {:induction false} PowMono(i: nat, k: nat)
    requires i <= k
    ensures Pow10(i) <= Pow10(k)
    decreases k
  {
    if i == k {
    } else {
      PowMono(i, k - 1);
    }
  }

  /** A product that overflows stays overflowing. */
  lemma PowGrows(n: nat, i: nat, k: nat)
    requires i <= k
    ensures n * Pow10(i) <= n * Pow10(k)
  {
    hide Pow10;
    PowMono(i, k);
    MulMono(Pow10(i), Pow10(k), n);
  }

  method ScaleUp(amount: nat, n: nat) returns (r: Option<nat>)
    requires amount <= U128_MAX
    ensures r == Narrow(Times(amount, Pow10(n)))
  {
    var x := amount;
    for i := 0 to n
      invariant x == amount * Pow10(i) <= U128_MAX
    {
      x := x * 10;
      assert x == amount * Pow10(i + 1);
      if x > U128_MAX {
        PowGrows(amount, i + 1, n);
        return None;
      }
    }
    r := Some(x);
  }

  method ScaleDown(amount: nat, n: nat) returns (r: nat)
    ensures r == Quotient(amount, Pow10(n))
  {
    r := amount;
    for i := 0 to n
      invariant r == amount / Pow10(i)
    {
      DivStep(amount, Pow10(i));
      r := r / 10;
    }
  }

  /** `transform_decimals_to_standard`. */
  method ToStandard(amount: nat, d: nat) returns (r: Option<nat>)
    requires amount <= U128_MAX
    ensures r == Standardised(amount, d)
  {
    if d > STANDARD_DECIMALS {
      var x := ScaleDown(amount, d - STANDARD_DECIMALS);
      r := Some(x);
    } else {
      r := ScaleUp(amount, STANDARD_DECIMALS - d);
    }
  }

  /** `transform_decimals_to_external`. */
  method ToExternal(amount: nat, d: nat) returns (r: Option<nat>)
    requires amount <= U128_MAX
    ensures r == Externalised(amount, d)
  {
    if d > STANDARD_DECIMALS {
      r := ScaleUp(amount, d - STANDARD_DECIMALS);
    } else {
      var x := ScaleDown(amount, STANDARD_DECIMALS - d);
      r := Some(x);
    }
  }

  /** To external and back: the largest representable amount not above, exact when the token has at least 18
      decimals. */
  lemma RoundTrip(amount: nat, d: nat)
    requires amount <= U128_MAX && Externalised(amount, d).Some?
    ensures var e := Externalised(amount, d).value;
            && Standardised(e, d).Some? && Standardised(e, d).value <= amount
            && (d >= STANDARD_DECIMALS ==> Standardised(e, d).value == amount)
            && (d < STANDARD_DECIMALS ==> amount < Standardised(e, d).value + Pow10(STANDARD_DECIMALS - d))
  {
    if d > STANDARD_DECIMALS {
      var p := Pow10(d - STANDARD_DECIMALS);
      DivModUnique(amount * p, p, amount, 0);
    } else {
      var p := Pow10(STANDARD_DECIMALS - d);
      FloorBounds(amount, p);
    }
  }
}
