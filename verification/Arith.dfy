/** Fixed-width and fixed-point arithmetic of the runtime. */
module Arith {
  const U128_MAX: nat := 0xFFFF_FFFF_FFFF_FFFF_FFFF_FFFF_FFFF_FFFF
  const U32_MAX: nat := 0xFFFF_FFFF
  const MILLION: nat := 1_000_000
  const QUINTILL: nat := 1_000_000_000_000_000_000

  type u128 = x: int | 0 <= x <= U128_MAX

  function Min(a: nat, b: nat): nat {
    if a <= b then a else b
  }

  /** `Permill::from_parts(parts).mul_ceil(x)`; the parts saturate at one million. */
  function MulCeil(parts: nat, x: nat): nat {
    (Min(parts, MILLION) * x + MILLION - 1) / MILLION
  }

  lemma MulMono(a: nat, b: nat, c: nat)
    requires a <= b
    ensures a * c <= b * c
  {
    assert b * c - a * c == (b - a) * c;
  }

  lemma DivBound(n: nat, q: nat, c: nat)
    requires c > 0 && n <= q * c
    ensures n / c <= q
  {
    assert n / c * c <= n;
    if q < n / c {
      MulMono(q + 1, n / c, c);
      assert false;
    }
  }

  lemma FloorBounds(n: nat, g: nat)
    requires g > 0
    ensures n / g * g <= n < n / g * g + g
  {
    assert n == n / g * g + n % g;
  }

  /** Fifty percent, rounded up. */
  lemma MulCeilHalf(x: nat)
    ensures MulCeil(500_000, x) == (x + 1) / 2
  {
    var k := x / 2;
    assert 500_000 * (2 * k) == MILLION * k && 500_000 * (2 * k + 1) == MILLION * k + 500_000;
  }

  /** `Perquintill::from_rational(p, q)` in parts of 10^18; the fraction saturates at one. */
  function FromRational(p: nat, q: nat): nat
    requires q > 0
  {
    Min(p, q) * QUINTILL / q
  }

  lemma FromRationalBounds(p: nat, q: nat)
    requires q > 0
    ensures FromRational(p, q) <= QUINTILL
    ensures FromRational(p, q) * q <= p * QUINTILL
  {
    var m := Min(p, q);
    assert m * QUINTILL <= q * QUINTILL && m * QUINTILL <= p * QUINTILL;
    DivBound(m * QUINTILL, QUINTILL, q);
    assert (m * QUINTILL / q) * q <= m * QUINTILL;
  }

  /** `Perquintill * x`: the nearest integer, ties down. */
  function MulNearest(parts: nat, x: nat): nat {
    parts * x / QUINTILL + if parts * x % QUINTILL > QUINTILL / 2 then 1 else 0
  }

  lemma MulNearestBounds(parts: nat, x: nat)
    ensures 2 * QUINTILL * MulNearest(parts, x) <= 2 * parts * x + QUINTILL
    ensures 2 * QUINTILL * MulNearest(parts, x) + QUINTILL >= 2 * parts * x
  {
    var n := parts * x;
    assert n == n / QUINTILL * QUINTILL + n % QUINTILL;
    assert 2 * parts * x == 2 * n;
  }

  function Pow10(n: nat): (p: nat)
    ensures p > 0
  {
    if n == 0 then 1 else 10 * Pow10(n - 1)
  }

  lemma SmallMod(n: nat, g: nat)
    requires n < g
    ensures n % g == n
  {
  }

  lemma SmallDiv(n: nat, g: nat)
    requires n < g
    ensures n / g == 0
  {
  }

  lemma ModBelow(n: nat, g: nat)
    requires g > 0
    ensures n % g < g && n % g <= n
  {
  }

  lemma FloorMultiple(n: nat, g: nat)
    requires g > 0
    ensures (n - n % g) % g == 0
  {
    assert n == n / g * g + n % g;
    MultipleMod(n / g, g);
  }

  lemma {:induction false} MultipleMod(q: nat, g: nat)
    requires g > 0
    ensures q * g % g == 0
  {
    if q == 0 {
    } else {
      MultipleMod(q - 1, g);
      assert q * g == (q - 1) * g + g;
      AddPeriod((q - 1) * g, g);
    }
  }

  lemma AddPeriod(n: int, g: nat)
    requires g > 0
    ensures (n + g) % g == n % g
  {
    var q, r := n / g, n % g;
    assert n + g == (q + 1) * g + r by {
      assert n == q * g + r;
      assert (q + 1) * g == q * g + g;
    }
    DivModUnique(n + g, g, q + 1, r);
  }

  lemma DivModUnique(n: int, g: nat, q: int, r: int)
    requires g > 0 && n == q * g + r && 0 <= r < g
    ensures n / g == q && n % g == r
  {
    var q', r' := n / g, n % g;
    assert n == q' * g + r';
    if q' != q {
      MulGap(q, q', g);
      assert false;
    }
  }

  lemma MulGap(a: int, b: int, g: nat)
    requires a != b && g > 0
    ensures a * g - b * g >= g || b * g - a * g >= g
  {
    if a > b {
      MulAhead(a, b, g);
    } else {
      MulAhead(b, a, g);
    }
  }

  lemma MulAhead(a: int, b: int, g: nat)
    requires a > b
    ensures a * g >= b * g + g
  {
    var n: nat := a - b - 1;
    assert a * g == b * g + g + n * g;
  }

  lemma {:induction false} AddMultiple(n: nat, q: nat, g: nat)
    requires g > 0
    ensures (n + q * g) % g == n % g
    decreases q
  {
    if q == 0 {
    } else {
      AddMultiple(n, q - 1, g);
      AddPeriod(n + (q - 1) * g, g);
      assert n + q * g == n + (q - 1) * g + g;
    }
  }

  /** Multiplication under a name, for products the prover should not look into. */
  function Times(a: nat, b: nat): nat {
    a * b
  }

  function Quotient(a: nat, b: nat): nat
    requires b > 0
  {
    a / b
  }

  lemma NextQuotient(n: nat, g: nat)
    requires g > 0
    ensures (n + 1) / g == n / g + if (n + 1) % g == 0 then 1 else 0
  {
    assert n == n / g * g + n % g;
    if n % g + 1 < g {
      DivModUnique(n + 1, g, n / g, n % g + 1);
    } else {
      assert n + 1 == (n / g + 1) * g by {
        assert (n / g + 1) * g == n / g * g + g;
      }
      DivModUnique(n + 1, g, n / g + 1, 0);
    }
  }

  lemma DivMono(a: nat, b: nat, g: nat)
    requires a <= b && g > 0
    ensures a / g <= b / g
  {
    assert a <= b < (b / g + 1) * g by {
      assert b == b / g * g + b % g;
      assert (b / g + 1) * g == b / g * g + g;
    }
    if a / g > b / g {
      MulMono(b / g + 1, a / g, g);
      assert false;
    }
  }
}
