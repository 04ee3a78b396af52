/** Parts of an amount as the runtime computes them: a fraction rounded down, times an amount rounded to the nearest
    unit. */
module Ratios {
  import opened Arith

  /** `f` is `part` out of `whole` in parts of 10^18, at most the whole, rounded down. */
  predicate Fraction(f: nat, part: nat, whole: nat) {
    f * whole <= (if part < whole then part else whole) * QUINTILL < (f + 1) * whole
  }

  /** `c` is the given fraction of `amount`, rounded to the nearest unit, ties down. */
  predicate Nearest(c: nat, f: nat, amount: nat) {
    2 * f * amount <= 2 * QUINTILL * c + QUINTILL && 2 * QUINTILL * c < 2 * f * amount + QUINTILL
  }

  /** At most half a unit above the exact portion, and at most half a unit and 10^-18 of the amount below it; all of it
      for the whole. */
  predicate Near(c: nat, part: nat, whole: nat, amount: nat) {
    && (part >= whole ==> c == amount)
    && (part <= whole ==>
          && 2 * (c * whole - part * amount) <= whole
          && 2 * QUINTILL * (part * amount - c * whole) <= (QUINTILL + 2 * amount) * whole)
  }

  /** What `part` out of `whole` gets of `amount`. */
  ghost predicate Portion(c: nat, part: nat, whole: nat, amount: nat) {
    && Near(c, part, whole, amount)
    && exists f: nat :: Fraction(f, part, whole) && Nearest(c, f, amount)
  }

  lemma FractionIs(part: nat, whole: nat)
    requires whole > 0
    ensures Fraction(FromRational(part, whole), part, whole)
  {
    var n := (if part < whole then part else whole) * QUINTILL;
    FloorBounds(n, whole);
    assert (n / whole + 1) * whole == n / whole * whole + whole;
    assert FromRational(part, whole) == n / whole by {
      assert Min(part, whole) == if part < whole then part else whole;
    }
  }

  lemma NearestIs(f: nat, amount: nat)
    ensures Nearest(MulNearest(f, amount), f, amount)
  {
    var n := f * amount;
    assert n == n / QUINTILL * QUINTILL + n % QUINTILL;
    assert 2 * f * amount == 2 * n;
  }

  /** A fraction and its nearest multiple are the only ones. */
  lemma NearestOnly(c: nat, c': nat, f: nat, f': nat, part: nat, whole: nat, amount: nat)
    requires Fraction(f, part, whole) && Fraction(f', part, whole) && Nearest(c, f, amount) && Nearest(c', f', amount)
    ensures f == f' && c == c'
  {
    if f < f' {
      MulMono(f + 1, f', whole);
      assert false;
    }
    if f' < f {
      MulMono(f' + 1, f, whole);
      assert false;
    }
  }

  lemma Above(c: nat, f: nat, part: nat, whole: nat, amount: nat)
    requires f * whole <= part * QUINTILL && 2 * QUINTILL * c <= 2 * f * amount + QUINTILL
    ensures 2 * (c * whole - part * amount) <= whole
  {
    calc {
      QUINTILL * (2 * c * whole);
      ==
      2 * QUINTILL * c * whole;
      <= { MulMono(2 * QUINTILL * c, 2 * f * amount + QUINTILL, whole); }
      (2 * f * amount + QUINTILL) * whole;
      == { assert 2 * f * amount * whole == 2 * (f * whole) * amount; }
      2 * (f * whole) * amount + QUINTILL * whole;
      <= { MulMono(f * whole, part * QUINTILL, 2 * amount); }
      2 * (part * QUINTILL) * amount + QUINTILL * whole;
      ==
      QUINTILL * (2 * part * amount + whole);
    }
  }

  lemma Below(c: nat, f: nat, part: nat, whole: nat, amount: nat)
    requires part * QUINTILL <= (f + 1) * whole && 2 * f * amount <= 2 * QUINTILL * c + QUINTILL
    ensures 2 * QUINTILL * (part * amount - c * whole) <= (QUINTILL + 2 * amount) * whole
  {
    calc {
      2 * QUINTILL * part * amount;
      == { assert 2 * QUINTILL * part * amount == part * QUINTILL * (2 * amount); }
      part * QUINTILL * (2 * amount);
      <= { MulMono(part * QUINTILL, (f + 1) * whole, 2 * amount); }
      (f + 1) * whole * (2 * amount);
      == { assert (f + 1) * whole * (2 * amount) == (2 * f * amount + 2 * amount) * whole; }
      (2 * f * amount + 2 * amount) * whole;
      <= { MulMono(2 * f * amount, 2 * QUINTILL * c + QUINTILL, whole); }
      (2 * QUINTILL * c + QUINTILL + 2 * amount) * whole;
    }
  }

  lemma NearIs(c: nat, f: nat, part: nat, whole: nat, amount: nat)
    requires whole > 0 && Fraction(f, part, whole) && Nearest(c, f, amount)
    ensures Near(c, part, whole, amount)
  {
    if part >= whole {
      WholeFraction(f, whole);
      WholeShare(c, amount);
    }
    if part <= whole {
      Above(c, f, part, whole, amount);
      Below(c, f, part, whole, amount);
    }
  }

  lemma WholeFraction(f: nat, whole: nat)
    requires whole > 0 && f * whole <= whole * QUINTILL < (f + 1) * whole
    ensures f == QUINTILL
  {
    if f < QUINTILL {
      MulMono(f + 1, QUINTILL, whole);
      assert false;
    }
    if f > QUINTILL {
      MulAhead(f, QUINTILL, whole);
      assert false;
    }
  }

  lemma WholeShare(c: nat, amount: nat)
    requires Nearest(c, QUINTILL, amount)
    ensures c == amount
  {
  }

  /** A portion is determined by part, whole and amount. */
  lemma PortionOnly(c: nat, c': nat, part: nat, whole: nat, amount: nat)
    requires Portion(c, part, whole, amount) && Portion(c', part, whole, amount)
    ensures c == c'
  {
    hide Near, Fraction, Nearest;
    var f: nat :| Fraction(f, part, whole) && Nearest(c, f, amount);
    var f': nat :| Fraction(f', part, whole) && Nearest(c', f', amount);
    NearestOnly(c, c', f, f', part, whole, amount);
  }

  lemma PortionIs(part: nat, whole: nat, amount: nat)
    requires whole > 0
    ensures Portion(MulNearest(FromRational(part, whole), amount), part, whole, amount)
  {
    hide MulNearest, FromRational, Nearest, Fraction, Near;
    var f := FromRational(part, whole);
    FractionIs(part, whole);
    NearestIs(f, amount);
    NearIs(MulNearest(f, amount), f, part, whole, amount);
  }
}
