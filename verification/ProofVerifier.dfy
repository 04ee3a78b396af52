/** The order checks as the pallet runs them: loops over maker accounts and order pages. */
module ProofVerifier {
  import opened Arith
  import opened Ledgers
  import opened Wrappers
  import opened VerifierTypes
  import opened ProofChecks

  /** What the maker leaves at parity `off` moved, in the direction they must move. */
  function Moved(leaves: seq<Leaf>, n: nat, off: nat, grows: bool): int
    requires off <= 2 && 2 * n < |leaves|
  {
    if grows then Change(leaves, n, off) else -Change(leaves, n, off)
  }

  lemma {:induction false} MovedGrows(
    r: Reserves, d: Account, o: Order, leaves: seq<Leaf>, i: nat, n: nat, baseGrows: bool)
    requires i <= n && 2 * n < |leaves|
    requires MakersOk(r, d, o, leaves, n, baseGrows)
    ensures Moved(leaves, i, 1, baseGrows) <= Moved(leaves, n, 1, baseGrows)
    ensures Moved(leaves, i, 2, !baseGrows) <= Moved(leaves, n, 2, !baseGrows)
    decreases n - i
  {
    if i == n {
    } else {
      assert AccountPair(r, d, o, leaves[2 * i + 1], leaves[2 * i + 2], baseGrows);
      MovedGrows(r, d, o, leaves, i + 1, n, baseGrows);
    }
  }

  /** The loop over maker accounts. */
  method CheckMakers(r: Reserves, d: Account, o: Order, leaves: seq<Leaf>, n: nat, baseGrows: bool)
    returns (ok: bool, base: nat, quote: nat, out: seq<MakerMutation>)
    requires 2 * n < |leaves|
    ensures ok <==>
            && MakersOk(r, d, o, leaves, n, baseGrows)
            && Moved(leaves, n, 1, baseGrows) <= U128_MAX
            && Moved(leaves, n, 2, !baseGrows) <= U128_MAX
    ensures ok ==> base == Moved(leaves, n, 1, baseGrows) && quote == Moved(leaves, n, 2, !baseGrows)
    ensures ok ==> out == Mutations(leaves, n)
  {
    ok, base, quote, out := true, 0, 0, [];
    for i := 0 to n
      invariant ok && MakersOk(r, d, o, leaves, i, baseGrows)
      invariant base == Moved(leaves, i, 1, baseGrows) <= U128_MAX
      invariant quote == Moved(leaves, i, 2, !baseGrows) <= U128_MAX
      invariant out == Mutations(leaves, i)
    {
      var b, q := leaves[2 * i + 1], leaves[2 * i + 2];
      if !AccountPair(r, d, o, b, q, baseGrows) {
        ok := false;
        return;
      }
      base := base + Distance(b.OldSum(), b.NewSum());
      quote := quote + Distance(q.OldSum(), q.NewSum());
      if base > U128_MAX || quote > U128_MAX {
        ok := false;
        if MakersOk(r, d, o, leaves, n, baseGrows) {
          MovedGrows(r, d, o, leaves, i + 1, n, baseGrows);
        }
        return;
      }
      out := out + [MakerMutation(Who(b), Distance(q.OldSum(), q.NewSum()), b.NewSum(), q.NewSum())];
    }
  }

  lemma {:induction false} OldTotalPrefix(ps: seq<Leaf>, i: nat)
    requires i <= |ps|
    ensures OldTotal(ps[..i]) <= OldTotal(ps)
  {
    if i < |ps| {
      OldTotalPrefix(ps[..|ps| - 1], i);
      assert ps[..|ps| - 1][..i] == ps[..i];
    } else {
      assert ps[..i] == ps;
    }
  }

  lemma {:induction false} SweptPrefix(ps: seq<Leaf>, i: nat, o: Order, start: nat, down: bool)
    requires i <= |ps| && Swept(ps, o, start, down)
    ensures Swept(ps[..i], o, start, down)
  {
    if i < |ps| {
      SweptPrefix(ps[..|ps| - 1], i, o, start, down);
      assert ps[..|ps| - 1][..i] == ps[..i];
    } else {
      assert ps[..i] == ps;
    }
  }

  /** The loop over the pages an order takes as a whole. */
  method CheckPages(ps: seq<Leaf>, o: Order, start: nat, down: bool)
    returns (ok: bool, taken: nat, pre: nat)
    ensures ok <==> Swept(ps, o, start, down) && OldTotal(ps) <= U128_MAX
    ensures ok ==> taken == OldTotal(ps) && pre == EndPrice(ps, start)
  {
    ok, taken, pre := true, 0, start;
    for i := 0 to |ps|
      invariant ok && Swept(ps[..i], o, start, down)
      invariant taken == OldTotal(ps[..i]) <= U128_MAX && pre == EndPrice(ps[..i], start)
    {
      var page := ps[i];
      assert ps[..i + 1][..i] == ps[..i];
      if !IsPage(page.key, o.base, o.quote) || !page.Fits() || page.NewSum() != 0
         || !Follows(pre, page.Price(), down) || taken + page.OldSum() > U128_MAX {
        ok := false;
        OldTotalPrefix(ps, i + 1);
        if Swept(ps, o, start, down) {
          SweptPrefix(ps, i + 1, o, start, down);
        }
        return;
      }
      pre := page.Price();
      taken := taken + page.OldSum();
    }
    assert ps[..|ps|] == ps;
  }

  method CheckAskWalk(o: Order, leaves: seq<Leaf>, makers: nat, pages: nat) returns (ok: bool)
    requires Shape(leaves, makers, pages) && leaves[0].oldR >= leaves[0].newR
    ensures ok == AskWalk(o, leaves, makers, pages)
  {
    var best, last, ps := leaves[makers + 3], leaves[|leaves| - 1], Pages(leaves, makers);
    var placed, sold := leaves[0].newL != leaves[0].oldL, leaves[0].oldR - leaves[0].newR;
    if !IsSymbol(best.key, o.base, o.quote) {
      return false;
    }
    if sold == 0 {
      ok := best.newR == best.oldR
            && (placed ==>
                  && IsPage(last.key, o.base, o.quote) && last.Fits() && last.Price() > best.newR
                  && o.amount == last.NewSum() - last.OldSum());
      return;
    }
    if pages == 0 || o.price > best.oldR || best.oldR + 1 > U128_MAX {
      return false;
    }
    assert ps[pages - 1] == last;
    var walked, taken, pre := CheckPages(ps[..pages - 1], o, best.oldR + 1, true);
    if !walked || !IsPage(last.key, o.base, o.quote) || !last.Fits() || pre <= last.Price()
      || last.Price() < best.newR {
      return false;
    }
    if placed {
      ok := best.newL == o.price && last.Price() == o.price && taken + last.OldSum() + last.NewSum() == o.amount;
    } else {
      ok := best.newL == best.oldL && taken + last.OldSum() <= U128_MAX
            && sold == taken + last.OldSum() - last.NewSum();
    }
  }

  method CheckBidWalk(o: Order, leaves: seq<Leaf>, makers: nat, pages: nat) returns (ok: bool)
    requires Shape(leaves, makers, pages) && leaves[0].oldL >= leaves[0].newL
    ensures ok == BidWalk(o, leaves, makers, pages)
  {
    var best, last, ps := leaves[makers + 3], leaves[|leaves| - 1], Pages(leaves, makers);
    var placed, sold := leaves[0].newR != leaves[0].oldR, leaves[0].oldL - leaves[0].newL;
    if !IsSymbol(best.key, o.base, o.quote) {
      return false;
    }
    if sold == 0 {
      ok := best.newL == best.oldL
            && (placed ==>
                  && IsPage(last.key, o.base, o.quote) && last.Fits() && last.Price() == o.price
                  && o.amount == last.NewSum() - last.OldSum());
      return;
    }
    if pages == 0 || o.price < best.oldL {
      return false;
    }
    assert ps[pages - 1] == last;
    var walked, taken, pre := CheckPages(ps[..pages - 1], o, best.oldL, false);
    if !walked || !IsPage(last.key, o.base, o.quote) || !last.Fits() {
      return false;
    }
    if placed {
      ok := last.Price() == o.price && best.newR == o.price && taken + last.OldSum() + last.NewSum() == o.amount;
    } else {
      ok := best.newR == best.oldR && taken + last.OldSum() <= U128_MAX
            && sold == taken + last.OldSum() - last.NewSum();
    }
  }

  /** `verify_ask_limit`. */
  method VerifyAskLimit(r: Reserves, d: Account, o: Order, makers: nat, pages: nat, leaves: seq<Leaf>)
    returns (c: Option<Clearing>)
    ensures c.Some? <==> AskAccepts(r, d, o, makers, pages, leaves)
    ensures c.Some? ==> c.value == ClearingOf(o, leaves, makers, true)
  {
    hide MulCeil, Mutations, MakersOk, AskWalk, AccountPair;
    if !Shape(leaves, makers, pages) {
      return None;
    }
    var b, q := leaves[makers + 1], leaves[makers + 2];
    if !AskTaker(r, d, o, leaves[0], b, q) {
      return None;
    }
    var ok, bought, paid, out := CheckMakers(r, d, o, leaves, makers / 2, true);
    var sold, got := b.OldSum() - b.NewSum(), q.NewSum() - q.OldSum();
    if !ok || bought + MulCeil(o.makerFee, sold) != sold || got + MulCeil(o.takerFee, paid) != paid {
      return None;
    }
    var walked := CheckAskWalk(o, leaves, makers, pages);
    if !walked {
      return None;
    }
    c := Some(Clearing(out, TakerMutation(Who(b), q.newR, paid, sold, b.NewSum(), q.NewSum()),
                       MulCeil(o.makerFee, sold), MulCeil(o.takerFee, paid)));
  }

  /** `verify_bid_limit`. */
  method VerifyBidLimit(r: Reserves, d: Account, o: Order, makers: nat, pages: nat, leaves: seq<Leaf>)
    returns (c: Option<Clearing>)
    ensures c.Some? <==> BidAccepts(r, d, o, makers, pages, leaves)
    ensures c.Some? ==> c.value == ClearingOf(o, leaves, makers, false)
  {
    hide MulCeil, Mutations, MakersOk, BidWalk;
    if !Shape(leaves, makers, pages) {
      return None;
    }
    var b, q := leaves[makers + 1], leaves[makers + 2];
    if !BidTaker(r, d, o, leaves[0], b, q) {
      return None;
    }
    var ok, sold, earned, out := CheckMakers(r, d, o, leaves, makers / 2, false);
    var bought, paid := b.NewSum() - b.OldSum(), q.OldSum() - q.NewSum();
    if !ok || earned + MulCeil(o.makerFee, paid) != paid || bought + MulCeil(o.takerFee, sold) != sold {
      return None;
    }
    var placed := leaves[0].newR - leaves[0].oldR;
    if leaves[0].oldL - leaves[0].newL != sold || (placed != 0 && placed != o.amount - sold) {
      return None;
    }
    var walked := CheckBidWalk(o, leaves, makers, pages);
    if !walked {
      return None;
    }
    c := Some(Clearing(out, TakerMutation(Who(b), q.newR, paid, sold, b.NewSum(), q.NewSum()),
                       MulCeil(o.takerFee, sold), MulCeil(o.makerFee, paid)));
  }
}
