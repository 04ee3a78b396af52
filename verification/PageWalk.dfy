/** What an accepted order says about the pages it walks through. */
module PageWalk {
  import opened Arith
  import opened Ledgers
  import opened Wrappers
  import opened VerifierTypes
  import opened ProofChecks
  import opened Coupling

  lemma {:induction false} SweptEmpties(ps: seq<Leaf>, o: Order, start: nat, down: bool)
    requires Swept(ps, o, start, down)
    ensures NewTotal(ps) == 0
    ensures forall i | 0 <= i < |ps| :: IsPage(ps[i].key, o.base, o.quote) && ps[i].NewSum() == 0
  {
    if ps == [] {
    } else {
      SweptEmpties(ps[..|ps| - 1], o, start, down);
    }
  }

  /** The prices of a downward walk strictly decrease from below `start`. */
  lemma {:induction false} SweptDescends(ps: seq<Leaf>, o: Order, start: nat)
    requires Swept(ps, o, start, true)
    ensures forall i | 0 <= i < |ps| :: EndPrice(ps, start) <= ps[i].Price() < start
    ensures forall i, j | 0 <= i < j < |ps| :: ps[i].Price() > ps[j].Price()
  {
    if ps == [] {
    } else {
      SweptDescends(ps[..|ps| - 1], o, start);
    }
  }

  lemma {:induction false} SweptClimbs(ps: seq<Leaf>, o: Order, start: nat)
    requires Swept(ps, o, start, false)
    ensures forall i | 0 <= i < |ps| :: start <= ps[i].Price() <= EndPrice(ps, start)
    ensures forall i, j | 0 <= i < j < |ps| :: ps[i].Price() <= ps[j].Price()
  {
    if ps == [] {
    } else {
      SweptClimbs(ps[..|ps| - 1], o, start);
    }
  }

  /** An accepted trading ask walks down from the old best bid to the new one, emptying all pages but the last. */
  lemma AskPageWalk(r: Reserves, d: Account, o: Order, makers: nat, pages: nat, leaves: seq<Leaf>)
    requires AskAccepts(r, d, o, makers, pages, leaves) && leaves[0].oldR != leaves[0].newR
    ensures var ps, best := Pages(leaves, makers), leaves[makers + 3];
            && |ps| == pages > 0
            && ps[0].Price() <= best.oldR && best.newR <= ps[pages - 1].Price()
            && (forall i, j | 0 <= i < j < pages :: ps[i].Price() > ps[j].Price())
            && (forall i | 0 <= i < pages - 1 :: ps[i].NewSum() == 0)
    ensures leaves[0].oldL == leaves[0].newL ==>
              var ps := Pages(leaves, makers);
              OldTotal(ps) - NewTotal(ps) == leaves[0].oldR - leaves[0].newR == Traded(leaves, makers, true).0
  {
    hide MulCeil, Change, AuthorizedOn, Swept, OldTotal, NewTotal, EndPrice;
    var ps, best := Pages(leaves, makers), leaves[makers + 3];
    WalkEnd(ps, o, best.oldR + 1, true);
    SweptDescends(ps[..pages - 1], o, best.oldR + 1);
  }

  /** Totals of a walk whose pages but the last are emptied. */
  lemma WalkEnd(ps: seq<Leaf>, o: Order, start: nat, down: bool)
    requires |ps| > 0 && Swept(ps[..|ps| - 1], o, start, down)
    ensures NewTotal(ps) == ps[|ps| - 1].NewSum()
    ensures OldTotal(ps) == OldTotal(ps[..|ps| - 1]) + ps[|ps| - 1].OldSum()
    ensures forall i | 0 <= i < |ps| - 1 :: ps[i].NewSum() == 0 && ps[i].key.PageKey?
    ensures |ps| == 1 ==> EndPrice(ps[..|ps| - 1], start) == start
    ensures |ps| > 1 ==> EndPrice(ps[..|ps| - 1], start) == ps[|ps| - 2].Price()
  {
    SweptEmpties(ps[..|ps| - 1], o, start, down);
    forall i | 0 <= i < |ps| - 1 ensures ps[i].NewSum() == 0 && ps[i].key.PageKey? {
      assert ps[i] == ps[..|ps| - 1][i];
    }
  }

  /** An accepted trading bid walks up from the old best ask, emptying all pages but the last; with distinct keys
      the climb is strict. */
  lemma BidPageWalk(r: Reserves, d: Account, o: Order, makers: nat, pages: nat, leaves: seq<Leaf>)
    requires BidAccepts(r, d, o, makers, pages, leaves) && leaves[0].oldL != leaves[0].newL && DistinctKeys(leaves)
    ensures var ps, best := Pages(leaves, makers), leaves[makers + 3];
            && |ps| == pages > 0
            && (forall i | 0 <= i < pages - 1 :: best.oldL <= ps[i].Price() && ps[i].NewSum() == 0)
            && (forall i, j | 0 <= i < j < pages - 1 :: ps[i].Price() < ps[j].Price())
    ensures leaves[0].oldR == leaves[0].newR ==>
              var ps := Pages(leaves, makers);
              OldTotal(ps) - NewTotal(ps) == leaves[0].oldL - leaves[0].newL == Traded(leaves, makers, false).0
  {
    hide MulCeil, Change, AuthorizedOn, Swept, OldTotal, NewTotal, EndPrice;
    var ps, best := Pages(leaves, makers), leaves[makers + 3];
    var qs := ps[..pages - 1];
    WalkEnd(ps, o, best.oldL, false);
    SweptClimbs(qs, o, best.oldL);
    SweptEmpties(qs, o, best.oldL, false);
    forall i, j | 0 <= i < j < pages - 1 ensures ps[i].Price() < ps[j].Price() {
      assert qs[i] == ps[i] == leaves[makers + 4 + i] && qs[j] == ps[j] == leaves[makers + 4 + j];
      assert leaves[makers + 4 + i].key != leaves[makers + 4 + j].key;
    }
  }

  /** The walk the source's comment promises for a bid: from the old best ask strictly up to the new one. */
  predicate Climbs(ps: seq<Leaf>, low: nat, high: nat) {
    && (forall i | 0 <= i < |ps| :: low <= ps[i].Price() <= high)
    && (forall i, j | 0 <= i < j < |ps| :: ps[i].Price() < ps[j].Price())
  }

  /** The price the last page of a bid follows: the page before it, or the old best ask. */
  function PriceBefore(ps: seq<Leaf>, best: Leaf): nat
    requires |ps| > 0
  {
    if |ps| == 1 then best.oldL else ps[|ps| - 2].Price()
  }

  /** An accepted trading bid walks up from the old to the new best ask exactly when its last page lies between the
      page before it and the new best ask. */
  lemma BidClimbs(r: Reserves, d: Account, o: Order, makers: nat, pages: nat, leaves: seq<Leaf>)
    requires BidAccepts(r, d, o, makers, pages, leaves) && leaves[0].oldL != leaves[0].newL && DistinctKeys(leaves)
    ensures var ps, best := Pages(leaves, makers), leaves[makers + 3];
            && |ps| == pages > 0
            && (Climbs(ps, best.oldL, best.newL)
                <==> PriceBefore(ps, best) <= ps[pages - 1].Price() <= best.newL)
  {
    hide BidMoney, AuthorizedOn, Swept, OldTotal, NewTotal, EndPrice;
    var ps, best := Pages(leaves, makers), leaves[makers + 3];
    var qs, last := ps[..pages - 1], ps[pages - 1];
    BidPageWalk(r, d, o, makers, pages, leaves);
    WalkEnd(ps, o, best.oldL, false);
    SweptEmpties(qs, o, best.oldL, false);
    assert last == leaves[|leaves| - 1] && IsPage(last.key, o.base, o.quote);
    if PriceBefore(ps, best) <= last.Price() <= best.newL {
      forall i | 0 <= i < pages - 1
        ensures ps[i].Price() < last.Price()
      {
        assert ps[i] == qs[i] == leaves[makers + 4 + i];
        assert ps[i].key != last.key;
        assert i < pages - 2 ==> ps[i].Price() < ps[pages - 2].Price();
      }
    }
  }

  /** For a partly filled ask the pages give up what was sold exactly when the last page keeps the unsold rest. */
  lemma AskPartialPages(r: Reserves, d: Account, o: Order, makers: nat, pages: nat, leaves: seq<Leaf>)
    requires AskAccepts(r, d, o, makers, pages, leaves)
    requires leaves[0].oldR != leaves[0].newR && leaves[0].oldL != leaves[0].newL
    ensures var sold := Traded(leaves, makers, true).0;
            OldTotal(Pages(leaves, makers)) == sold <==> leaves[|leaves| - 1].NewSum() == o.amount - sold
  {
    hide MulCeil, Change, AuthorizedOn, Swept, OldTotal, EndPrice;
  }

  /** The same for a partly filled bid. */
  lemma BidPartialPages(r: Reserves, d: Account, o: Order, makers: nat, pages: nat, leaves: seq<Leaf>)
    requires BidAccepts(r, d, o, makers, pages, leaves)
    requires leaves[0].oldL != leaves[0].newL && leaves[0].oldR != leaves[0].newR
    ensures var bought := Traded(leaves, makers, false).0;
            OldTotal(Pages(leaves, makers)) == bought <==> leaves[|leaves| - 1].NewSum() == o.amount - bought
  {
    hide MulCeil, Change, AuthorizedOn, Swept, OldTotal, EndPrice;
  }

  const PARTIAL_ORDER: Order := Order(10, 5, 0, 0, 1, 2)

  /** A maker who has bid for two units at 10 buys one from a taker offering five; the page claims to lose two. */
  predicate PartialCase(ls: seq<Leaf>) {
    && |ls| == 7
    && ls[0] == Leaf(BookKey(1, 2), 0, 2, 4, 1)
    && ls[1] == Leaf(AccountKey(1, 6), 0, 0, 1, 0) && ls[2] == Leaf(AccountKey(2, 6), 0, 20, 0, 10)
    && ls[3] == Leaf(AccountKey(1, 5), 5, 0, 0, 4) && ls[4] == Leaf(AccountKey(2, 5), 0, 0, 10, 0)
    && ls[5] == Leaf(BestKey(1, 2), 0, 10, 10, 0) && ls[6] == Leaf(PageKey(1, 2, 10), 2, 0, 3, 0)
  }

  /** What maker 6 and taker 5 have authorized in base and quote. */
  predicate Authorized(r: Reserves, d: Account, maker: (nat, nat), taker: (nat, nat)) {
    && ReserveAt(r, RKey(ForAuthorizing, 6, 1, d)) == maker.0 && ReserveAt(r, RKey(ForAuthorizing, 6, 2, d)) == maker.1
    && ReserveAt(r, RKey(ForAuthorizing, 5, 1, d)) == taker.0 && ReserveAt(r, RKey(ForAuthorizing, 5, 2, d)) == taker.1
  }

  /** A single maker pair. */
  lemma OneMaker(r: Reserves, d: Account, o: Order, ls: seq<Leaf>, baseGrows: bool)
    requires 2 < |ls| && AccountPair(r, d, o, ls[1], ls[2], baseGrows)
    ensures MakersOk(r, d, o, ls, 1, baseGrows)
    ensures Change(ls, 1, 1) == ls[1].NewSum() - ls[1].OldSum() && Change(ls, 1, 2) == ls[2].NewSum() - ls[2].OldSum()
  {
    hide AccountPair;
    assert Change(ls, 0, 1) == 0 && Change(ls, 0, 2) == 0;
  }

  lemma PartialTaker(r: Reserves, d: Account, ls: seq<Leaf>)
    requires PartialCase(ls) && Authorized(r, d, (0, 20), (5, 0))
    ensures AccountPair(r, d, PARTIAL_ORDER, ls[1], ls[2], true)
    ensures AskTaker(r, d, PARTIAL_ORDER, ls[0], ls[3], ls[4])
  {
    hide ReserveAt;
  }

  lemma PartialMoney(r: Reserves, d: Account, ls: seq<Leaf>)
    requires PartialCase(ls) && Authorized(r, d, (0, 20), (5, 0))
    ensures AskMoney(r, d, PARTIAL_ORDER, ls, 2)
  {
    hide MulCeil, AccountPair, AskTaker, MakersOk, Change, Authorized;
    NoFee(1);
    NoFee(10);
    PartialTaker(r, d, ls);
    OneMaker(r, d, PARTIAL_ORDER, ls, true);
  }

  lemma NoFee(x: nat)
    ensures MulCeil(0, x) == 0
  {
  }

  lemma PartialWalk(ls: seq<Leaf>)
    requires PartialCase(ls)
    ensures AskWalk(PARTIAL_ORDER, ls, 2, 1) && OldTotal(Pages(ls, 2)) == 2
  {
    var ps := Pages(ls, 2);
    assert |ps| == 1 && ps[0] == ls[6] && ps[..0] == [];
    assert OldTotal(ps[..0]) == 0;
  }

  /** The pages of a partly filled ask may disagree with the book: two units leave the page, one leaves the book. */
  lemma PartialAskMismatch(r: Reserves, d: Account, ls: seq<Leaf>)
    requires PartialCase(ls) && Authorized(r, d, (0, 20), (5, 0))
    ensures AskAccepts(r, d, PARTIAL_ORDER, 2, 1, ls)
    ensures ls[0].oldR - ls[0].newR == 1 && OldTotal(Pages(ls, 2)) == 2
  {
    hide AskMoney, AskWalk, OldTotal, Authorized;
    PartialMoney(r, d, ls);
    PartialWalk(ls);
  }

  /** A filled bid of one unit, sold by a maker at the best ask of 10, whose page is that of the bids at 3. */
  predicate FilledCase(ls: seq<Leaf>) {
    && |ls| == 7
    && ls[0] == Leaf(BookKey(1, 2), 1, 1, 0, 1)
    && ls[1] == Leaf(AccountKey(1, 6), 0, 1, 0, 0) && ls[2] == Leaf(AccountKey(2, 6), 0, 0, 10, 0)
    && ls[3] == Leaf(AccountKey(1, 5), 0, 0, 1, 0) && ls[4] == Leaf(AccountKey(2, 5), 10, 0, 0, 0)
    && ls[5] == Leaf(BestKey(1, 2), 10, 3, 20, 3) && ls[6] == Leaf(PageKey(1, 2, 3), 1, 0, 0, 0)
  }

  lemma FilledTaker(r: Reserves, d: Account, ls: seq<Leaf>)
    requires FilledCase(ls) && Authorized(r, d, (1, 0), (0, 10))
    ensures AccountPair(r, d, PARTIAL_ORDER, ls[1], ls[2], false)
    ensures BidTaker(r, d, PARTIAL_ORDER, ls[0], ls[3], ls[4])
  {
    hide ReserveAt;
  }

  lemma FilledMoney(r: Reserves, d: Account, ls: seq<Leaf>)
    requires FilledCase(ls) && Authorized(r, d, (1, 0), (0, 10))
    ensures BidMoney(r, d, PARTIAL_ORDER, ls, 2)
  {
    hide MulCeil, AccountPair, BidTaker, MakersOk, Change, Authorized;
    NoFee(1);
    NoFee(10);
    FilledTaker(r, d, ls);
    OneMaker(r, d, PARTIAL_ORDER, ls, false);
  }

  lemma FilledWalk(ls: seq<Leaf>)
    requires FilledCase(ls)
    ensures BidWalk(PARTIAL_ORDER, ls, 2, 1)
  {
    var ps := Pages(ls, 2);
    assert |ps| == 1 && ps[0] == ls[6] && ps[..0] == [];
    assert OldTotal(ps[..0]) == 0;
  }

  /** The last page of a filled bid is not compared with the best ask: a walk may end below where it starts. */
  lemma BidLastPageFree(r: Reserves, d: Account, ls: seq<Leaf>)
    requires FilledCase(ls) && Authorized(r, d, (1, 0), (0, 10))
    ensures BidAccepts(r, d, PARTIAL_ORDER, 2, 1, ls)
    ensures Pages(ls, 2)[0].Price() < ls[5].oldL
  {
    hide BidMoney, BidWalk, Authorized;
    FilledMoney(r, d, ls);
    FilledWalk(ls);
  }

  /** The side of the book a cancelled page lies on. */
  predicate OnAskSide(ls: seq<Leaf>)
    requires |ls| == 5
  {
    ls[4].Price() >= ls[3].oldL && ls[3].oldL != 0
  }

  /** In an accepted cancel the page gives up all the book loses exactly when the opposite side does not move; the page
      always gives up what its own side loses. */
  lemma CancelOneSide(base: Token, quote: Token, user: Account, ls: seq<Leaf>)
    requires CancelOk(base, quote, user, ls)
    ensures var ask, bid := ls[0].oldL - ls[0].newL, ls[0].oldR - ls[0].newR;
            && ls[4].OldSum() - ls[4].NewSum() == (if OnAskSide(ls) then ask else bid)
            && (ls[4].OldSum() - ls[4].NewSum() == ask + bid <==> (if OnAskSide(ls) then bid else ask) == 0)
  {
    hide DisjointBits, IsSymbol, IsPage, Reshuffled;
  }

  /** Both book sizes fall: asks by one and bids by two. */
  predicate BothSidesCase(ls: seq<Leaf>) {
    && |ls| == 5 && ls[0] == Leaf(BookKey(1, 2), 1, 2, 0, 0)
    && ls[1] == Leaf(AccountKey(1, 5), 0, 1, 1, 0) && ls[2] == Leaf(AccountKey(2, 5), 0, 0, 0, 0)
    && ls[3] == Leaf(BestKey(1, 2), 10, 5, 10, 5) && ls[4] == Leaf(PageKey(1, 2, 10), 1, 0, 0, 0)
  }

  lemma BothSidesSlots(ls: seq<Leaf>)
    requires BothSidesCase(ls)
    ensures IsSymbol(ls[0].key, 1, 2) && IsPage(ls[4].key, 1, 2) && ls[4].Fits()
    ensures Reshuffled(ls[1], 1, 5) && Reshuffled(ls[2], 2, 5)
    ensures ls[4].OldSum() - ls[4].NewSum() == 1 && ls[4].Price() == 10
  {
  }

  /** The bitwise test accepts such a cancel. */
  lemma CancelBothSides(ls: seq<Leaf>)
    requires BothSidesCase(ls)
    ensures CancelOk(1, 2, 5, ls)
  {
    hide DisjointBits, IsSymbol, IsPage, Reshuffled;
    BothSidesSlots(ls);
    OneTwo();
  }

  lemma OneTwo()
    ensures DisjointBits(1, 2)
  {
    assert DisjointBits(0, 1);
  }
}
