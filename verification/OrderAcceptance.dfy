/** When an order is accepted, stated over the order and its leaves alone: the terms below share nothing with the checks
    of the pallet, and the lemmas after them show that the two agree. */
module OrderAcceptance {
  import opened Arith
  import opened Ledgers
  import opened Wrappers
  import opened VerifierTypes
  import opened ProofChecks

  function Before(l: Leaf): nat { l.oldL + l.oldR }

  function After(l: Leaf): nat { l.newL + l.newR }

  /** What the first `n` slots of one token, base at offset 1 and quote at offset 2, gain together. */
  function Gained(ls: seq<Leaf>, n: nat, off: nat): int
    requires off <= 2 && (n > 0 ==> 2 * (n - 1) + off < |ls|)
  {
    if n == 0 then 0 else Gained(ls, n - 1, off) + After(ls[2 * (n - 1) + off]) - Before(ls[2 * (n - 1) + off])
  }

  /** What the leaves `from..until` held before. */
  function Volume(ls: seq<Leaf>, from: nat, until: nat): nat
    requires from <= until <= |ls|
    decreases until
  {
    if until == from then 0 else Volume(ls, from, until - 1) + Before(ls[until - 1])
  }

  /** `fee` is the given share of `x` in millionths, at most all of it, rounded up. */
  predicate RoundedUp(fee: int, rate: nat, x: nat) {
    1_000_000 * (fee - 1) < (if rate < 1_000_000 then rate else 1_000_000) * x <= 1_000_000 * fee
  }

  /** A slot of account `who` in `token`: its old sum is authorized up to 10^11. */
  predicate Slot(r: Reserves, d: Account, l: Leaf, token: Token, who: Account) {
    && l.key == AccountKey(token, who)
    && Before(l) <= U128_MAX && After(l) <= U128_MAX
    && -100_000_000_000 <= ReserveAt(r, RKey(ForAuthorizing, who, token, d)) - Before(l) <= 100_000_000_000
  }

  /** Slots `2 j + 1` and `2 j + 2` belong to one account, which gets base for quote if `buys`, or the reverse. */
  predicate Trader(r: Reserves, d: Account, o: Order, ls: seq<Leaf>, j: nat, buys: bool)
    requires 2 * j + 2 < |ls|
  {
    var b, q := ls[2 * j + 1], ls[2 * j + 2];
    && b.key.AccountKey? && Slot(r, d, b, o.base, b.key.who) && Slot(r, d, q, o.quote, b.key.who)
    && (if buys then Before(b) <= After(b) && After(q) <= Before(q) else After(b) <= Before(b) && Before(q) <= After(q))
  }

  /** Every maker trades against the taker, who comes last. */
  predicate Traders(r: Reserves, d: Account, o: Order, ls: seq<Leaf>, makers: nat, ask: bool)
    requires makers % 2 == 0 && makers + 2 < |ls|
  {
    && (forall j | 0 <= j < makers / 2 :: Trader(r, d, o, ls, j, ask))
    && Trader(r, d, o, ls, makers / 2, !ask)
  }

  predicate Announced(ls: seq<Leaf>, makers: nat, pages: nat) {
    makers % 2 == 0 && |ls| == 4 + makers + pages <= 255
  }

  predicate InMarket(l: Leaf, o: Order) {
    (l.key.BookKey? || l.key.BestKey?) && l.key.base == o.base && l.key.quote == o.quote
  }

  predicate OnPage(l: Leaf, o: Order) {
    l.key.PageKey? && l.key.base == o.base && l.key.quote == o.quote && Before(l) <= U128_MAX && After(l) <= U128_MAX
  }

  function PriceOf(l: Leaf): nat {
    if l.key.PageKey? then l.key.price else 0
  }

  // --- asks ---

  /** What the taker sells the makers get less the maker fee, what the makers pay the taker gets less the taker fee. */
  predicate AskPaid(o: Order, ls: seq<Leaf>, makers: nat)
    requires makers % 2 == 0 && makers + 3 <= |ls|
  {
    var sold, paid := Before(ls[makers + 1]) - After(ls[makers + 1]), 0 - Gained(ls, makers / 2, 2);
    && 0 <= sold && RoundedUp(sold - Gained(ls, makers / 2, 1), o.makerFee, sold)
    && 0 <= paid <= U128_MAX && RoundedUp(paid - (After(ls[makers + 2]) - Before(ls[makers + 2])), o.takerFee, paid)
  }

  /** The book gains an ask, which is then the whole amount out of what the taker has available, or the taker's frozen
      part stays; it loses as many bids as the taker sells. */
  predicate AskBook(o: Order, ls: seq<Leaf>, makers: nat)
    requires makers + 3 <= |ls|
  {
    var book, b := ls[0], ls[makers + 1];
    && InMarket(book, o) && book.oldL <= book.newL
    && (if book.oldL < book.newL then b.oldL == b.newL + o.amount else b.oldR == b.newR)
    && book.oldR == book.newR + (Before(b) - After(b)) && book.newR <= book.oldR
  }

  /** A trading ask has a limit at most the best bid, below which its pages descend to the new best bid; all but the
      last are emptied. What they held is the amount, less what rests; or what is sold, plus what the last page
      keeps. */
  predicate AskTrades(o: Order, ls: seq<Leaf>, makers: nat, pages: nat)
    requires |ls| == 4 + makers + pages
  {
    var book, best, last := ls[0], ls[makers + 3], ls[|ls| - 1];
    && pages > 0 && o.price <= best.oldR < U128_MAX
    && (forall i | makers + 4 <= i < |ls| :: OnPage(ls[i], o) && best.newR <= PriceOf(ls[i]) <= best.oldR)
    && (forall i, j | makers + 4 <= i < j < |ls| :: PriceOf(ls[i]) > PriceOf(ls[j]))
    && (forall i | makers + 4 <= i < |ls| - 1 :: After(ls[i]) == 0)
    && Volume(ls, makers + 4, |ls| - 1) <= U128_MAX
    && (if book.oldL < book.newL then
          && best.newL == o.price == PriceOf(last)
          && Volume(ls, makers + 4, |ls|) + After(last) == o.amount
        else
          && best.newL == best.oldL && Volume(ls, makers + 4, |ls|) <= U128_MAX
          && Volume(ls, makers + 4, |ls|) == book.oldR - book.newR + After(last))
  }

  /** An ask that does not trade keeps the best bid; its page lies above it and gains the whole amount. */
  predicate AskRests(o: Order, ls: seq<Leaf>, makers: nat)
    requires makers + 4 <= |ls|
  {
    var book, best, last := ls[0], ls[makers + 3], ls[|ls| - 1];
    && best.newR == best.oldR
    && (book.oldL < book.newL ==>
          OnPage(last, o) && best.newR < PriceOf(last) && After(last) == Before(last) + o.amount)
  }

  predicate AskTerms(r: Reserves, d: Account, o: Order, makers: nat, pages: nat, ls: seq<Leaf>) {
    && Announced(ls, makers, pages)
    && Traders(r, d, o, ls, makers, true) && AskPaid(o, ls, makers) && AskBook(o, ls, makers)
    && InMarket(ls[makers + 3], o)
    && if ls[0].oldR == ls[0].newR then AskRests(o, ls, makers) else AskTrades(o, ls, makers, pages)
  }

  // --- bids ---

  /** What the taker pays the makers get less the maker fee, what the makers sell the taker gets less the taker fee. */
  predicate BidPaid(o: Order, ls: seq<Leaf>, makers: nat)
    requires makers % 2 == 0 && makers + 3 <= |ls|
  {
    var paid, sold := Before(ls[makers + 2]) - After(ls[makers + 2]), 0 - Gained(ls, makers / 2, 1);
    && 0 <= paid && RoundedUp(paid - Gained(ls, makers / 2, 2), o.makerFee, paid)
    && 0 <= sold <= U128_MAX && RoundedUp(sold - (After(ls[makers + 1]) - Before(ls[makers + 1])), o.takerFee, sold)
  }

  /** The book loses as many asks as the makers sell, and gains what is left of the amount, or nothing. */
  predicate BidBook(o: Order, ls: seq<Leaf>, makers: nat)
    requires makers % 2 == 0 && makers + 3 <= |ls|
  {
    var book, sold := ls[0], 0 - Gained(ls, makers / 2, 1);
    && book.oldL == book.newL + sold && book.oldR <= book.newR
    && (book.oldR < book.newR ==> book.newR - book.oldR == o.amount - sold)
  }

  /** A trading bid has a limit at least the best ask, from which its emptied pages climb. What all pages held is the
      amount, less what rests; or what is bought, plus what the last page keeps. */
  predicate BidTrades(o: Order, ls: seq<Leaf>, makers: nat, pages: nat)
    requires |ls| == 4 + makers + pages
  {
    var book, best, last := ls[0], ls[makers + 3], ls[|ls| - 1];
    && pages > 0 && best.oldL <= o.price
    && (forall i | makers + 4 <= i < |ls| :: OnPage(ls[i], o))
    && (forall i | makers + 4 <= i < |ls| - 1 :: After(ls[i]) == 0 && best.oldL <= PriceOf(ls[i]))
    && (forall i, j | makers + 4 <= i < j < |ls| - 1 :: PriceOf(ls[i]) <= PriceOf(ls[j]))
    && Volume(ls, makers + 4, |ls| - 1) <= U128_MAX
    && (if book.oldR < book.newR then
          && best.newR == o.price == PriceOf(last)
          && Volume(ls, makers + 4, |ls|) + After(last) == o.amount
        else
          && best.newR == best.oldR && Volume(ls, makers + 4, |ls|) <= U128_MAX
          && Volume(ls, makers + 4, |ls|) == book.oldL - book.newL + After(last))
  }

  /** A bid that does not trade keeps the best ask; its page is that of its price and gains the whole amount. */
  predicate BidRests(o: Order, ls: seq<Leaf>, makers: nat)
    requires makers + 4 <= |ls|
  {
    var book, best, last := ls[0], ls[makers + 3], ls[|ls| - 1];
    && best.newL == best.oldL
    && (book.oldR < book.newR ==>
          OnPage(last, o) && PriceOf(last) == o.price && After(last) == Before(last) + o.amount)
  }

  predicate BidTerms(r: Reserves, d: Account, o: Order, makers: nat, pages: nat, ls: seq<Leaf>) {
    && Announced(ls, makers, pages)
    && Traders(r, d, o, ls, makers, false) && BidPaid(o, ls, makers) && BidBook(o, ls, makers)
    && InMarket(ls[makers + 3], o)
    && if ls[0].oldL == ls[0].newL then BidRests(o, ls, makers) else BidTrades(o, ls, makers, pages)
  }

  // --- the two descriptions agree ---

  lemma FeeIff(fee: int, rate: nat, x: nat)
    ensures RoundedUp(fee, rate, x) <==> fee == MulCeil(rate, x)
  {
    var n := Min(rate, MILLION) * x;
    FloorBounds(n + MILLION - 1, MILLION);
  }

  lemma {:induction false} GainedIs(ls: seq<Leaf>, n: nat, off: nat)
    requires off <= 2 && 2 * n < |ls|
    ensures Gained(ls, n, off) == Change(ls, n, off)
  {
    if n == 0 {
    } else {
      GainedIs(ls, n - 1, off);
    }
  }

  lemma {:induction false} VolumeIs(ls: seq<Leaf>, from: nat, n: nat)
    requires from + n <= |ls|
    ensures Volume(ls, from, from + n) == OldTotal(ls[from..][..n])
  {
    var ps := ls[from..][..n];
    if n == 0 {
    } else {
      VolumeIs(ls, from, n - 1);
      assert ps[..n - 1] == ls[from..][..n - 1] && ps[n - 1] == ls[from + n - 1];
    }
  }

  /** Pages in order and emptied. */
  predicate Emptied(ps: seq<Leaf>, o: Order, start: nat, down: bool) {
    && (forall i | 0 <= i < |ps| ::
          OnPage(ps[i], o) && After(ps[i]) == 0 && (if down then PriceOf(ps[i]) < start else start <= PriceOf(ps[i])))
    && (forall i, j | 0 <= i < j < |ps| ::
          if down then PriceOf(ps[i]) > PriceOf(ps[j]) else PriceOf(ps[i]) <= PriceOf(ps[j]))
  }

  lemma {:induction false} SweptIff(ps: seq<Leaf>, o: Order, start: nat, down: bool)
    ensures Swept(ps, o, start, down) <==> Emptied(ps, o, start, down)
  {
    if ps == [] {
    } else {
      var n := |ps| - 1;
      var before, last := ps[..n], ps[n];
      SweptIff(before, o, start, down);
      assert ps == before + [last];
      EmptiedMore(before, last, o, start, down);
    }
  }

  lemma EmptiedMore(before: seq<Leaf>, last: Leaf, o: Order, start: nat, down: bool)
    ensures Emptied(before + [last], o, start, down) <==>
            && Emptied(before, o, start, down) && OnPage(last, o) && After(last) == 0
            && Follows(EndPrice(before, start), PriceOf(last), down)
  {
    var ps, n := before + [last], |before|;
    assert ps[n] == last && forall i | 0 <= i < n :: ps[i] == before[i];
    if Emptied(ps, o, start, down) && n > 0 {
      assert ps[n - 1] == before[n - 1];
    }
    if Emptied(before, o, start, down) && Follows(EndPrice(before, start), PriceOf(last), down) {
      forall i | 0 <= i < n
        ensures if down then PriceOf(before[i]) > PriceOf(last) else PriceOf(before[i]) <= PriceOf(last)
      {
        assert i < n - 1 ==>
          if down then PriceOf(before[i]) > PriceOf(before[n - 1]) else PriceOf(before[i]) <= PriceOf(before[n - 1]);
      }
    }
  }

  lemma TraderIff(r: Reserves, d: Account, o: Order, ls: seq<Leaf>, j: nat, buys: bool)
    requires 2 * j + 2 < |ls|
    ensures Trader(r, d, o, ls, j, buys) <==> AccountPair(r, d, o, ls[2 * j + 1], ls[2 * j + 2], buys)
  {
    hide ReserveAt;
  }

  lemma TradersIff(r: Reserves, d: Account, o: Order, ls: seq<Leaf>, makers: nat, ask: bool)
    requires makers % 2 == 0 && makers + 2 < |ls|
    ensures Traders(r, d, o, ls, makers, ask) <==>
            && MakersOk(r, d, o, ls, makers / 2, ask)
            && AccountPair(r, d, o, ls[makers + 1], ls[makers + 2], !ask)
  {
    hide Trader, AccountPair;
    var n := makers / 2;
    TraderIff(r, d, o, ls, n, !ask);
    assert 2 * n == makers;
    if Traders(r, d, o, ls, makers, ask) {
      forall j | 0 <= j < n
        ensures AccountPair(r, d, o, ls[2 * j + 1], ls[2 * j + 2], ask)
      {
        TraderIff(r, d, o, ls, j, ask);
      }
    }
    if MakersOk(r, d, o, ls, n, ask) {
      forall j | 0 <= j < n
        ensures Trader(r, d, o, ls, j, ask)
      {
        TraderIff(r, d, o, ls, j, ask);
      }
    }
  }

  lemma AskMoneyIff(r: Reserves, d: Account, o: Order, ls: seq<Leaf>, makers: nat)
    requires makers % 2 == 0 && makers + 3 <= |ls|
    ensures AskMoney(r, d, o, ls, makers) <==>
            Traders(r, d, o, ls, makers, true) && AskPaid(o, ls, makers) && AskBook(o, ls, makers)
  {
    hide Traders, MakersOk, AccountPair, RoundedUp, MulCeil, Change, Gained;
    TradersIff(r, d, o, ls, makers, true);
    GainedIs(ls, makers / 2, 1);
    GainedIs(ls, makers / 2, 2);
    var b, q := ls[makers + 1], ls[makers + 2];
    var sold, paid := Before(b) - After(b), 0 - Gained(ls, makers / 2, 2);
    if AccountPair(r, d, o, b, q, false) {
      PairMoves(r, d, o, b, q, false);
    }
    if 0 <= sold {
      FeeIff(sold - Gained(ls, makers / 2, 1), o.makerFee, sold);
    }
    if 0 <= paid {
      FeeIff(paid - (After(q) - Before(q)), o.takerFee, paid);
    }
  }

  lemma PairMoves(r: Reserves, d: Account, o: Order, b: Leaf, q: Leaf, grows: bool)
    requires AccountPair(r, d, o, b, q, grows)
    ensures if grows then Before(b) <= After(b) && After(q) <= Before(q)
            else After(b) <= Before(b) && Before(q) <= After(q)
  {
  }

  lemma BidMoneyIff(r: Reserves, d: Account, o: Order, ls: seq<Leaf>, makers: nat)
    requires makers % 2 == 0 && makers + 3 <= |ls|
    ensures BidMoney(r, d, o, ls, makers) <==>
            Traders(r, d, o, ls, makers, false) && BidPaid(o, ls, makers) && BidBook(o, ls, makers)
  {
    hide Traders, MakersOk, AccountPair, RoundedUp, MulCeil, Change, Gained;
    TradersIff(r, d, o, ls, makers, false);
    GainedIs(ls, makers / 2, 1);
    GainedIs(ls, makers / 2, 2);
    var b, q := ls[makers + 1], ls[makers + 2];
    var paid, sold := Before(q) - After(q), 0 - Gained(ls, makers / 2, 1);
    if AccountPair(r, d, o, b, q, true) {
      PairMoves(r, d, o, b, q, true);
    }
    if 0 <= paid {
      FeeIff(paid - Gained(ls, makers / 2, 2), o.makerFee, paid);
    }
    if 0 <= sold {
      FeeIff(sold - (After(b) - Before(b)), o.takerFee, sold);
    }
  }

  /** The pages but the last are those the walk sweeps. */
  lemma PagesIff(o: Order, ls: seq<Leaf>, from: nat, n: nat, start: nat, down: bool)
    requires from + n < |ls|
    ensures Swept(ls[from..][..n], o, start, down) <==>
            && (forall i | from <= i < from + n ::
                  && OnPage(ls[i], o) && After(ls[i]) == 0
                  && (if down then PriceOf(ls[i]) < start else start <= PriceOf(ls[i])))
            && (forall i, j | from <= i < j < from + n ::
                  if down then PriceOf(ls[i]) > PriceOf(ls[j]) else PriceOf(ls[i]) <= PriceOf(ls[j]))
    ensures EndPrice(ls[from..][..n], start) == if n == 0 then start else PriceOf(ls[from + n - 1])
  {
    hide OnPage, Swept;
    var ps := ls[from..][..n];
    SweptIff(ps, o, start, down);
    assert |ps| == n && forall i | 0 <= i < n :: ps[i] == ls[from + i];
    assert forall i | from <= i < from + n :: ls[i] == ps[i - from];
  }

  /** The walk of an ask, its last page included. */
  lemma DescentIff(o: Order, ls: seq<Leaf>, from: nat, n: nat, top: nat, low: nat)
    requires from + n + 1 == |ls|
    ensures var qs, last := ls[from..][..n], ls[|ls| - 1];
            Swept(qs, o, top + 1, true) && OnPage(last, o) && EndPrice(qs, top + 1) > PriceOf(last) >= low
            <==>
            && (forall i | from <= i < |ls| :: OnPage(ls[i], o) && low <= PriceOf(ls[i]) <= top)
            && (forall i, j | from <= i < j < |ls| :: PriceOf(ls[i]) > PriceOf(ls[j]))
            && (forall i | from <= i < |ls| - 1 :: After(ls[i]) == 0)
  {
    hide OnPage, Swept, EndPrice, PriceOf, After;
    PagesIff(o, ls, from, n, top + 1, true);
    var qs, last := ls[from..][..n], ls[|ls| - 1];
    if Swept(qs, o, top + 1, true) && OnPage(last, o) && EndPrice(qs, top + 1) > PriceOf(last) >= low {
      forall i | from <= i < |ls| - 1
        ensures PriceOf(ls[i]) > PriceOf(last)
      {
        assert i < from + n - 1 ==> PriceOf(ls[i]) > PriceOf(ls[from + n - 1]);
      }
    }
  }

  lemma AskWalkIff(o: Order, ls: seq<Leaf>, makers: nat, pages: nat)
    requires Shape(ls, makers, pages) && ls[0].oldL <= ls[0].newL && ls[0].newR <= ls[0].oldR
    ensures AskWalk(o, ls, makers, pages) <==>
            && InMarket(ls[makers + 3], o)
            && if ls[0].oldR == ls[0].newR then AskRests(o, ls, makers) else AskTrades(o, ls, makers, pages)
  {
    hide Swept, EndPrice, OldTotal, Volume;
    var ps, best, last := Pages(ls, makers), ls[makers + 3], ls[|ls| - 1];
    if ls[0].oldR != ls[0].newR && pages > 0 {
      DescentIff(o, ls, makers + 4, pages - 1, best.oldR, best.newR);
      VolumeIs(ls, makers + 4, pages - 1);
      VolumeIs(ls, makers + 4, pages);
      assert ps[..pages] == ps;
    }
  }

  /** An ask is accepted exactly on its terms. */
  lemma AskAcceptedIff(r: Reserves, d: Account, o: Order, makers: nat, pages: nat, ls: seq<Leaf>)
    ensures AskAccepts(r, d, o, makers, pages, ls) <==> AskTerms(r, d, o, makers, pages, ls)
  {
    hide AskMoney, AskWalk, AskTrades, AskRests, AskPaid, Traders;
    if Shape(ls, makers, pages) {
      AskMoneyIff(r, d, o, ls, makers);
      if AskBook(o, ls, makers) {
        AskWalkIff(o, ls, makers, pages);
      }
    }
  }

  lemma PageIs(l: Leaf, o: Order)
    ensures OnPage(l, o) <==> IsPage(l.key, o.base, o.quote) && l.Fits()
    ensures PriceOf(l) == l.Price() && Before(l) == l.OldSum() && After(l) == l.NewSum()
  {
  }

  lemma BidWalkIff(o: Order, ls: seq<Leaf>, makers: nat, pages: nat)
    requires Shape(ls, makers, pages) && ls[0].newL <= ls[0].oldL && ls[0].oldR <= ls[0].newR
    ensures BidWalk(o, ls, makers, pages) <==>
            && InMarket(ls[makers + 3], o)
            && if ls[0].oldL == ls[0].newL then BidRests(o, ls, makers) else BidTrades(o, ls, makers, pages)
  {
    hide Swept, EndPrice, OldTotal, Volume, OnPage, IsPage, PriceOf, Before, After;
    var ps, best, last := Pages(ls, makers), ls[makers + 3], ls[|ls| - 1];
    PageIs(last, o);
    if ls[0].oldL != ls[0].newL && pages > 0 {
      PagesIff(o, ls, makers + 4, pages - 1, best.oldL, false);
      VolumeIs(ls, makers + 4, pages - 1);
      VolumeIs(ls, makers + 4, pages);
      assert ps[..pages] == ps;
    }
  }

  /** A bid is accepted exactly on its terms. */
  lemma BidAcceptedIff(r: Reserves, d: Account, o: Order, makers: nat, pages: nat, ls: seq<Leaf>)
    ensures BidAccepts(r, d, o, makers, pages, ls) <==> BidTerms(r, d, o, makers, pages, ls)
  {
    hide BidMoney, BidWalk, BidTrades, BidRests, RoundedUp, Traders;
    if Shape(ls, makers, pages) {
      BidMoneyIff(r, d, o, ls, makers);
      if BidPaid(o, ls, makers) && BidBook(o, ls, makers) {
        BidWalkIff(o, ls, makers, pages);
      }
    }
  }

  // --- what follows ---

  /** Whether an ask that trades is accepted at another limit price is decided by the old best bid, and, if part of it
      rests, by the price it rests at. */
  lemma AskLimitDecides(
    r: Reserves, d: Account, o: Order, makers: nat, pages: nat, ls: seq<Leaf>, price: u128)
    requires AskAccepts(r, d, o, makers, pages, ls) && ls[0].oldR != ls[0].newR
    ensures o.price <= ls[makers + 3].oldR
    ensures AskAccepts(r, d, o.(price := price), makers, pages, ls) <==>
            price <= ls[makers + 3].oldR && (ls[0].oldL != ls[0].newL ==> price == o.price)
  {
    hide AskAccepts, Gained, Volume, RoundedUp, OnPage, PriceOf;
    AskAcceptedIff(r, d, o, makers, pages, ls);
    AskAcceptedIff(r, d, o.(price := price), makers, pages, ls);
    SameTraders(r, d, o, price, ls, makers, true);
    SamePages(o, price);
  }

  /** The same for a bid and the old best ask. */
  lemma BidLimitDecides(
    r: Reserves, d: Account, o: Order, makers: nat, pages: nat, ls: seq<Leaf>, price: u128)
    requires BidAccepts(r, d, o, makers, pages, ls) && ls[0].oldL != ls[0].newL
    ensures o.price >= ls[makers + 3].oldL
    ensures BidAccepts(r, d, o.(price := price), makers, pages, ls) <==>
            price >= ls[makers + 3].oldL && (ls[0].oldR != ls[0].newR ==> price == o.price)
  {
    hide BidAccepts, Gained, Volume, RoundedUp, OnPage, PriceOf;
    BidAcceptedIff(r, d, o, makers, pages, ls);
    BidAcceptedIff(r, d, o.(price := price), makers, pages, ls);
    SameTraders(r, d, o, price, ls, makers, false);
    SamePages(o, price);
  }

  lemma SameTraders(r: Reserves, d: Account, o: Order, price: u128, ls: seq<Leaf>, makers: nat, ask: bool)
    requires makers % 2 == 0 && makers + 2 < |ls|
    ensures Traders(r, d, o.(price := price), ls, makers, ask) <==> Traders(r, d, o, ls, makers, ask)
  {
    hide Slot;
    forall j | 0 <= j <= makers / 2
      ensures Trader(r, d, o.(price := price), ls, j, ask) <==> Trader(r, d, o, ls, j, ask)
      ensures Trader(r, d, o.(price := price), ls, j, !ask) <==> Trader(r, d, o, ls, j, !ask)
    {
    }
  }

  lemma SamePages(o: Order, price: u128)
    ensures forall l: Leaf :: OnPage(l, o.(price := price)) <==> OnPage(l, o)
  {
  }

  function Moved(a: Leaf): nat {
    if Before(a) <= After(a) then After(a) - Before(a) else Before(a) - After(a)
  }

  /** What an accepted order is settled by: for every maker pair and the taker, the account, what it ends up with, and
      the quote and base that changed hands, and as fees what the slots lose of either token. */
  lemma ClearingIs(r: Reserves, d: Account, o: Order, makers: nat, pages: nat, ls: seq<Leaf>, ask: bool)
    requires if ask then AskAccepts(r, d, o, makers, pages, ls) else BidAccepts(r, d, o, makers, pages, ls)
    ensures var c, b, q := ClearingOf(o, ls, makers, ask), ls[makers + 1], ls[makers + 2];
            && |c.makers| == makers / 2
            && (forall j | 0 <= j < makers / 2 ::
                  && ls[2 * j + 1].key == AccountKey(o.base, c.makers[j].who)
                  && ls[2 * j + 2].key == AccountKey(o.quote, c.makers[j].who)
                  && c.makers[j].baseBalance == After(ls[2 * j + 1])
                  && c.makers[j].quoteBalance == After(ls[2 * j + 2])
                  && c.makers[j].filledVolume == Moved(ls[2 * j + 2]))
            && b.key == AccountKey(o.base, c.taker.who) && q.key == AccountKey(o.quote, c.taker.who)
            && c.taker.baseBalance == After(b) && c.taker.quoteBalance == After(q)
            && c.taker.unfilledVolume == q.newR
            && c.taker.filledAmount == (if ask then Moved(b) else 0 - Gained(ls, makers / 2, 1))
            && c.taker.filledVolume == (if ask then 0 - Gained(ls, makers / 2, 2) else Moved(q))
            && c.baseFee == 0 - Gained(ls, makers / 2 + 1, 1) && c.quoteFee == 0 - Gained(ls, makers / 2 + 1, 2)
  {
    hide Gained, Change, MulCeil, Mutations, AskWalk, BidWalk, MakersOk, AccountPair;
    var b, q := ls[makers + 1], ls[makers + 2];
    GainedIs(ls, makers / 2, 1);
    GainedIs(ls, makers / 2, 2);
    GainedMore(ls, makers / 2, 1);
    GainedMore(ls, makers / 2, 2);
    PairOwner(r, d, o, b, q, !ask);
    PairMoves(r, d, o, b, q, !ask);
    assert 2 * (makers / 2) == makers;
    forall j | 0 <= j < makers / 2
      ensures |Mutations(ls, makers / 2)| == makers / 2
      ensures var m, mb, mq := Mutations(ls, makers / 2)[j], ls[2 * j + 1], ls[2 * j + 2];
              && mb.key == AccountKey(o.base, m.who) && mq.key == AccountKey(o.quote, m.who)
              && m.baseBalance == After(mb) && m.quoteBalance == After(mq) && m.filledVolume == Moved(mq)
    {
      MutationAt(ls, makers / 2, j);
      MakerAt(r, d, o, ls, makers / 2, ask, j);
      PairOwner(r, d, o, ls[2 * j + 1], ls[2 * j + 2], ask);
    }
    MutationCount(ls, makers / 2);
  }

  lemma MakerAt(r: Reserves, d: Account, o: Order, ls: seq<Leaf>, n: nat, grows: bool, j: nat)
    requires j < n && 2 * n < |ls| && MakersOk(r, d, o, ls, n, grows)
    ensures AccountPair(r, d, o, ls[2 * j + 1], ls[2 * j + 2], grows)
  {
  }

  lemma GainedMore(ls: seq<Leaf>, n: nat, off: nat)
    requires off <= 2 && 2 * n + off < |ls|
    ensures Gained(ls, n + 1, off) == Gained(ls, n, off) + After(ls[2 * n + off]) - Before(ls[2 * n + off])
  {
  }

  lemma PairOwner(r: Reserves, d: Account, o: Order, b: Leaf, q: Leaf, grows: bool)
    requires AccountPair(r, d, o, b, q, grows)
    ensures b.key == AccountKey(o.base, Who(b)) && q.key == AccountKey(o.quote, Who(b))
  {
  }

  lemma {:induction false} MutationCount(ls: seq<Leaf>, n: nat)
    requires 2 * n < |ls|
    ensures |Mutations(ls, n)| == n
  {
    if n == 0 {
    } else {
      MutationCount(ls, n - 1);
    }
  }

  lemma {:induction false} MutationAt(ls: seq<Leaf>, n: nat, j: nat)
    requires j < n && 2 * n < |ls|
    ensures |Mutations(ls, n)| == n
    ensures var b, q := ls[2 * j + 1], ls[2 * j + 2];
            Mutations(ls, n)[j] == MakerMutation(Who(b), Moved(q), After(b), After(q))
  {
    MutationCount(ls, n - 1);
    if j < n - 1 {
      MutationAt(ls, n - 1, j);
    }
  }
}
