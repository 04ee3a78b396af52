/** What an accepted order costs and pays, in every balance, reserve and season record. */
module OrderSettlement {
  import opened Arith
  import opened Ledgers
  import opened Wrappers
  import opened VerifierTypes
  import opened ProofChecks
  import opened OrderAcceptance
  import opened VerifierState
  import opened VerifierRuns
  import opened Custody
  import opened Coupling
  import opened Conservation

  /** Of a base fee the broker gets half, rounded up, and the beneficiary the rest: without a broker all of it. */
  function FeeShare(fee: nat, broker: Option<Account>, beneficiary: Account, a: Account): nat {
    (if broker == Some(a) then (fee + 1) / 2 else 0)
    + (if a != beneficiary then 0 else if broker.None? then fee else fee / 2)
  }

  lemma CreditGives(s: State, t: Token, a: Account, v: nat, c: Token, b: Account)
    requires Credit(s, t, a, v).Ok?
    ensures BalanceAt(Credit(s, t, a, v).value.ledger, c, b)
            == Balance(BalanceAt(s.ledger, c, b).free + (if c == t && b == a then v else 0),
                       BalanceAt(s.ledger, c, b).reserved)
  {
    assert (c, b) == (t, a) || c != t || b != a;
  }

  /** Every balance after a fee has been split. */
  lemma SplitFeeGives(
    s: State, base: Token, fee: nat, broker: Option<Account>, beneficiary: Account, t: Token, a: Account)
    requires SplitFee(s, base, fee, broker, beneficiary).Ok?
    ensures BalanceAt(SplitFee(s, base, fee, broker, beneficiary).value.ledger, t, a)
            == Balance(BalanceAt(s.ledger, t, a).free
                       + (if t == base then FeeShare(fee, broker, beneficiary, a) else 0),
                       BalanceAt(s.ledger, t, a).reserved)
  {
    hide MulCeil, Credit, BalanceAt;
    if fee != 0 {
      if broker.None? {
        CreditGives(s, base, beneficiary, fee, t, a);
      } else {
        MulCeilHalf(fee);
        CreditGives(s, base, broker.value, (fee + 1) / 2, t, a);
        CreditGives(Credit(s, base, broker.value, (fee + 1) / 2).value, base, beneficiary, fee / 2, t, a);
      }
    }
  }

  /** A fee can be split exactly if both who share it can hold their parts. */
  predicate FeeFits(l: Ledger, base: Token, fee: nat, broker: Option<Account>, beneficiary: Account) {
    fee == 0
    || (&& BalanceAt(l, base, beneficiary).free + FeeShare(fee, broker, beneficiary, beneficiary) <= U128_MAX
        && (broker.Some? ==>
              BalanceAt(l, base, broker.value).free + FeeShare(fee, broker, beneficiary, broker.value) <= U128_MAX))
  }

  lemma SplitFeeFits(s: State, base: Token, fee: nat, broker: Option<Account>, beneficiary: Account)
    ensures var r := SplitFee(s, base, fee, broker, beneficiary);
            && (r.Ok? <==> FeeFits(s.ledger, base, fee, broker, beneficiary))
            && (r.Err? ==> r.error == Overflow)
  {
    hide MulCeil, BalanceAt;
    MulCeilHalf(fee);
    if fee != 0 && broker.Some? && Credit(s, base, broker.value, (fee + 1) / 2).Ok? {
      CreditGives(s, base, broker.value, (fee + 1) / 2, base, beneficiary);
    }
  }

  // --- clearing ---

  /** Clearing touches no free balance, and of a reserved balance only what the authorizing reserve changes. */
  lemma {:induction false} ClearedBalance(s: State, d: Account, ls: seq<Leaf>, t: Token, a: Account)
    requires ClearLeaves(s, d, ls).Ok?
    ensures BalanceAt(ClearLeaves(s, d, ls).value.ledger, t, a).free == BalanceAt(s.ledger, t, a).free
    ensures Backed(s.ledger, s.reserves) ==>
              var s' := ClearLeaves(s, d, ls).value;
              BalanceAt(s'.ledger, t, a).reserved + Held(s, ForAuthorizing, a, t, d)
              == BalanceAt(s.ledger, t, a).reserved + Held(s', ForAuthorizing, a, t, d)
  {
    hide Backed;
    if ls == [] {
    } else {
      var before, l := ls[..|ls| - 1], ls[|ls| - 1];
      ClearedBalance(s, d, before, t, a);
      var s1 := ClearLeaves(s, d, before).value;
      ClearOthers(s1, l.key.who, d, l.key.token, l.NewSum(), t, a);
      if Backed(s.ledger, s.reserves) {
        ClearLeavesBacked(s, d, before);
        ClearExact(s1, l.key.who, d, l.key.token, l.NewSum());
      }
    }
  }

  /** Clearing one account: the authorizing reserve becomes `balance`, and takes its old value, as far as there is one,
      out of the reserved balance. */
  lemma ClearIs(s: State, who: Account, d: Account, t: Token, balance: nat)
    ensures var r, bal, held := Clear(s, who, d, t, balance), BalanceAt(s.ledger, t, who),
                                Held(s, ForAuthorizing, who, t, d);
            var rest := if held < bal.reserved then bal.reserved - held else 0;
            && (r.Ok? <==> rest + balance <= U128_MAX)
            && (r.Ok? ==>
                  && BalanceAt(r.value.ledger, t, who) == Balance(bal.free, rest + balance)
                  && Held(r.value, ForAuthorizing, who, t, d) == balance)
  {
  }

  lemma ClearOthers(s: State, who: Account, d: Account, c: Token, balance: nat, t: Token, a: Account)
    requires Clear(s, who, d, c, balance).Ok?
    ensures var s' := Clear(s, who, d, c, balance).value;
            && BalanceAt(s'.ledger, t, a).free == BalanceAt(s.ledger, t, a).free
            && (t != c || a != who ==>
                  && BalanceAt(s'.ledger, t, a) == BalanceAt(s.ledger, t, a)
                  && Held(s', ForAuthorizing, a, t, d) == Held(s, ForAuthorizing, a, t, d))
  {
    assert (t, a) == (c, who) || t != c || a != who;
  }

  /** The new sum of a slot fits into the reserved balance of its account. */
  predicate SlotFits(s: State, d: Account, l: Leaf) {
    l.key.AccountKey? ==>
      BalanceAt(s.ledger, l.key.token, l.key.who).reserved - Held(s, ForAuthorizing, l.key.who, l.key.token, d)
      + After(l) <= U128_MAX
  }

  /** Accounts can be cleared exactly if every new sum fits. */
  lemma {:induction false} ClearLeavesFit(s: State, d: Account, ls: seq<Leaf>)
    requires Backed(s.ledger, s.reserves) && DistinctKeys(ls) && forall i | 0 <= i < |ls| :: ls[i].key.AccountKey?
    ensures ClearLeaves(s, d, ls).Ok? <==> forall i | 0 <= i < |ls| :: SlotFits(s, d, ls[i])
    ensures ClearLeaves(s, d, ls).Err? ==> ClearLeaves(s, d, ls).error == Overflow
  {
    hide Backed, SlotFits;
    if ls == [] {
    } else {
      var before, l := ls[..|ls| - 1], ls[|ls| - 1];
      assert forall i | 0 <= i < |before| :: before[i] == ls[i];
      ClearLeavesFit(s, d, before);
      if ClearLeaves(s, d, before).Ok? {
        var s1 := ClearLeaves(s, d, before).value;
        ClearMiss(s, d, before, l.key.who, l.key.token);
        ClearedBalance(s, d, before, l.key.token, l.key.who);
        ClearLeavesBacked(s, d, before);
        ClearFits(s1, d, l);
        assert SlotFits(s1, d, l) == SlotFits(s, d, l) by {
          SameFit(s, s1, d, l);
        }
      }
    }
  }

  lemma ClearFits(s: State, d: Account, l: Leaf)
    requires Backed(s.ledger, s.reserves) && l.key.AccountKey?
    ensures var r := Clear(s, l.key.who, d, l.key.token, l.NewSum());
            (r.Ok? <==> SlotFits(s, d, l)) && (r.Err? ==> r.error == Overflow)
  {
    EntryBacked(s.ledger, s.reserves, RKey(ForAuthorizing, l.key.who, l.key.token, d));
  }

  lemma SameFit(s: State, s': State, d: Account, l: Leaf)
    requires l.key.AccountKey?
    requires BalanceAt(s'.ledger, l.key.token, l.key.who).reserved
             == BalanceAt(s.ledger, l.key.token, l.key.who).reserved
    requires Held(s', ForAuthorizing, l.key.who, l.key.token, d) == Held(s, ForAuthorizing, l.key.who, l.key.token, d)
    ensures SlotFits(s', d, l) == SlotFits(s, d, l)
  {
  }

  // --- the order ---

  /** What the account slots of a proof lose together, base at offset 1 and quote at offset 2. */
  function Lost(p: Proof, off: nat): int
    requires 1 <= off <= 2 && Announced(p.leaves, p.makers, p.pages)
  {
    0 - Gained(p.leaves, p.makers / 2 + 1, off)
  }

  /** The order is acceptable on its terms. */
  predicate Terms(r: Reserves, d: Account, o: Order, p: Proof, ask: bool) {
    if ask then AskTerms(r, d, o, p.makers, p.pages, p.leaves) else BidTerms(r, d, o, p.makers, p.pages, p.leaves)
  }

  lemma AcceptsIff(r: Reserves, d: Account, o: Order, p: Proof, ask: bool)
    ensures Accepts(r, d, o, p, ask) <==> Terms(r, d, o, p, ask)
    ensures Accepts(r, d, o, p, ask) ==> Announced(p.leaves, p.makers, p.pages)
  {
    hide AskTerms, BidTerms, AskAccepts, BidAccepts;
    AskAcceptedIff(r, d, o, p.makers, p.pages, p.leaves);
    BidAcceptedIff(r, d, o, p.makers, p.pages, p.leaves);
  }

  lemma FeesAre(r: Reserves, d: Account, o: Order, p: Proof, ask: bool)
    requires Accepts(r, d, o, p, ask)
    ensures Announced(p.leaves, p.makers, p.pages)
    ensures ClearingOf(o, p.leaves, p.makers, ask).baseFee == Lost(p, 1)
    ensures ClearingOf(o, p.leaves, p.makers, ask).quoteFee == Lost(p, 2)
  {
    hide ClearingOf, Gained, AskAccepts, BidAccepts;
    ClearingIs(r, d, o, p.makers, p.pages, p.leaves, ask);
  }

  /** The states an accepted order goes through. */
  lemma OrderSteps(s: State, d: Account, o: Order, broker: Option<Account>, ask: bool, p: Proof, x: Outside)
    requires d in s.dominators && SettleOrder(s, d, o, broker, ask, p, x).Ok?
    ensures Announced(p.leaves, p.makers, p.pages) && Lost(p, 1) >= 0 && Lost(p, 2) >= 0
    ensures ClearLeaves(s, d, AccountSlots(p)).Ok?
    ensures var s1 := ClearLeaves(s, d, AccountSlots(p)).value;
            var r2 := PutProfit(s1, d, SeasonOf(s, d), o.quote, Lost(p, 2));
            && r2.Ok?
            && SettleOrder(s, d, o, broker, ask, p, x) == SplitFee(r2.value, o.base, Lost(p, 1), broker, x.beneficiary)
  {
    hide Accepts, ClearingOf, ClearLeaves, PutProfit, SplitFee, Gained, CurrentSeason;
    FeesAre(s.reserves, d, o, p, ask);
  }

  /** An accepted order leaves every free balance as it was, except that what the slots lose in base goes to broker and
      beneficiary; reserved balances follow the authorizing reserves. */
  lemma OrderPays(
    s: State, d: Account, o: Order, broker: Option<Account>, ask: bool, p: Proof, x: Outside, t: Token, a: Account)
    requires d in s.dominators && SettleOrder(s, d, o, broker, ask, p, x).Ok?
    ensures Announced(p.leaves, p.makers, p.pages) && Lost(p, 1) >= 0
    ensures var s' := SettleOrder(s, d, o, broker, ask, p, x).value;
            && BalanceAt(s'.ledger, t, a).free
               == BalanceAt(s.ledger, t, a).free
                  + (if t == o.base then FeeShare(Lost(p, 1), broker, x.beneficiary, a) else 0)
            && (Backed(s.ledger, s.reserves) ==>
                  BalanceAt(s'.ledger, t, a).reserved + Held(s, ForAuthorizing, a, t, d)
                  == BalanceAt(s.ledger, t, a).reserved + Held(s', ForAuthorizing, a, t, d))
  {
    hide SettleOrder, ClearLeaves, PutProfit, SplitFee, Gained, BalanceAt, Backed;
    OrderSteps(s, d, o, broker, ask, p, x);
    var s1 := ClearLeaves(s, d, AccountSlots(p)).value;
    ClearedBalance(s, d, AccountSlots(p), t, a);
    PutProfitFrame(s1, d, SeasonOf(s, d), o.quote, Lost(p, 2));
    var s2 := PutProfit(s1, d, SeasonOf(s, d), o.quote, Lost(p, 2)).value;
    SplitFeeGives(s2, o.base, Lost(p, 1), broker, x.beneficiary, t, a);
    SplitFeeFrame(s2, o.base, Lost(p, 1), broker, x.beneficiary);
  }

  lemma ProfitPut(s: State, d: Account, k: Season, t: Token, v: nat, e: Account, j: Season, c: Token)
    requires PutProfit(s, d, k, t, v).Ok?
    ensures var s' := PutProfit(s, d, k, t, v).value;
            && BonusAt(s'.bonuses, e, j).staked == BonusAt(s.bonuses, e, j).staked
            && ProfitAt(s', e, j, c) == ProfitAt(s, e, j, c) + if (e, j, c) == (d, k, t) then v else 0
  {
    hide PutProfit;
    PutProfitFrame(s, d, k, t, v);
    if e == d && j == k {
      ProfitThere(s, d, k, t, v, c);
    }
  }

  lemma ProfitThere(s: State, d: Account, k: Season, t: Token, v: nat, c: Token)
    requires PutProfit(s, d, k, t, v).Ok?
    ensures ProfitAt(PutProfit(s, d, k, t, v).value, d, k, c) == ProfitAt(s, d, k, c) + if c == t then v else 0
  {
  }

  /** What the slots lose in quote is booked as profit of the running season of the dominator, and nothing else is
      booked. */
  lemma OrderBooks(
    s: State, d: Account, o: Order, broker: Option<Account>, ask: bool, p: Proof, x: Outside,
    e: Account, k: Season, t: Token)
    requires d in s.dominators && SettleOrder(s, d, o, broker, ask, p, x).Ok?
    ensures Announced(p.leaves, p.makers, p.pages)
    ensures var s' := SettleOrder(s, d, o, broker, ask, p, x).value;
            && BonusAt(s'.bonuses, e, k).staked == BonusAt(s.bonuses, e, k).staked
            && ProfitAt(s', e, k, t)
               == ProfitAt(s, e, k, t) + (if e == d && k == SeasonOf(s, d) && t == o.quote then Lost(p, 2) else 0)
  {
    hide SettleOrder, ClearLeaves, PutProfit, SplitFee, Gained, CurrentSeason;
    OrderSteps(s, d, o, broker, ask, p, x);
    var s1 := ClearLeaves(s, d, AccountSlots(p)).value;
    ClearLeavesFrame(s, d, AccountSlots(p));
    ProfitPut(s1, d, SeasonOf(s, d), o.quote, Lost(p, 2), e, k, t);
    SplitFeeFrame(PutProfit(s1, d, SeasonOf(s, d), o.quote, Lost(p, 2)).value, o.base, Lost(p, 1), broker,
                  x.beneficiary);
  }

  /** Everybody who receives something can hold it, and so can the season record. */
  predicate OrderFits(
    s: State, d: Account, o: Order, broker: Option<Account>, p: Proof, x: Outside)
    requires Announced(p.leaves, p.makers, p.pages)
  {
    && (forall i | 1 <= i < p.makers + 3 :: SlotFits(s, d, p.leaves[i]))
    && (Lost(p, 2) > 0 ==> ProfitAt(s, d, SeasonOf(s, d), o.quote) + Lost(p, 2) <= U128_MAX)
    && (Lost(p, 1) > 0 ==> FeeFits(s.ledger, o.base, Lost(p, 1), broker, x.beneficiary))
  }

  /** What a refused order is refused for. */
  lemma OrderRefused(s: State, d: Account, o: Order, broker: Option<Account>, ask: bool, p: Proof, x: Outside)
    requires d in s.dominators
    ensures var r := SettleOrder(s, d, o, broker, ask, p, x);
            && (r == Err(FeesTooHigh) <==> o.makerFee > s.cfg.maxMakerFee || o.takerFee > s.cfg.maxTakerFee)
            && (r == Err(UnsupportedQuoteCurrency) <==>
                  o.makerFee <= s.cfg.maxMakerFee && o.takerFee <= s.cfg.maxTakerFee && !x.quoteStable)
            && (r == Err(ProofsUnsatisfied) <==>
                  && o.makerFee <= s.cfg.maxMakerFee && o.takerFee <= s.cfg.maxTakerFee && x.quoteStable
                  && !Terms(s.reserves, d, o, p, ask))
            && (r.Ok? ==> x.rewarded)
  {
    hide Accepts, ClearingOf, ClearLeaves, PutProfit, SplitFee, Terms;
    AcceptsIff(s.reserves, d, o, p, ask);
    if Accepts(s.reserves, d, o, p, ask) && FeesOk(s.cfg, o) && x.quoteStable {
      SlotsOwned(s, d, o, p, ask);
      ClearOverflows(s, d, AccountSlots(p));
      var c, k := ClearingOf(o, p.leaves, p.makers, ask), CurrentSeason(s.cfg, s.now, s.dominators[d].startFrom);
      if ClearLeaves(s, d, AccountSlots(p)).Ok? {
        var s1 := ClearLeaves(s, d, AccountSlots(p)).value;
        ProfitOverflows(s1, d, k, o.quote, c.quoteFee);
        if PutProfit(s1, d, k, o.quote, c.quoteFee).Ok? {
          SplitFeeFits(PutProfit(s1, d, k, o.quote, c.quoteFee).value, o.base, c.baseFee, broker, x.beneficiary);
        }
      }
    }
  }

  lemma ProfitOverflows(s: State, d: Account, k: Season, t: Token, v: nat)
    ensures PutProfit(s, d, k, t, v).Ok? <==> v == 0 || ProfitAt(s, d, k, t) + v <= U128_MAX
    ensures PutProfit(s, d, k, t, v).Err? ==> PutProfit(s, d, k, t, v).error == Overflow
  {
  }

  lemma {:induction false} ClearOverflows(s: State, d: Account, ls: seq<Leaf>)
    requires forall i | 0 <= i < |ls| :: ls[i].key.AccountKey?
    ensures ClearLeaves(s, d, ls).Err? ==> ClearLeaves(s, d, ls).error == Overflow
  {
    if ls == [] {
    } else {
      ClearOverflows(s, d, ls[..|ls| - 1]);
    }
  }

  /** The slots of an acceptable order are accounts. */
  lemma SlotsOwned(s: State, d: Account, o: Order, p: Proof, ask: bool)
    requires Accepts(s.reserves, d, o, p, ask)
    ensures forall i | 0 <= i < |AccountSlots(p)| ::
              AccountSlots(p)[i] == p.leaves[i + 1] && AccountSlots(p)[i].key.AccountKey?
  {
    hide Slot, AskTrades, BidTrades, AskRests, BidRests, AskPaid, BidPaid, AskBook, BidBook;
    AcceptsIff(s.reserves, d, o, p, ask);
    assert Traders(s.reserves, d, o, p.leaves, p.makers, ask);
    forall i | 0 <= i < |AccountSlots(p)|
      ensures AccountSlots(p)[i] == p.leaves[i + 1] && AccountSlots(p)[i].key.AccountKey?
    {
      SlotOwned(s.reserves, d, o, p.leaves, p.makers, ask, i);
    }
  }

  lemma SlotOwned(r: Reserves, d: Account, o: Order, ls: seq<Leaf>, makers: nat, ask: bool, i: nat)
    requires makers % 2 == 0 && makers + 2 < |ls| && Traders(r, d, o, ls, makers, ask) && i < makers + 2
    ensures ls[i + 1].key.AccountKey?
  {
    var j := i / 2;
    assert i == 2 * j || i == 2 * j + 1;
    assert Trader(r, d, o, ls, j, if j < makers / 2 then ask else !ask);
  }

  /** On backed reserves and distinct keys an order succeeds exactly if its fees are within the limits, its quote
      currency is stable, it is acceptable on its terms, its liquidity is accepted and every amount fits. */
  lemma OrderSucceeds(s: State, d: Account, o: Order, broker: Option<Account>, ask: bool, p: Proof, x: Outside)
    requires d in s.dominators && Backed(s.ledger, s.reserves) && DistinctKeys(p.leaves)
    ensures SettleOrder(s, d, o, broker, ask, p, x).Ok? <==>
            && o.makerFee <= s.cfg.maxMakerFee && o.takerFee <= s.cfg.maxTakerFee && x.quoteStable && x.rewarded
            && Terms(s.reserves, d, o, p, ask)
            && Announced(p.leaves, p.makers, p.pages) && OrderFits(s, d, o, broker, p, x)
  {
    hide Accepts, ClearingOf, ClearLeaves, PutProfit, SplitFee, Terms, Gained, Backed, DistinctKeys, SlotFits, FeeShare,
         CurrentSeason, BalanceAt;
    AcceptsIff(s.reserves, d, o, p, ask);
    if Accepts(s.reserves, d, o, p, ask) {
      FeesAre(s.reserves, d, o, p, ask);
      SlotsOwned(s, d, o, p, ask);
      SlotsDistinct(p);
      var ls, k := AccountSlots(p), SeasonOf(s, d);
      ClearLeavesFit(s, d, ls);
      AllSlots(s, d, p);
      if ClearLeaves(s, d, ls).Ok? {
        ClearLeavesFrame(s, d, ls);
        var s1 := ClearLeaves(s, d, ls).value;
        ProfitOverflows(s1, d, k, o.quote, Lost(p, 2));
        if PutProfit(s1, d, k, o.quote, Lost(p, 2)).Ok? {
          PutProfitFrame(s1, d, k, o.quote, Lost(p, 2));
          var s2 := PutProfit(s1, d, k, o.quote, Lost(p, 2)).value;
          SplitFeeFits(s2, o.base, Lost(p, 1), broker, x.beneficiary);
          SameFee(s, s2, d, ls, o.base, Lost(p, 1), broker, x.beneficiary);
        }
      }
    }
  }

  lemma AllSlots(s: State, d: Account, p: Proof)
    requires Announced(p.leaves, p.makers, p.pages)
    ensures (forall i | 0 <= i < |AccountSlots(p)| :: SlotFits(s, d, AccountSlots(p)[i]))
            <==> (forall i | 1 <= i < p.makers + 3 :: SlotFits(s, d, p.leaves[i]))
  {
    hide SlotFits;
    assert forall i | 1 <= i < p.makers + 3 :: p.leaves[i] == AccountSlots(p)[i - 1];
  }

  lemma SlotsDistinct(p: Proof)
    requires Announced(p.leaves, p.makers, p.pages) && DistinctKeys(p.leaves)
    ensures DistinctKeys(AccountSlots(p))
  {
    assert forall i | 0 <= i < |AccountSlots(p)| :: AccountSlots(p)[i] == p.leaves[i + 1];
  }

  /** Clearing does not change whether the fee fits. */
  lemma SameFee(
    s: State, s2: State, d: Account, ls: seq<Leaf>, base: Token, fee: nat, broker: Option<Account>,
    beneficiary: Account)
    requires ClearLeaves(s, d, ls).Ok? && s2.ledger == ClearLeaves(s, d, ls).value.ledger
    ensures FeeFits(s2.ledger, base, fee, broker, beneficiary) == FeeFits(s.ledger, base, fee, broker, beneficiary)
  {
    hide ClearLeaves, BalanceAt, FeeShare;
    ClearedBalance(s, d, ls, base, beneficiary);
    if broker.Some? {
      ClearedBalance(s, d, ls, base, broker.value);
    }
  }
}
