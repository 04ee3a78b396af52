/** Value conservation: an accepted proof moves money between accounts and takes out only the fee it books as profit. */
module Conservation {
  import opened Arith
  import opened Sums
  import opened Ledgers
  import opened Wrappers
  import opened VerifierTypes
  import opened ProofChecks
  import opened VerifierState
  import opened VerifierRuns
  import opened Custody
  import opened Coupling

  /** Net change the leaves announce in token `t`. */
  function TokenChange(ls: seq<Leaf>, t: Token): int {
    if ls == [] then 0
    else
      var l := ls[|ls| - 1];
      TokenChange(ls[..|ls| - 1], t)
      + if l.key.AccountKey? && l.key.token == t then l.NewSum() - l.OldSum() else 0
  }

  lemma {:induction false} ClearLeavesSupply(s: State, d: Account, ls: seq<Leaf>, t: Token)
    requires Backed(s.ledger, s.reserves) && DistinctKeys(ls) && ClearLeaves(s, d, ls).Ok?
    requires forall i | 0 <= i < |ls| :: ls[i].key.AccountKey? &&
               Held(s, ForAuthorizing, ls[i].key.who, ls[i].key.token, d) == ls[i].OldSum()
    ensures Supply(ClearLeaves(s, d, ls).value.ledger, t) == Supply(s.ledger, t) + TokenChange(ls, t)
  {
    if ls == [] {
    } else {
      var before, l := ls[..|ls| - 1], ls[|ls| - 1];
      ClearLeavesSupply(s, d, before, t);
      ClearLeavesBacked(s, d, before);
      var s1 := ClearLeaves(s, d, before).value;
      ClearMiss(s, d, before, l.key.who, l.key.token);
      ClearExact(s1, l.key.who, d, l.key.token, l.NewSum());
      ClearSupply(s1, l.key.who, d, l.key.token, l.NewSum(), t);
    }
  }

  lemma ClearSupply(s: State, who: Account, d: Account, c: Token, balance: nat, t: Token)
    requires Backed(s.ledger, s.reserves) && Clear(s, who, d, c, balance).Ok?
    ensures Supply(Clear(s, who, d, c, balance).value.ledger, t)
            == Supply(s.ledger, t) + (if c == t then balance - Held(s, ForAuthorizing, who, c, d) else 0)
  {
    EntryBacked(s.ledger, s.reserves, RKey(ForAuthorizing, who, c, d));
    var bal := BalanceAt(s.ledger, c, who);
    var rest := bal.reserved - Held(s, ForAuthorizing, who, c, d);
    SupplyPut(s.ledger, c, who, Balance(bal.free, rest + balance), t);
  }

  // --- the account slots of an order ---

  lemma TokenChangeTwo(ls: seq<Leaf>, b: Leaf, q: Leaf, t: Token)
    ensures TokenChange(ls + [b, q], t)
            == TokenChange(ls, t)
               + (if b.key.AccountKey? && b.key.token == t then b.NewSum() - b.OldSum() else 0)
               + (if q.key.AccountKey? && q.key.token == t then q.NewSum() - q.OldSum() else 0)
  {
    var two := ls + [b, q];
    assert two[..|two| - 1] == ls + [b];
    assert (ls + [b])[..|ls|] == ls;
  }

  lemma {:induction false} MakerChange(
    r: Reserves, d: Account, o: Order, leaves: seq<Leaf>, n: nat, grows: bool, t: Token)
    requires 2 * n < |leaves| && MakersOk(r, d, o, leaves, n, grows) && o.base != o.quote
    ensures TokenChange(leaves[1..2 * n + 1], t)
            == if t == o.base then Change(leaves, n, 1) else if t == o.quote then Change(leaves, n, 2) else 0
  {
    if n > 0 {
      assert MakersOk(r, d, o, leaves, n - 1, grows);
      MakerChange(r, d, o, leaves, n - 1, grows, t);
      assert AccountPair(r, d, o, leaves[2 * (n - 1) + 1], leaves[2 * (n - 1) + 2], grows);
      assert leaves[1..2 * n + 1] == leaves[1..2 * (n - 1) + 1] + [leaves[2 * n - 1], leaves[2 * n]];
      TokenChangeTwo(leaves[1..2 * (n - 1) + 1], leaves[2 * n - 1], leaves[2 * n], t);
    } else {
      assert leaves[1..1] == [];
    }
  }

  /** What the account slots of an accepted order lose: the base fee and the quote fee. */
  lemma SlotsChange(r: Reserves, d: Account, o: Order, p: Proof, ask: bool, t: Token)
    requires Accepts(r, d, o, p, ask) && DistinctKeys(p.leaves)
    ensures o.base != o.quote
    ensures var c := ClearingOf(o, p.leaves, p.makers, ask);
            TokenChange(AccountSlots(p), t)
            == if t == o.base then 0 - c.baseFee else if t == o.quote then 0 - c.quoteFee else 0
  {
    hide MulCeil, ClearingOf, TokenChange, Change, DistinctKeys, Mutations;
    var n, leaves := p.makers / 2, p.leaves;
    var b, q := leaves[p.makers + 1], leaves[p.makers + 2];
    OrderMoney(r, d, o, p, ask);
    DifferentKeys(p.leaves, p.makers + 1, p.makers + 2);
    MakerChange(r, d, o, leaves, n, ask, t);
    assert AccountSlots(p) == leaves[1..2 * n + 1] + [b, q];
    TokenChangeTwo(leaves[1..2 * n + 1], b, q, t);
  }

  lemma DifferentKeys(ls: seq<Leaf>, i: nat, j: nat)
    requires DistinctKeys(ls) && i < j < |ls|
    ensures ls[i].key != ls[j].key
  {
  }

  /** Maker and taker changes add up to the fees, on either side of the book. */
  lemma OrderMoney(r: Reserves, d: Account, o: Order, p: Proof, ask: bool)
    requires Accepts(r, d, o, p, ask)
    ensures var n, b, q := p.makers / 2, p.leaves[p.makers + 1], p.leaves[p.makers + 2];
            var c := ClearingOf(o, p.leaves, p.makers, ask);
            && MakersOk(r, d, o, p.leaves, n, ask) && AccountPair(r, d, o, b, q, !ask)
            && Change(p.leaves, n, 1) + b.NewSum() - b.OldSum() == 0 - c.baseFee
            && Change(p.leaves, n, 2) + q.NewSum() - q.OldSum() == 0 - c.quoteFee
  {
    hide MulCeil, AskWalk, BidWalk, AuthorizedOn, Mutations, Change, MakersOk;
  }

  // --- fees ---

  function ProfitAt(s: State, d: Account, k: Season, t: Token): nat {
    var b := BonusAt(s.bonuses, d, k);
    if t in b.profit then b.profit[t] else 0
  }

  lemma CreditSupply(s: State, c: Token, a: Account, v: nat, t: Token)
    requires Credit(s, c, a, v).Ok?
    ensures Supply(Credit(s, c, a, v).value.ledger, t) == Supply(s.ledger, t) + if c == t then v else 0
  {
    var b := BalanceAt(s.ledger, c, a);
    SupplyPut(s.ledger, c, a, Balance(b.free + v, b.reserved), t);
  }

  lemma SplitFeeSupply(s: State, base: Token, fee: nat, broker: Option<Account>, beneficiary: Account, t: Token)
    requires SplitFee(s, base, fee, broker, beneficiary).Ok?
    ensures Supply(SplitFee(s, base, fee, broker, beneficiary).value.ledger, t)
            == Supply(s.ledger, t) + if t == base then fee else 0
  {
    hide MulCeil, Credit;
    if fee != 0 {
      if broker.None? {
        CreditSupply(s, base, beneficiary, fee, t);
      } else {
        var half := MulCeil(500_000, fee);
        CreditSupply(s, base, broker.value, half, t);
        CreditSupply(Credit(s, base, broker.value, half).value, base, beneficiary, fee - half, t);
      }
    }
  }

  lemma CreditOnly(s: State, t: Token, a: Account, v: nat)
    requires Credit(s, t, a, v).Ok?
    ensures forall b: Account ::
              BalanceAt(Credit(s, t, a, v).value.ledger, t, b).free
              == BalanceAt(s.ledger, t, b).free + if b == a then v else 0
  {
  }

  /** The broker gets half of the base fee rounded up, the beneficiary the other half, and one who is both gets both;
      the split never underflows. */
  lemma SplitFeeHalves(s: State, base: Token, fee: nat, broker: Account, beneficiary: Account, a: Account)
    requires SplitFee(s, base, fee, Some(broker), beneficiary).Ok?
    ensures var s' := SplitFee(s, base, fee, Some(broker), beneficiary).value;
            BalanceAt(s'.ledger, base, a).free
            == BalanceAt(s.ledger, base, a).free
               + (if a == broker then (fee + 1) / 2 else 0) + (if a == beneficiary then fee / 2 else 0)
  {
    hide MulCeil, Credit;
    MulCeilHalf(fee);
    if fee > 0 {
      var s1 := Credit(s, base, broker, (fee + 1) / 2).value;
      CreditOnly(s, base, broker, (fee + 1) / 2);
      CreditOnly(s1, base, beneficiary, fee / 2);
      assert SplitFee(s, base, fee, Some(broker), beneficiary) == Credit(s1, base, beneficiary, fee / 2);
    }
  }

  // --- proofs ---

  /** An accepted order keeps the base supply, lowers the quote supply by the quote fee and books exactly that fee. */
  lemma OrderConserves(
    s: State, d: Account, o: Order, broker: Option<Account>, ask: bool, p: Proof, x: Outside, t: Token)
    requires d in s.dominators && !IsEvicted(s, d) && Coupled(s) && Backed(s.ledger, s.reserves)
    requires DistinctKeys(p.leaves) && OldMatches(s.dominators[d].tree, p.leaves)
    requires SettleOrder(s, d, o, broker, ask, p, x).Ok?
    ensures o.base != o.quote
    ensures var s', c := SettleOrder(s, d, o, broker, ask, p, x).value, ClearingOf(o, p.leaves, p.makers, ask);
            var fee := if t == o.quote then c.quoteFee else 0;
            && Supply(s'.ledger, t) + fee == Supply(s.ledger, t)
            && ProfitAt(s', d, SeasonOf(s, d), t) == ProfitAt(s, d, SeasonOf(s, d), t) + fee
  {
    hide Accepts, ClearingOf, SplitFee, Coupled, Backed, OldMatches, TokenChange, ClearLeaves, Supply;
    var ls, c, k := AccountSlots(p), ClearingOf(o, p.leaves, p.makers, ask), SeasonOf(s, d);
    SlotsChange(s.reserves, d, o, p, ask, t);
    forall i | 0 <= i < |ls|
      ensures ls[i].key.AccountKey? && Held(s, ForAuthorizing, ls[i].key.who, ls[i].key.token, d) == ls[i].OldSum()
    {
      ClearHit(s, d, ls, i);
      assert ls[i] == p.leaves[i + 1];
      ToleranceUnused(s, d, p.leaves, i + 1);
    }
    ClearLeavesSupply(s, d, ls, t);
    ClearLeavesFrame(s, d, ls);
    var s1 := ClearLeaves(s, d, ls).value;
    var s2 := PutProfit(s1, d, k, o.quote, c.quoteFee).value;
    SplitFeeSupply(s2, o.base, c.baseFee, broker, x.beneficiary, t);
    SplitFeeFrame(s2, o.base, c.baseFee, broker, x.beneficiary);
  }

  lemma UnreserveSupply(s: State, b: Bucket, u: Account, c: Token, v: nat, from: Account, t: Token)
    requires Unreserve(s, b, u, c, v, from).Ok?
    ensures Supply(Unreserve(s, b, u, c, v, from).value.ledger, t) == Supply(s.ledger, t)
  {
    var bal := BalanceAt(s.ledger, c, u);
    if v > 0 {
      SupplyPut(s.ledger, c, u, Balance(bal.free + v, bal.reserved - v), t);
    }
  }

  lemma ExecuteConserves(s: State, d: Account, p: Proof, x: Outside, t: Token)
    requires d in s.dominators && !IsEvicted(s, d) && Coupled(s) && Backed(s.ledger, s.reserves)
    requires DistinctKeys(p.leaves) && OldMatches(s.dominators[d].tree, p.leaves) && Execute(s, d, p, x).Ok?
    ensures var s' := Execute(s, d, p, x).value.0;
            Supply(s'.ledger, t) + ProfitAt(s', d, SeasonOf(s, d), t)
            == Supply(s.ledger, t) + ProfitAt(s, d, SeasonOf(s, d), t)
  {
    hide SettleOrder, ClearingOf, Unreserve, OldMatches, Coupled, Backed, DistinctKeys, Supply,
         CancelOk, TransferInOk, TransferOutOk, RejectOutOk;
    match p.cmd
    case AskLimit(o, broker) => OrderConserves(s, d, o, broker, true, p, x, t);
    case BidLimit(o, broker) => OrderConserves(s, d, o, broker, false, p, x, t);
    case TransferOut(c, v) =>
      UnreserveSupply(s, ForAuthorizing, p.user, c, v, d, t);
      UnreserveFrame(s, ForAuthorizing, p.user, c, v, d);
    case _ =>
  }

  /** Whatever the command, supply plus recorded profit of the running season is conserved in every token. */
  lemma ProofConserves(s: State, d: Account, p: Proof, x: Outside, t: Token)
    requires d in s.dominators && !IsEvicted(s, d) && Coupled(s) && Backed(s.ledger, s.reserves)
    requires DistinctKeys(p.leaves) && VerifyAndUpdate(s, d, p, x).Ok?
    ensures var s' := VerifyAndUpdate(s, d, p, x).value;
            Supply(s'.ledger, t) + ProfitAt(s', d, SeasonOf(s, d), t)
            == Supply(s.ledger, t) + ProfitAt(s, d, SeasonOf(s, d), t)
  {
    hide Execute, Updated, OldMatches, Coupled, Backed, DistinctKeys;
    ExecuteConserves(s, d, p, x, t);
  }

  lemma UnreserveFrame(s: State, b: Bucket, u: Account, c: Token, v: nat, from: Account)
    requires Unreserve(s, b, u, c, v, from).Ok?
    ensures Unreserve(s, b, u, c, v, from).value.bonuses == s.bonuses
  {
  }

  /** The same for a whole batch. */
  lemma {:induction false} BatchConserves(s: State, d: Account, ps: seq<(Proof, Outside)>, t: Token)
    requires !IsEvicted(s, d) && Coupled(s) && CustodyInv(s) && VerifyBatch(s, d, ps).Ok?
    requires forall i | 0 <= i < |ps| :: WellFormedProof(ps[i].0)
    ensures var s' := VerifyBatch(s, d, ps).value;
            Supply(s'.ledger, t) + ProfitAt(s', d, SeasonOf(s, d), t)
            == Supply(s.ledger, t) + ProfitAt(s, d, SeasonOf(s, d), t)
  {
    hide VerifyAndUpdate, Coupled, CustodyInv;
    if ps == [] {
    } else {
      var before, last := ps[..|ps| - 1], ps[|ps| - 1];
      BatchConserves(s, d, before, t);
      BatchFrame(s, d, before);
      BatchCoupled(s, d, before);
      BatchCustody(s, d, before);
      CustodyBacked(VerifyBatch(s, d, before).value);
      ProofConserves(VerifyBatch(s, d, before).value, d, last.0, last.1, t);
    }
  }

  lemma CustodyBacked(s: State)
    requires CustodyInv(s)
    ensures Backed(s.ledger, s.reserves)
  {
  }
}
