/** How much reserved balance no reserve entry accounts for, exactly: what outside changes added, and the stashes that
    rejected deposits have left behind and a later deposit wiped out. */
module CustodyGap {
  import opened Arith
  import opened Sums
  import opened Ledgers
  import opened Wrappers
  import opened VerifierTypes
  import opened ProofChecks
  import opened VerifierState
  import opened VerifierRuns
  import opened Custody

  /** Reserved balance of `u` in `t` beyond all its entries. */
  ghost function Gap(l: Ledger, r: Reserves, t: Token, u: Account): int {
    BalanceAt(l, t, u).reserved - HeldSum(r, t, u)
  }

  /** The same reserved balances and the same entries in all but one place, which both follow. */
  lemma GapWrite(l: Ledger, r: Reserves, k: RKey, v: nat, b: Balance, t: Token, u: Account)
    requires BalanceAt(l, k.token, k.owner).reserved + v == b.reserved + ReserveAt(r, k)
    ensures Gap(l[(k.token, k.owner) := b], r[k := v], t, u) == Gap(l, r, t, u)
  {
    HeldPut(r, k, v, t, u);
  }

  lemma ReserveGap(s: State, b: Bucket, o: Account, q: Token, v: nat, d: Account, t: Token, u: Account)
    requires Reserve(s, b, o, q, v, d).Ok?
    ensures var s' := Reserve(s, b, o, q, v, d).value;
            Gap(s'.ledger, s'.reserves, t, u) == Gap(s.ledger, s.reserves, t, u)
  {
    var bal, k := BalanceAt(s.ledger, q, o), RKey(b, o, q, d);
    if v > 0 {
      GapWrite(s.ledger, s.reserves, k, ReserveAt(s.reserves, k) + v, Balance(bal.free - v, bal.reserved + v), t, u);
    }
  }

  lemma UnreserveGap(s: State, b: Bucket, o: Account, q: Token, v: nat, d: Account, t: Token, u: Account)
    requires Unreserve(s, b, o, q, v, d).Ok?
    ensures var s' := Unreserve(s, b, o, q, v, d).value;
            Gap(s'.ledger, s'.reserves, t, u) == Gap(s.ledger, s.reserves, t, u)
  {
    var bal, k := BalanceAt(s.ledger, q, o), RKey(b, o, q, d);
    if v > 0 {
      GapWrite(s.ledger, s.reserves, k, ReserveAt(s.reserves, k) - v, Balance(bal.free + v, bal.reserved - v), t, u);
    }
  }

  lemma ClearGap(s: State, who: Account, d: Account, q: Token, balance: nat, t: Token, u: Account)
    requires Backed(s.ledger, s.reserves) && Clear(s, who, d, q, balance).Ok?
    ensures var s' := Clear(s, who, d, q, balance).value;
            Gap(s'.ledger, s'.reserves, t, u) == Gap(s.ledger, s.reserves, t, u)
  {
    var bal, k := BalanceAt(s.ledger, q, who), RKey(ForAuthorizing, who, q, d);
    EntryBacked(s.ledger, s.reserves, k);
    var rest := bal.reserved - ReserveAt(s.reserves, k);
    GapWrite(s.ledger, s.reserves, k, balance, Balance(bal.free, rest + balance), t, u);
  }

  /** Paying into free balances. */
  lemma TakeSharesGap(s: State, x: Account, d: Account, from: Season, until: Season, stake: nat, t: Token, u: Account)
    requires TakeShares(s, x, d, from, until, stake).Ok?
    ensures Gap(TakeShares(s, x, d, from, until, stake).value.ledger, s.reserves, t, u)
            == Gap(s.ledger, s.reserves, t, u)
  {
    CreditAllKeepsReserved(s.ledger, x, Shares(s.bonuses, d, from, until, stake));
  }

  lemma CreditGap(s: State, q: Token, a: Account, v: nat, t: Token, u: Account)
    requires Credit(s, q, a, v).Ok?
    ensures var s' := Credit(s, q, a, v).value;
            s' == s.(ledger := s'.ledger) && Gap(s'.ledger, s.reserves, t, u) == Gap(s.ledger, s.reserves, t, u)
  {
  }

  lemma SplitFeeGap(
    s: State, base: Token, fee: nat, broker: Option<Account>, beneficiary: Account, t: Token, u: Account)
    requires SplitFee(s, base, fee, broker, beneficiary).Ok?
    ensures var s' := SplitFee(s, base, fee, broker, beneficiary).value;
            s' == s.(ledger := s'.ledger) && Gap(s'.ledger, s.reserves, t, u) == Gap(s.ledger, s.reserves, t, u)
  {
    hide Credit, MulCeil, Gap;
    if fee == 0 {
    } else if broker.None? {
      CreditGap(s, base, beneficiary, fee, t, u);
    } else {
      var half := MulCeil(500_000, fee);
      CreditGap(s, base, broker.value, half, t, u);
      CreditGap(Credit(s, base, broker.value, half).value, base, beneficiary, fee - half, t, u);
    }
  }

  // --- proofs ---

  lemma {:induction false} ClearLeavesGap(s: State, d: Account, ls: seq<Leaf>, t: Token, u: Account)
    requires Backed(s.ledger, s.reserves) && ClearLeaves(s, d, ls).Ok?
    ensures var s' := ClearLeaves(s, d, ls).value;
            Gap(s'.ledger, s'.reserves, t, u) == Gap(s.ledger, s.reserves, t, u)
  {
    hide Gap, Clear, Backed;
    if ls == [] {
    } else {
      var s1, l := ClearLeaves(s, d, ls[..|ls| - 1]).value, ls[|ls| - 1];
      ClearLeavesGap(s, d, ls[..|ls| - 1], t, u);
      ClearLeavesBacked(s, d, ls[..|ls| - 1]);
      ClearGap(s1, l.key.who, d, l.key.token, l.NewSum(), t, u);
    }
  }

  lemma SettleOrderGap(
    s: State, d: Account, o: Order, broker: Option<Account>, ask: bool, p: Proof, x: Outside, t: Token, u: Account)
    requires d in s.dominators && Backed(s.ledger, s.reserves) && SettleOrder(s, d, o, broker, ask, p, x).Ok?
    ensures var s' := SettleOrder(s, d, o, broker, ask, p, x).value;
            Gap(s'.ledger, s'.reserves, t, u) == Gap(s.ledger, s.reserves, t, u)
  {
    hide Gap, Backed, Accepts, ClearingOf, ClearLeaves, PutProfit, SplitFee;
    var ls, c := AccountSlots(p), ClearingOf(o, p.leaves, p.makers, ask);
    ClearLeavesGap(s, d, ls, t, u);
    var s1, k := ClearLeaves(s, d, ls).value, CurrentSeason(s.cfg, s.now, s.dominators[d].startFrom);
    PutProfitFrame(s1, d, k, o.quote, c.quoteFee);
    SplitFeeGap(PutProfit(s1, d, k, o.quote, c.quoteFee).value, o.base, c.baseFee, broker, x.beneficiary, t, u);
  }

  /** The stash that an accepted deposit wipes out beyond the amount it enters. */
  function Stranded(s: State, d: Account, p: Proof, t: Token, u: Account): nat {
    match p.cmd
    case TransferIn(q, v) =>
      if q == t && p.user == u && Held(s, ForStash, u, t, d) > v then Held(s, ForStash, u, t, d) - v else 0
    case _ => 0
  }

  lemma TransferInGap(s: State, d: Account, p: Proof, x: Outside, t: Token, u: Account)
    requires d in s.dominators && ReceiptsBacked(s) && p.cmd.TransferIn? && Execute(s, d, p, x).Ok?
    ensures var s' := Execute(s, d, p, x).value.0;
            Gap(s'.ledger, s'.reserves, t, u) == Gap(s.ledger, s.reserves, t, u) + Stranded(s, d, p, t, u)
  {
    hide SettleOrder, TransferInOk;
    var q, v := p.cmd.currency, p.cmd.amount;
    var ks, ka := RKey(ForStash, p.user, q, d), RKey(ForAuthorizing, p.user, q, d);
    HeldPut(s.reserves, ks, 0, t, u);
    HeldPut(s.reserves[ks := 0], ka, ReserveAt(s.reserves, ka) + v, t, u);
  }

  lemma ExecuteGap(s: State, d: Account, p: Proof, x: Outside, t: Token, u: Account)
    requires d in s.dominators && CustodyInv(s) && Execute(s, d, p, x).Ok?
    ensures var s' := Execute(s, d, p, x).value.0;
            Gap(s'.ledger, s'.reserves, t, u) == Gap(s.ledger, s.reserves, t, u) + Stranded(s, d, p, t, u)
  {
    hide SettleOrder, Backed, Unreserve, Gap, ReceiptsBacked;
    match p.cmd
    case AskLimit(o, broker) => SettleOrderGap(s, d, o, broker, true, p, x, t, u);
    case BidLimit(o, broker) => SettleOrderGap(s, d, o, broker, false, p, x, t, u);
    case TransferOut(q, v) => UnreserveGap(s, ForAuthorizing, p.user, q, v, d, t, u);
    case TransferIn(q, v) => TransferInGap(s, d, p, x, t, u);
    case _ =>
  }

  /** What the proofs of a batch strand. */
  ghost function BatchStranded(s: State, d: Account, ps: seq<(Proof, Outside)>, t: Token, u: Account): nat {
    if ps == [] then 0
    else
      var s1 := VerifyBatch(s, d, ps[..|ps| - 1]);
      BatchStranded(s, d, ps[..|ps| - 1], t, u)
      + if s1.Ok? then Stranded(s1.value, d, ps[|ps| - 1].0, t, u) else 0
  }

  lemma {:induction false} BatchGap(s: State, d: Account, ps: seq<(Proof, Outside)>, t: Token, u: Account)
    requires CustodyInv(s) && VerifyBatch(s, d, ps).Ok?
    ensures var s' := VerifyBatch(s, d, ps).value;
            Gap(s'.ledger, s'.reserves, t, u) == Gap(s.ledger, s.reserves, t, u) + BatchStranded(s, d, ps, t, u)
  {
    hide CustodyInv, Execute, Gap, Stranded;
    if ps == [] {
    } else {
      var before, last := ps[..|ps| - 1], ps[|ps| - 1];
      BatchGap(s, d, before, t, u);
      BatchCustody(s, d, before);
      ExecuteGap(VerifyBatch(s, d, before).value, d, last.0, last.1, t, u);
    }
  }

  // --- the other calls ---

  lemma StakeGap(s: State, x: Account, d: Account, v: nat, t: Token, u: Account)
    requires StakeOn(s, x, d, v).Ok?
    ensures var s' := StakeOn(s, x, d, v).value;
            Gap(s'.ledger, s'.reserves, t, u) == Gap(s.ledger, s.reserves, t, u)
  {
    hide StakeOn, Reserve, TakeShares, StatusFor, Gap, CurrentSeason;
    StakeParts(s, x, d, v);
    ReserveGap(s, ForStaking, x, s.cfg.native, v, d, t, u);
    var s1, was := Reserve(s, ForStaking, x, s.cfg.native, v, d).value, StakingAt(s, d, x);
    if was.amount != 0 {
      TakeSharesGap(s1, x, d, was.fromSeason, SeasonOf(s, d), was.amount, t, u);
      TakeSharesEffect(s1, x, d, was.fromSeason, SeasonOf(s, d), was.amount);
    }
  }

  lemma UnstakeGap(s: State, x: Account, d: Account, v: nat, t: Token, u: Account)
    requires UnstakeFrom(s, x, d, v).Ok?
    ensures var s' := UnstakeFrom(s, x, d, v).value;
            Gap(s'.ledger, s'.reserves, t, u) == Gap(s.ledger, s.reserves, t, u)
  {
    hide UnstakeFrom, Unreserve, Reserve, TakeShares, UnlockAt, StatusFor, Gap, CurrentSeason;
    UnstakeParts(s, x, d, v);
    UnreserveGap(s, ForStaking, x, s.cfg.native, v, d, t, u);
    var s1 := Unreserve(s, ForStaking, x, s.cfg.native, v, d).value;
    ReserveGap(s1, ForPendingUnstake, x, s.cfg.native, v, s.cfg.system, t, u);
    var s2, was := Reserve(s1, ForPendingUnstake, x, s.cfg.native, v, s.cfg.system).value, s.stakings[(d, x)];
    TakeSharesEffect(s2, x, d, was.fromSeason, SeasonOf(s, d), was.amount);
    TakeSharesGap(s2, x, d, was.fromSeason, SeasonOf(s, d), was.amount, t, u);
  }

  lemma ClaimGap(s: State, x: Account, d: Account, t: Token, u: Account)
    requires ClaimShares(s, x, d).Ok?
    ensures var s' := ClaimShares(s, x, d).value;
            Gap(s'.ledger, s'.reserves, t, u) == Gap(s.ledger, s.reserves, t, u)
  {
    hide TakeShares, Gap, CurrentSeason;
    var was := s.stakings[(d, x)];
    TakeSharesEffect(s, x, d, was.fromSeason, SeasonOf(s, d), was.amount);
    TakeSharesGap(s, x, d, was.fromSeason, SeasonOf(s, d), was.amount, t, u);
  }

  lemma AuthorizeGap(s: State, o: Account, d: Account, q: Token, v: nat, t: Token, u: Account)
    requires AuthorizeTo(s, o, d, q, v).Ok?
    ensures var s' := AuthorizeTo(s, o, d, q, v).value;
            Gap(s'.ledger, s'.reserves, t, u) == Gap(s.ledger, s.reserves, t, u)
  {
    hide Reserve, Gap;
    ReserveGap(s, ForStash, o, q, v, d, t, u);
  }

  /** All of one entry moves to another of the same owner and token. */
  lemma ShiftGap(l: Ledger, r: Reserves, k: RKey, k': RKey, t: Token, u: Account)
    requires k != k' && k.token == k'.token && k.owner == k'.owner
    ensures Gap(l, r[k := 0][k' := ReserveAt(r, k') + ReserveAt(r, k)], t, u) == Gap(l, r, t, u)
  {
    HeldPut(r, k, 0, t, u);
    HeldPut(r[k := 0], k', ReserveAt(r, k') + ReserveAt(r, k), t, u);
  }

  lemma RevokeGap(s: State, o: Account, d: Account, q: Token, wanted: Option<nat>, callback: bool, t: Token, u: Account)
    requires RevokeFrom(s, o, d, q, wanted, callback).Ok?
    ensures var s' := RevokeFrom(s, o, d, q, wanted, callback).value;
            Gap(s'.ledger, s'.reserves, t, u) == Gap(s.ledger, s.reserves, t, u)
  {
    hide Unreserve, Gap;
    var v := if wanted.Some? then wanted.value else Held(s, ForAuthorizing, o, q, d);
    if v > 0 && s.dominators[d].status == Evicted {
      var ks, ka := RKey(ForStash, o, q, d), RKey(ForAuthorizing, o, q, d);
      ShiftGap(s.ledger, s.reserves, ks, ka, t, u);
      var moved := s.(reserves := s.reserves[ks := 0][ka := ReserveAt(s.reserves, ka) + ReserveAt(s.reserves, ks)]);
      UnreserveGap(moved, ForAuthorizing, o, q, v, d, t, u);
    }
  }

  lemma {:induction false} ReleaseGap(s: State, at: Block, order: seq<Account>, t: Token, u: Account)
    ensures var s' := Release(s, at, order);
            Gap(s'.ledger, s'.reserves, t, u) == Gap(s.ledger, s.reserves, t, u)
  {
    hide Gap, Unreserve;
    if order == [] {
    } else {
      ReleaseGap(s, at, order[..|order| - 1], t, u);
      var s1, x := Release(s, at, order[..|order| - 1]), order[|order| - 1];
      if Unreserve(s1, ForPendingUnstake, x, s.cfg.native, QueueAt(s, at, x), s.cfg.system).Ok? {
        UnreserveGap(s1, ForPendingUnstake, x, s.cfg.native, QueueAt(s, at, x), s.cfg.system, t, u);
      }
    }
  }

  // --- runs ---

  /** What one step adds to the gap. */
  ghost function Widens(s: State, op: Op, t: Token, u: Account): nat {
    match op
    case Elsewhere(l) =>
      if KeepsReserved(s.ledger, l) then BalanceAt(l, t, u).reserved - BalanceAt(s.ledger, t, u).reserved else 0
    case Verifying(d, ps) => if Verify(s, d, ps).Ok? then BatchStranded(s, d, ps, t, u) else 0
    case _ => 0
  }

  lemma ElsewhereGap(s: State, l: Ledger, t: Token, u: Account)
    requires KeepsReserved(s.ledger, l)
    ensures Gap(l, s.reserves, t, u) == Gap(s.ledger, s.reserves, t, u) + Widens(s, Elsewhere(l), t, u)
  {
    hide HeldSum, Verify;
  }

  lemma BlockGap(s: State, order: seq<Account>, t: Token, u: Account)
    requires s.cfg.grace > 0
    ensures var s' := NextBlock(s, order);
            Gap(s'.ledger, s'.reserves, t, u) == Gap(s.ledger, s.reserves, t, u)
  {
    hide Gap, Release, Snapshot;
    ReleaseGap(s.(now := s.now + 1), s.now + 1, order, t, u);
  }

  lemma StepGap(s: State, op: Op, t: Token, u: Account)
    requires CustodyInv(s) && s.cfg.grace > 0
    ensures var s' := Step(s, op);
            Gap(s'.ledger, s'.reserves, t, u) == Gap(s.ledger, s.reserves, t, u) + Widens(s, op, t, u)
  {
    hide VerifyBatch, NextBlock, StakeOn, UnstakeFrom, ClaimShares, AuthorizeTo, RevokeFrom, Gap, CustodyInv,
         KeepsReserved, BatchStranded, DrainOrder;
    match op
    case Elsewhere(l) => if KeepsReserved(s.ledger, l) { ElsewhereGap(s, l, t, u); }
    case Block(order) => if DrainOrder(s, s.now + 1, order) { BlockGap(s, order, t, u); }
    case Staking(x, d, v) => if Call(s, op).Ok? { StakeGap(s, x, d, v, t, u); }
    case Unstaking(x, d, v) => if Call(s, op).Ok? { UnstakeGap(s, x, d, v, t, u); }
    case Claiming(x, d) => if Call(s, op).Ok? { ClaimGap(s, x, d, t, u); }
    case Authorizing(o, d, q, v) => if Call(s, op).Ok? { AuthorizeGap(s, o, d, q, v, t, u); }
    case Revoking(o, d, q, w, c) => if Call(s, op).Ok? { RevokeGap(s, o, d, q, w, c, t, u); }
    case Verifying(d, ps) => if Call(s, op).Ok? { BatchGap(s, d, ps, t, u); }
    case _ =>
  }

  ghost function Widened(s: State, ops: seq<Op>, t: Token, u: Account): nat
    requires s.cfg.grace > 0
  {
    if ops == [] then 0
    else Widened(s, ops[..|ops| - 1], t, u) + Widens(Run(s, ops[..|ops| - 1]), ops[|ops| - 1], t, u)
  }

  /** In every run reserved balances exceed the entries by exactly what outside changes reserved and deposits
      stranded. */
  lemma {:induction false} RunGap(cfg: Config, l: Ledger, ops: seq<Op>, t: Token, u: Account)
    requires cfg.grace > 0
    ensures var s' := Run(Genesis(cfg, l), ops);
            HeldSum(s'.reserves, t, u) + Widened(Genesis(cfg, l), ops, t, u) + BalanceAt(l, t, u).reserved
            == BalanceAt(s'.ledger, t, u).reserved
  {
    hide HeldSum, CustodyInv, Step, Widens;
    if ops == [] {
      NoEntries(t, u);
    } else {
      var s1, op := Run(Genesis(cfg, l), ops[..|ops| - 1]), ops[|ops| - 1];
      RunGap(cfg, l, ops[..|ops| - 1], t, u);
      RunCustody(cfg, l, ops[..|ops| - 1]);
      StepGap(s1, op, t, u);
    }
  }

  lemma NoEntries(t: Token, u: Account)
    ensures HeldSum(map[], t, u) == 0
  {
    var none: Reserves := map[];
    SumZero(none, HeldBy(t, u));
  }
}
