/** Custody solvency: every reserve entry is backed by reserved balance, in every reachable state. */
module Custody {
  import opened Arith
  import opened Sums
  import opened Ledgers
  import opened Wrappers
  import opened VerifierTypes
  import opened ProofChecks
  import opened VerifierState
  import opened VerifierRuns

  function HeldBy(t: Token, u: Account): (RKey, nat) -> nat {
    (k: RKey, v: nat) => if k.token == t && k.owner == u then v else 0
  }

  /** All reserve entries of one account in one token: four buckets, every dominator. */
  ghost function HeldSum(r: Reserves, t: Token, u: Account): nat {
    Sum(r, HeldBy(t, u))
  }

  ghost predicate Backed(l: Ledger, r: Reserves) {
    forall t: Token, u: Account :: HeldSum(r, t, u) <= BalanceAt(l, t, u).reserved
  }

  /** A pending deposit is covered by the stash. */
  ghost predicate ReceiptsBacked(s: State) {
    forall d: Account, u: Account | (d, u) in s.receipts && s.receipts[(d, u)].Authorize? ::
      s.receipts[(d, u)].amount <= Held(s, ForStash, u, s.receipts[(d, u)].token, d)
  }

  ghost predicate CustodyInv(s: State) {
    Backed(s.ledger, s.reserves) && ReceiptsBacked(s)
  }

  lemma HeldPut(r: Reserves, k: RKey, v: nat, t: Token, u: Account)
    ensures k.token == t && k.owner == u ==> HeldSum(r[k := v], t, u) + ReserveAt(r, k) == HeldSum(r, t, u) + v
    ensures k.token != t || k.owner != u ==> HeldSum(r[k := v], t, u) == HeldSum(r, t, u)
  {
    SumPut(r, k, v, HeldBy(t, u));
  }

  /** One entry never exceeds the reserved balance of its owner. */
  lemma EntryBacked(l: Ledger, r: Reserves, k: RKey)
    requires Backed(l, r)
    ensures ReserveAt(r, k) <= BalanceAt(l, k.token, k.owner).reserved
  {
    SumMember(r, k, HeldBy(k.token, k.owner));
    assert HeldSum(r, k.token, k.owner) <= BalanceAt(l, k.token, k.owner).reserved;
  }

  lemma BackedWrite(l: Ledger, r: Reserves, k: RKey, v: nat, b: Balance)
    requires Backed(l, r)
    requires BalanceAt(l, k.token, k.owner).reserved + v <= b.reserved + ReserveAt(r, k)
    ensures Backed(l[(k.token, k.owner) := b], r[k := v])
  {
    var l' := l[(k.token, k.owner) := b];
    forall t: Token, u: Account
      ensures HeldSum(r[k := v], t, u) <= BalanceAt(l', t, u).reserved
    {
      HeldPut(r, k, v, t, u);
      assert HeldSum(r, t, u) <= BalanceAt(l, t, u).reserved;
    }
  }

  /** Moving part of one entry to another entry of the same owner and token. */
  lemma BackedShift(l: Ledger, r: Reserves, k: RKey, k': RKey, v: nat)
    requires Backed(l, r) && k != k' && k.token == k'.token && k.owner == k'.owner && v <= ReserveAt(r, k)
    ensures Backed(l, r[k := 0][k' := ReserveAt(r, k') + v])
  {
    forall t: Token, u: Account
      ensures HeldSum(r[k := 0][k' := ReserveAt(r, k') + v], t, u) <= BalanceAt(l, t, u).reserved
    {
      HeldPut(r, k, 0, t, u);
      HeldPut(r[k := 0], k', ReserveAt(r, k') + v, t, u);
      assert HeldSum(r, t, u) <= BalanceAt(l, t, u).reserved;
    }
  }

  lemma BackedElsewhere(l: Ledger, l': Ledger, r: Reserves)
    requires Backed(l, r) && KeepsReserved(l, l')
    ensures Backed(l', r)
  {
    forall t: Token, u: Account
      ensures HeldSum(r, t, u) <= BalanceAt(l', t, u).reserved
    {
      assert HeldSum(r, t, u) <= BalanceAt(l, t, u).reserved <= BalanceAt(l', t, u).reserved;
    }
  }

  // --- primitives ---

  lemma ReserveBacked(s: State, b: Bucket, u: Account, t: Token, v: nat, to: Account)
    requires Backed(s.ledger, s.reserves) && Reserve(s, b, u, t, v, to).Ok?
    ensures var s' := Reserve(s, b, u, t, v, to).value; Backed(s'.ledger, s'.reserves)
  {
    var bal, k := BalanceAt(s.ledger, t, u), RKey(b, u, t, to);
    if v > 0 {
      BackedWrite(s.ledger, s.reserves, k, ReserveAt(s.reserves, k) + v, Balance(bal.free - v, bal.reserved + v));
    }
  }

  lemma UnreserveBacked(s: State, b: Bucket, u: Account, t: Token, v: nat, from: Account)
    requires Backed(s.ledger, s.reserves) && Unreserve(s, b, u, t, v, from).Ok?
    ensures var s' := Unreserve(s, b, u, t, v, from).value; Backed(s'.ledger, s'.reserves)
  {
    var bal, k := BalanceAt(s.ledger, t, u), RKey(b, u, t, from);
    if v > 0 {
      BackedWrite(s.ledger, s.reserves, k, ReserveAt(s.reserves, k) - v, Balance(bal.free + v, bal.reserved - v));
    }
  }

  /** `clear` never needs its fallback: what it subtracts is there, so reserve and balance move by the same amount. */
  lemma ClearExact(s: State, who: Account, d: Account, t: Token, balance: nat)
    requires Backed(s.ledger, s.reserves) && Clear(s, who, d, t, balance).Ok?
    ensures var s' := Clear(s, who, d, t, balance).value;
            && Backed(s'.ledger, s'.reserves)
            && BalanceAt(s'.ledger, t, who).reserved + Held(s, ForAuthorizing, who, t, d)
               == BalanceAt(s.ledger, t, who).reserved + balance
  {
    var bal, k := BalanceAt(s.ledger, t, who), RKey(ForAuthorizing, who, t, d);
    EntryBacked(s.ledger, s.reserves, k);
    BackedWrite(s.ledger, s.reserves, k, balance, Balance(bal.free, bal.reserved - ReserveAt(s.reserves, k) + balance));
  }

  lemma {:induction false} ClearLeavesBacked(s: State, d: Account, ls: seq<Leaf>)
    requires Backed(s.ledger, s.reserves) && ClearLeaves(s, d, ls).Ok?
    ensures var s' := ClearLeaves(s, d, ls).value; Backed(s'.ledger, s'.reserves)
    ensures forall k: RKey | k.bucket == ForStash ::
              ReserveAt(ClearLeaves(s, d, ls).value.reserves, k) == ReserveAt(s.reserves, k)
  {
    if ls == [] {
    } else {
      ClearLeavesBacked(s, d, ls[..|ls| - 1]);
      var s1, l := ClearLeaves(s, d, ls[..|ls| - 1]).value, ls[|ls| - 1];
      ClearExact(s1, l.key.who, d, l.key.token, l.NewSum());
    }
  }

  lemma CreditKeepsReserved(s: State, t: Token, a: Account, v: nat)
    requires Credit(s, t, a, v).Ok?
    ensures var s' := Credit(s, t, a, v).value; s' == s.(ledger := s'.ledger) && KeepsReserved(s.ledger, s'.ledger)
  {
  }

  lemma CreditAllKeepsReserved(l: Ledger, x: Account, m: map<Token, nat>)
    ensures forall t: Token, a: Account ::
              BalanceAt(CreditAll(l, x, m), t, a)
              == Balance(BalanceAt(l, t, a).free + (if a == x && t in m then m[t] else 0), BalanceAt(l, t, a).reserved)
    ensures KeepsReserved(l, CreditAll(l, x, m))
  {
  }

  lemma TakeSharesBacked(s: State, x: Account, d: Account, from: Season, to: Season, stake: nat)
    requires Backed(s.ledger, s.reserves) && TakeShares(s, x, d, from, to, stake).Ok?
    ensures Backed(TakeShares(s, x, d, from, to, stake).value.ledger, s.reserves)
  {
    var m := Shares(s.bonuses, d, from, to, stake);
    CreditAllKeepsReserved(s.ledger, x, m);
    BackedElsewhere(s.ledger, CreditAll(s.ledger, x, m), s.reserves);
  }

  // --- proofs ---

  lemma SplitFeeBacked(s: State, base: Token, fee: nat, broker: Option<Account>, beneficiary: Account)
    requires Backed(s.ledger, s.reserves) && SplitFee(s, base, fee, broker, beneficiary).Ok?
    ensures var s' := SplitFee(s, base, fee, broker, beneficiary).value;
            s' == s.(ledger := s'.ledger) && Backed(s'.ledger, s'.reserves)
  {
    hide Credit, MulCeil;
    var s' := SplitFee(s, base, fee, broker, beneficiary).value;
    if fee > 0 {
      var s1, left := s, fee;
      if broker.Some? {
        CreditKeepsReserved(s, base, broker.value, MulCeil(500_000, fee));
        s1, left := Credit(s, base, broker.value, MulCeil(500_000, fee)).value, fee - MulCeil(500_000, fee);
        BackedElsewhere(s.ledger, s1.ledger, s.reserves);
      }
      CreditKeepsReserved(s1, base, beneficiary, left);
      BackedElsewhere(s1.ledger, s'.ledger, s.reserves);
    }
  }

  lemma SettleOrderCustody(s: State, d: Account, o: Order, broker: Option<Account>, ask: bool, p: Proof, x: Outside)
    requires d in s.dominators && CustodyInv(s) && SettleOrder(s, d, o, broker, ask, p, x).Ok?
    ensures CustodyInv(SettleOrder(s, d, o, broker, ask, p, x).value)
  {
    hide Backed, Accepts, ClearingOf, ClearLeaves, PutProfit, SplitFee;
    var ls := AccountSlots(p);
    ClearLeavesBacked(s, d, ls);
    ClearLeavesFrame(s, d, ls);
    var c, s1 := ClearingOf(o, p.leaves, p.makers, ask), ClearLeaves(s, d, ls).value;
    var k := CurrentSeason(s.cfg, s.now, s.dominators[d].startFrom);
    PutProfitFrame(s1, d, k, o.quote, c.quoteFee);
    var s2 := PutProfit(s1, d, k, o.quote, c.quoteFee).value;
    SplitFeeBacked(s2, o.base, c.baseFee, broker, x.beneficiary);
  }

  lemma ExecuteCustody(s: State, d: Account, p: Proof, x: Outside)
    requires d in s.dominators && CustodyInv(s) && Execute(s, d, p, x).Ok?
    ensures CustodyInv(Execute(s, d, p, x).value.0)
  {
    hide SettleOrder, CustodyInv;
    match p.cmd
    case AskLimit(o, broker) => SettleOrderCustody(s, d, o, broker, true, p, x);
    case BidLimit(o, broker) => SettleOrderCustody(s, d, o, broker, false, p, x);
    case TransferOut(t, v) => TransferCustody(s, d, p, x);
    case TransferIn(t, v) => TransferCustody(s, d, p, x);
    case RejectTransferOut(t, v) => TransferCustody(s, d, p, x);
    case RejectTransferIn => TransferCustody(s, d, p, x);
    case Cancel(base, quote) =>
  }

  lemma TransferCustody(s: State, d: Account, p: Proof, x: Outside)
    requires d in s.dominators && CustodyInv(s) && Execute(s, d, p, x).Ok?
    requires !p.cmd.AskLimit? && !p.cmd.BidLimit? && !p.cmd.Cancel?
    ensures CustodyInv(Execute(s, d, p, x).value.0)
  {
    hide SettleOrder, Backed;
    match p.cmd
    case TransferOut(t, v) => UnreserveBacked(s, ForAuthorizing, p.user, t, v, d);
    case TransferIn(t, v) =>
      BackedShift(s.ledger, s.reserves, RKey(ForStash, p.user, t, d), RKey(ForAuthorizing, p.user, t, d), v);
    case _ =>
  }

  lemma {:induction false} BatchCustody(s: State, d: Account, ps: seq<(Proof, Outside)>)
    requires CustodyInv(s) && VerifyBatch(s, d, ps).Ok?
    ensures CustodyInv(VerifyBatch(s, d, ps).value)
  {
    if ps == [] {
    } else {
      BatchCustody(s, d, ps[..|ps| - 1]);
      ExecuteCustody(VerifyBatch(s, d, ps[..|ps| - 1]).value, d, ps[|ps| - 1].0, ps[|ps| - 1].1);
    }
  }

  // --- the other calls ---

  lemma StakeCustody(s: State, x: Account, d: Account, v: nat)
    requires CustodyInv(s) && StakeOn(s, x, d, v).Ok?
    ensures CustodyInv(StakeOn(s, x, d, v).value)
  {
    hide StakeOn, Reserve, TakeShares, StatusFor, Backed, CurrentSeason;
    StakeParts(s, x, d, v);
    ReserveBacked(s, ForStaking, x, s.cfg.native, v, d);
    ReserveEffect(s, ForStaking, x, s.cfg.native, v, d);
    var s1, was := Reserve(s, ForStaking, x, s.cfg.native, v, d).value, StakingAt(s, d, x);
    if was.amount != 0 {
      TakeSharesBacked(s1, x, d, was.fromSeason, SeasonOf(s, d), was.amount);
      TakeSharesEffect(s1, x, d, was.fromSeason, SeasonOf(s, d), was.amount);
    }
  }

  lemma UnstakeCustody(s: State, x: Account, d: Account, v: nat)
    requires CustodyInv(s) && UnstakeFrom(s, x, d, v).Ok?
    ensures CustodyInv(UnstakeFrom(s, x, d, v).value)
  {
    hide UnstakeFrom, Unreserve, Reserve, TakeShares, UnlockAt, StatusFor, Backed;
    UnstakeParts(s, x, d, v);
    UnstakeEffect(s, x, d, v);
    UnreserveBacked(s, ForStaking, x, s.cfg.native, v, d);
    var s1 := Unreserve(s, ForStaking, x, s.cfg.native, v, d).value;
    ReserveBacked(s1, ForPendingUnstake, x, s.cfg.native, v, s.cfg.system);
    var s2 := Reserve(s1, ForPendingUnstake, x, s.cfg.native, v, s.cfg.system).value;
    var was := s.stakings[(d, x)];
    ReserveEffect(s1, ForPendingUnstake, x, s.cfg.native, v, s.cfg.system);
    TakeSharesEffect(s2, x, d, was.fromSeason, SeasonOf(s, d), was.amount);
    TakeSharesBacked(s2, x, d, was.fromSeason, SeasonOf(s, d), was.amount);
  }

  lemma ClaimCustody(s: State, x: Account, d: Account)
    requires CustodyInv(s) && ClaimShares(s, x, d).Ok?
    ensures CustodyInv(ClaimShares(s, x, d).value)
  {
    var was, k := s.stakings[(d, x)], CurrentSeason(s.cfg, s.now, s.dominators[d].startFrom);
    TakeSharesBacked(s, x, d, was.fromSeason, k, was.amount);
  }

  lemma AuthorizeCustody(s: State, u: Account, d: Account, t: Token, v: nat)
    requires CustodyInv(s) && AuthorizeTo(s, u, d, t, v).Ok?
    ensures CustodyInv(AuthorizeTo(s, u, d, t, v).value)
  {
    ReserveBacked(s, ForStash, u, t, v, d);
  }

  lemma RevokeCustody(s: State, u: Account, d: Account, t: Token, wanted: Option<nat>, callback: bool)
    requires CustodyInv(s) && RevokeFrom(s, u, d, t, wanted, callback).Ok?
    ensures CustodyInv(RevokeFrom(s, u, d, t, wanted, callback).value)
  {
    hide Backed, Unreserve;
    var v := if wanted.Some? then wanted.value else Held(s, ForAuthorizing, u, t, d);
    if v > 0 && s.dominators[d].status == Evicted {
      var stash, ks, ka := Held(s, ForStash, u, t, d), RKey(ForStash, u, t, d), RKey(ForAuthorizing, u, t, d);
      BackedShift(s.ledger, s.reserves, ks, ka, stash);
      var moved := s.(reserves := s.reserves[ks := 0][ka := ReserveAt(s.reserves, ka) + stash]);
      UnreserveBacked(moved, ForAuthorizing, u, t, v, d);
      UnreserveEffect(moved, ForAuthorizing, u, t, v, d);
    }
  }

  lemma {:induction false} ReleaseBacked(s: State, at: Block, order: seq<Account>)
    requires Backed(s.ledger, s.reserves)
    ensures var s' := Release(s, at, order); Backed(s'.ledger, s'.reserves)
  {
    if order == [] {
    } else {
      ReleaseBacked(s, at, order[..|order| - 1]);
      var s1, x := Release(s, at, order[..|order| - 1]), order[|order| - 1];
      if Unreserve(s1, ForPendingUnstake, x, s.cfg.native, QueueAt(s, at, x), s.cfg.system).Ok? {
        UnreserveBacked(s1, ForPendingUnstake, x, s.cfg.native, QueueAt(s, at, x), s.cfg.system);
      }
    }
  }

  lemma BlockCustody(s: State, order: seq<Account>)
    requires CustodyInv(s) && s.cfg.grace > 0
    ensures CustodyInv(NextBlock(s, order))
  {
    var s0 := s.(now := s.now + 1);
    ReleaseBacked(s0, s.now + 1, order);
    ReleaseFrame(s0, s.now + 1, order);
  }

  lemma StepCustody(s: State, op: Op)
    requires CustodyInv(s) && s.cfg.grace > 0
    ensures CustodyInv(Step(s, op))
  {
    hide VerifyBatch, TakeShares, Release, Backed;
    match op
    case Elsewhere(l) =>
      if KeepsReserved(s.ledger, l) {
        BackedElsewhere(s.ledger, l, s.reserves);
      }
    case Block(order) =>
      if DrainOrder(s, s.now + 1, order) {
        BlockCustody(s, order);
      }
    case Staking(x, d, v) => if StakeOn(s, x, d, v).Ok? { StakeCustody(s, x, d, v); }
    case Unstaking(x, d, v) => if UnstakeFrom(s, x, d, v).Ok? { UnstakeCustody(s, x, d, v); }
    case Claiming(x, d) => if ClaimShares(s, x, d).Ok? { ClaimCustody(s, x, d); }
    case Authorizing(u, d, t, v) => if AuthorizeTo(s, u, d, t, v).Ok? { AuthorizeCustody(s, u, d, t, v); }
    case Revoking(u, d, t, w, c) => if RevokeFrom(s, u, d, t, w, c).Ok? { RevokeCustody(s, u, d, t, w, c); }
    case Verifying(d, ps) => if Verify(s, d, ps).Ok? { BatchCustody(s, d, ps); }
    case _ =>
  }

  /** Custody solvency over whole runs. */
  lemma {:induction false} RunCustody(cfg: Config, l: Ledger, ops: seq<Op>)
    requires cfg.grace > 0
    ensures CustodyInv(Run(Genesis(cfg, l), ops))
  {
    if ops == [] {
      forall t: Token, u: Account
        ensures HeldSum(map[], t, u) <= BalanceAt(l, t, u).reserved
      {
        var none: Reserves := map[];
        SumZero(none, HeldBy(t, u));
      }
    } else {
      RunCustody(cfg, l, ops[..|ops| - 1]);
      StepCustody(Run(Genesis(cfg, l), ops[..|ops| - 1]), ops[|ops| - 1]);
    }
  }
}
