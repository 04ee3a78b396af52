/** Runs of the verifier pallet: any sequence of calls, block hooks and outside balance changes. */
module VerifierRuns {
  import opened Arith
  import opened Ledgers
  import opened Wrappers
  import opened VerifierTypes
  import opened ProofChecks
  import opened VerifierState

  datatype Op =
    | Registering(d: Account, name: Name)
    | Evicting(d: Account)
    | Launching(d: Account)
    | Staking(x: Account, d: Account, v: nat)
    | Unstaking(x: Account, d: Account, v: nat)
    | Claiming(x: Account, d: Account)
    | Authorizing(u: Account, d: Account, t: Token, v: nat)
    | Revoking(u: Account, d: Account, t: Token, wanted: Option<nat>, callback: bool)
    | Verifying(d: Account, proofs: seq<(Proof, Outside)>)
    | Elsewhere(ledger: Ledger)
    | Block(order: seq<Account>)

  /** Balance changes made by other pallets never lower a reserved balance. */
  ghost predicate KeepsReserved(l: Ledger, l': Ledger) {
    forall t: Token, a: Account :: BalanceAt(l, t, a).reserved <= BalanceAt(l', t, a).reserved
  }

  /** A dispatchable call. */
  function Call(s: State, op: Op): Attempt<State>
    requires !op.Elsewhere? && !op.Block?
  {
    match op
    case Registering(d, name) => Register(s, d, name)
    case Evicting(d) => Evict(s, d)
    case Launching(d) => Launch(s, d)
    case Staking(x, d, v) => StakeOn(s, x, d, v)
    case Unstaking(x, d, v) => UnstakeFrom(s, x, d, v)
    case Claiming(x, d) => ClaimShares(s, x, d)
    case Authorizing(u, d, t, v) => AuthorizeTo(s, u, d, t, v)
    case Revoking(u, d, t, wanted, callback) => RevokeFrom(s, u, d, t, wanted, callback)
    case Verifying(d, ps) => Verify(s, d, ps)
  }

  /** One step; a call that fails leaves the state as it was. */
  ghost function Step(s: State, op: Op): State
    requires s.cfg.grace > 0
  {
    match op
    case Elsewhere(l) => if KeepsReserved(s.ledger, l) then s.(ledger := l) else s
    case Block(order) => if DrainOrder(s, s.now + 1, order) then NextBlock(s, order) else s
    case _ => if Call(s, op).Ok? then Call(s, op).value else s
  }

  lemma StepKeepsConfig(s: State, op: Op)
    requires s.cfg.grace > 0
    ensures Step(s, op).cfg == s.cfg
  {
    hide VerifyBatch, Release, StakeOn, UnstakeFrom, ClaimShares, AuthorizeTo, RevokeFrom;
    match op
    case Block(order) =>
      if DrainOrder(s, s.now + 1, order) {
        ReleaseFrame(s.(now := s.now + 1), s.now + 1, order);
      }
    case Verifying(d, ps) =>
      if Call(s, op).Ok? {
        BatchKeepsConfig(s, d, ps);
      }
    case Staking(x, d, v) => if Call(s, op).Ok? { StakeEffect(s, x, d, v); }
    case Unstaking(x, d, v) => if Call(s, op).Ok? { UnstakeEffect(s, x, d, v); }
    case Claiming(x, d) => if Call(s, op).Ok? { ClaimEffect(s, x, d); }
    case Authorizing(u, d, t, v) => if Call(s, op).Ok? { AuthorizeEffect(s, u, d, t, v); }
    case Revoking(u, d, t, w, c) => if Call(s, op).Ok? { RevokeEffect(s, u, d, t, w, c); }
    case _ =>
  }

  ghost function Run(s: State, ops: seq<Op>): (s': State)
    requires s.cfg.grace > 0
    ensures s'.cfg == s.cfg
  {
    if ops == [] then s
    else
      var s1 := Run(s, ops[..|ops| - 1]);
      StepKeepsConfig(s1, ops[|ops| - 1]);
      Step(s1, ops[|ops| - 1])
  }

  /** Before any call: balances only. */
  function Genesis(cfg: Config, l: Ledger): State {
    State(cfg, 0, l, map[], map[], map[], map[], map[], map[])
  }

  // --- what proofs and the hook leave alone ---

  /** Everything an accepted proof keeps. */
  ghost predicate ProofFrame(s: State, s': State, d: Account) {
    && s'.cfg == s.cfg && s'.now == s.now && s'.stakings == s.stakings && s'.pending == s.pending
    && s'.dominators.Keys == s.dominators.Keys
    && (forall e | e in s.dominators ::
          && s'.dominators[e].staked == s.dominators[e].staked
          && s'.dominators[e].startFrom == s.dominators[e].startFrom
          && s'.dominators[e].status == s.dominators[e].status
          && s'.dominators[e].name == s.dominators[e].name
          && (e != d ==> s'.dominators[e] == s.dominators[e]))
    && (forall k: RKey | k.to != d || k.bucket == ForStaking || k.bucket == ForPendingUnstake ::
          ReserveAt(s'.reserves, k) == ReserveAt(s.reserves, k))
  }

  lemma {:induction false} ClearLeavesFrame(s: State, d: Account, ls: seq<Leaf>)
    requires ClearLeaves(s, d, ls).Ok?
    ensures var s' := ClearLeaves(s, d, ls).value;
            && ProofFrame(s, s', d) && s'.dominators == s.dominators
            && s'.bonuses == s.bonuses && s'.receipts == s.receipts
  {
    if ls == [] {
    } else {
      ClearLeavesFrame(s, d, ls[..|ls| - 1]);
    }
  }

  lemma BonusElsewhere(b: map<(Account, Season), Bonus>, d: Account, k: Season, v: Bonus, e: Account, j: Season)
    requires e != d || j != k
    ensures BonusAt(b[(d, k) := v], e, j) == BonusAt(b, e, j)
  {
  }

  lemma PutProfitFrame(s: State, d: Account, k: Season, t: Token, v: nat)
    requires PutProfit(s, d, k, t, v).Ok?
    ensures var s' := PutProfit(s, d, k, t, v).value; s' == s.(bonuses := s'.bonuses)
    ensures forall e: Account, j: Season | e != d || j != k ::
              BonusAt(PutProfit(s, d, k, t, v).value.bonuses, e, j) == BonusAt(s.bonuses, e, j)
    ensures BonusAt(PutProfit(s, d, k, t, v).value.bonuses, d, k).staked == BonusAt(s.bonuses, d, k).staked
  {
    var s' := PutProfit(s, d, k, t, v).value;
    forall e: Account, j: Season | e != d || j != k
      ensures BonusAt(s'.bonuses, e, j) == BonusAt(s.bonuses, e, j)
    {
      if v > 0 {
        BonusElsewhere(s.bonuses, d, k, s'.bonuses[(d, k)], e, j);
      }
    }
  }

  lemma SplitFeeFrame(s: State, base: Token, fee: nat, broker: Option<Account>, beneficiary: Account)
    requires SplitFee(s, base, fee, broker, beneficiary).Ok?
    ensures var s' := SplitFee(s, base, fee, broker, beneficiary).value; s' == s.(ledger := s'.ledger)
  {
    hide MulCeil;
  }

  lemma SettleOrderFrame(s: State, d: Account, o: Order, broker: Option<Account>, ask: bool, p: Proof, x: Outside)
    requires d in s.dominators && SettleOrder(s, d, o, broker, ask, p, x).Ok?
    ensures var s' := SettleOrder(s, d, o, broker, ask, p, x).value;
            ProofFrame(s, s', d) && s'.dominators == s.dominators && s'.receipts == s.receipts
  {
    hide Accepts, ClearingOf, PutProfit, SplitFee;
    ClearLeavesFrame(s, d, AccountSlots(p));
    var c, s1 := ClearingOf(o, p.leaves, p.makers, ask), ClearLeaves(s, d, AccountSlots(p)).value;
    var k := CurrentSeason(s.cfg, s.now, s.dominators[d].startFrom);
    PutProfitFrame(s1, d, k, o.quote, c.quoteFee);
    SplitFeeFrame(PutProfit(s1, d, k, o.quote, c.quoteFee).value, o.base, c.baseFee, broker, x.beneficiary);
  }

  lemma TransferFrame(s: State, d: Account, p: Proof, x: Outside)
    requires d in s.dominators && Execute(s, d, p, x).Ok? && !p.cmd.AskLimit? && !p.cmd.BidLimit?
    ensures var s' := Execute(s, d, p, x).value.0;
            && s' == s.(ledger := s'.ledger, reserves := s'.reserves, receipts := s'.receipts)
            && (forall k: RKey | k.to != d || k.bucket == ForStaking || k.bucket == ForPendingUnstake ::
                  ReserveAt(s'.reserves, k) == ReserveAt(s.reserves, k))
  {
    hide SettleOrder, Unreserve, CancelOk;
    match p.cmd
    case TransferOut(t, v) => UnreserveEffect(s, ForAuthorizing, p.user, t, v, d);
    case _ =>
  }

  lemma ExecuteFrame(s: State, d: Account, p: Proof, x: Outside)
    requires d in s.dominators && Execute(s, d, p, x).Ok?
    ensures var s' := Execute(s, d, p, x).value.0; ProofFrame(s, s', d) && s'.dominators == s.dominators
  {
    if p.cmd.AskLimit? {
      SettleOrderFrame(s, d, p.cmd.order, p.cmd.broker, true, p, x);
    } else if p.cmd.BidLimit? {
      SettleOrderFrame(s, d, p.cmd.order, p.cmd.broker, false, p, x);
    } else {
      hide Execute;
      TransferFrame(s, d, p, x);
    }
  }

  lemma VerifyFrame(s: State, d: Account, p: Proof, x: Outside)
    requires d in s.dominators && VerifyAndUpdate(s, d, p, x).Ok?
    ensures ProofFrame(s, VerifyAndUpdate(s, d, p, x).value, d)
  {
    ExecuteFrame(s, d, p, x);
  }

  lemma {:induction false} BatchFrame(s: State, d: Account, ps: seq<(Proof, Outside)>)
    requires VerifyBatch(s, d, ps).Ok?
    ensures ProofFrame(s, VerifyBatch(s, d, ps).value, d)
  {
    if ps == [] {
    } else {
      BatchFrame(s, d, ps[..|ps| - 1]);
      VerifyFrame(VerifyBatch(s, d, ps[..|ps| - 1]).value, d, ps[|ps| - 1].0, ps[|ps| - 1].1);
    }
  }

  lemma BatchKeepsConfig(s: State, d: Account, ps: seq<(Proof, Outside)>)
    requires VerifyBatch(s, d, ps).Ok?
    ensures VerifyBatch(s, d, ps).value.cfg == s.cfg
  {
    BatchFrame(s, d, ps);
  }

  /** The hook's queue release touches pending-unstake reserves and the ledger only. */
  lemma {:induction false} ReleaseFrame(s: State, at: Block, order: seq<Account>)
    ensures var s' := Release(s, at, order);
            && s' == s.(ledger := s'.ledger, reserves := s'.reserves)
            && (forall k: RKey | k.bucket != ForPendingUnstake :: ReserveAt(s'.reserves, k) == ReserveAt(s.reserves, k))
  {
    if order == [] {
    } else {
      ReleaseFrame(s, at, order[..|order| - 1]);
    }
  }

  // --- what the staking and custody calls write ---

  function StakingAt(s: State, d: Account, x: Account): Stake {
    if (d, x) in s.stakings then s.stakings[(d, x)] else Stake(0, 0)
  }

  function SeasonOf(s: State, d: Account): Season {
    if d in s.dominators then CurrentSeason(s.cfg, s.now, s.dominators[d].startFrom) else 0
  }

  /** The moves inside an accepted stake. */
  lemma StakeParts(s: State, x: Account, d: Account, v: nat)
    requires StakeOn(s, x, d, v).Ok?
    ensures d in s.dominators && (s.dominators[d].status == Active || s.dominators[d].status == Inactive)
    ensures v >= s.cfg.minimalStake && Reserve(s, ForStaking, x, s.cfg.native, v, d).Ok?
    ensures var s1, was := Reserve(s, ForStaking, x, s.cfg.native, v, d).value, StakingAt(s, d, x);
            var s2 := if was.amount == 0 then Ok(s1)
                      else TakeShares(s1, x, d, was.fromSeason, SeasonOf(s, d), was.amount);
            && s2.Ok?
            && StakeOn(s, x, d, v).value
               == s2.value.(stakings := s.stakings[(d, x) := Stake(SeasonOf(s, d), was.amount + v)],
                            dominators := s.dominators[d := s.dominators[d].(
                              staked := s.dominators[d].staked + v,
                              status := StatusFor(s.cfg, s.dominators[d].staked + v))])
  {
    hide Reserve, TakeShares, StatusFor;
  }

  lemma StakeEffect(s: State, x: Account, d: Account, v: nat)
    requires StakeOn(s, x, d, v).Ok?
    ensures d in s.dominators && (s.dominators[d].status == Active || s.dominators[d].status == Inactive)
    ensures v >= s.cfg.minimalStake
    ensures var s', dom := StakeOn(s, x, d, v).value, s.dominators[d];
            && s' == s.(ledger := s'.ledger, reserves := s'.reserves,
                        stakings := s.stakings[(d, x) := Stake(SeasonOf(s, d), StakingAt(s, d, x).amount + v)],
                        dominators := s.dominators[d :=
                          dom.(staked := dom.staked + v, status := StatusFor(s.cfg, dom.staked + v))])
            && (forall k: RKey :: ReserveAt(s'.reserves, k)
                  == ReserveAt(s.reserves, k) + if k == RKey(ForStaking, x, s.cfg.native, d) then v else 0)
  {
    hide StakeOn, Reserve, TakeShares, StatusFor, ReserveAt, CurrentSeason;
    StakeParts(s, x, d, v);
    ReserveEffect(s, ForStaking, x, s.cfg.native, v, d);
    var s1, was := Reserve(s, ForStaking, x, s.cfg.native, v, d).value, StakingAt(s, d, x);
    if was.amount != 0 {
      TakeSharesEffect(s1, x, d, was.fromSeason, SeasonOf(s, d), was.amount);
    }
  }

  lemma ReserveEffect(s: State, b: Bucket, u: Account, t: Token, v: nat, recipient: Account)
    requires Reserve(s, b, u, t, v, recipient).Ok?
    ensures var s' := Reserve(s, b, u, t, v, recipient).value;
            && s' == s.(ledger := s'.ledger, reserves := s'.reserves)
            && (forall k: RKey :: ReserveAt(s'.reserves, k)
                  == ReserveAt(s.reserves, k) + if k == RKey(b, u, t, recipient) then v else 0)
  {
  }

  /** What a reservation does to the balances. */
  lemma ReserveBalance(s: State, b: Bucket, u: Account, t: Token, v: nat, recipient: Account, c: Token, a: Account)
    requires Reserve(s, b, u, t, v, recipient).Ok?
    ensures var was, moved := BalanceAt(s.ledger, c, a), if c == t && a == u then v else 0;
            && moved <= was.free
            && BalanceAt(Reserve(s, b, u, t, v, recipient).value.ledger, c, a)
               == Balance(was.free - moved, was.reserved + moved)
  {
    assert (c, a) == (t, u) || c != t || a != u;
  }

  lemma UnreserveEffect(s: State, b: Bucket, u: Account, t: Token, v: nat, from: Account)
    requires Unreserve(s, b, u, t, v, from).Ok?
    ensures v <= Held(s, b, u, t, from)
    ensures var s' := Unreserve(s, b, u, t, v, from).value;
            && s' == s.(ledger := s'.ledger, reserves := s'.reserves)
            && (forall k: RKey :: ReserveAt(s'.reserves, k)
                  == ReserveAt(s.reserves, k) - if k == RKey(b, u, t, from) then v else 0)
  {
  }

  lemma TakeSharesEffect(s: State, x: Account, d: Account, from: Season, until: Season, stake: nat)
    requires TakeShares(s, x, d, from, until, stake).Ok?
    ensures var s' := TakeShares(s, x, d, from, until, stake).value; s' == s.(ledger := s'.ledger)
  {
    hide Shares, CreditAll, Creditable;
  }

  /** The moves inside an accepted unstake. */
  lemma UnstakeParts(s: State, x: Account, d: Account, v: nat)
    requires UnstakeFrom(s, x, d, v).Ok?
    ensures d in s.dominators && s.dominators[d].status != Registered && (d, x) in s.stakings && s.cfg.grace > 0
    ensures v <= s.dominators[d].staked && v <= s.stakings[(d, x)].amount
    ensures s.stakings[(d, x)].amount == v || s.stakings[(d, x)].amount - v >= s.cfg.minimalStake
    ensures Unreserve(s, ForStaking, x, s.cfg.native, v, d).Ok?
    ensures var s1 := Unreserve(s, ForStaking, x, s.cfg.native, v, d).value;
            Reserve(s1, ForPendingUnstake, x, s.cfg.native, v, s.cfg.system).Ok?
    ensures var s1 := Unreserve(s, ForStaking, x, s.cfg.native, v, d).value;
            var s2 := Reserve(s1, ForPendingUnstake, x, s.cfg.native, v, s.cfg.system).value;
            var dom, was, at := s.dominators[d], s.stakings[(d, x)], UnlockAt(s.cfg, s.now);
            var s3 := TakeShares(s2, x, d, was.fromSeason, SeasonOf(s, d), was.amount);
            && s3.Ok?
            && UnstakeFrom(s, x, d, v).value
               == s3.value.(pending := s.pending[(at, x) := QueueAt(s, at, x) + v],
                            stakings := if was.amount == v then s.stakings - {(d, x)}
                                        else s.stakings[(d, x) := Stake(SeasonOf(s, d), was.amount - v)],
                            dominators := s.dominators[d := dom.(staked := dom.staked - v,
                              status := if dom.status == Evicted then Evicted else StatusFor(s.cfg, dom.staked - v))])
  {
    hide Unreserve, Reserve, TakeShares, UnlockAt, StatusFor;
  }

  lemma UnstakeEffect(s: State, x: Account, d: Account, v: nat)
    requires UnstakeFrom(s, x, d, v).Ok?
    ensures d in s.dominators && s.dominators[d].status != Registered && (d, x) in s.stakings && s.cfg.grace > 0
    ensures v <= s.dominators[d].staked && v <= s.stakings[(d, x)].amount
    ensures s.stakings[(d, x)].amount == v || s.stakings[(d, x)].amount - v >= s.cfg.minimalStake
    ensures v <= Held(s, ForStaking, x, s.cfg.native, d)
    ensures var s', dom := UnstakeFrom(s, x, d, v).value, s.dominators[d];
            var left, at := s.stakings[(d, x)].amount - v, UnlockAt(s.cfg, s.now);
            && s' == s.(ledger := s'.ledger, reserves := s'.reserves,
                        pending := s.pending[(at, x) := QueueAt(s, at, x) + v],
                        stakings := if left == 0 then s.stakings - {(d, x)}
                                    else s.stakings[(d, x) := Stake(SeasonOf(s, d), left)],
                        dominators := s.dominators[d := dom.(staked := dom.staked - v,
                          status := if dom.status == Evicted then Evicted else StatusFor(s.cfg, dom.staked - v))])
            && (forall k: RKey :: ReserveAt(s'.reserves, k)
                  == ReserveAt(s.reserves, k)
                     - (if k == RKey(ForStaking, x, s.cfg.native, d) then v else 0)
                     + (if k == RKey(ForPendingUnstake, x, s.cfg.native, s.cfg.system) then v else 0))
  {
    hide UnstakeFrom, Unreserve, Reserve, TakeShares, UnlockAt, StatusFor, ReserveAt;
    UnstakeParts(s, x, d, v);
    UnreserveEffect(s, ForStaking, x, s.cfg.native, v, d);
    var s1 := Unreserve(s, ForStaking, x, s.cfg.native, v, d).value;
    ReserveEffect(s1, ForPendingUnstake, x, s.cfg.native, v, s.cfg.system);
    var s2 := Reserve(s1, ForPendingUnstake, x, s.cfg.native, v, s.cfg.system).value;
    var was := s.stakings[(d, x)];
    TakeSharesEffect(s2, x, d, was.fromSeason, SeasonOf(s, d), was.amount);
  }

  lemma ClaimEffect(s: State, x: Account, d: Account)
    requires ClaimShares(s, x, d).Ok?
    ensures d in s.dominators && s.dominators[d].status != Registered && (d, x) in s.stakings
    ensures var s' := ClaimShares(s, x, d).value;
            s' == s.(ledger := s'.ledger,
                     stakings := s.stakings[(d, x) := Stake(SeasonOf(s, d), s.stakings[(d, x)].amount)])
  {
    hide Shares, CreditAll;
  }

  lemma AuthorizeEffect(s: State, u: Account, d: Account, t: Token, v: nat)
    requires AuthorizeTo(s, u, d, t, v).Ok?
    ensures var s' := AuthorizeTo(s, u, d, t, v).value;
            && s' == s.(ledger := s'.ledger, reserves := s'.reserves, receipts := s'.receipts)
            && (forall k: RKey :: ReserveAt(s'.reserves, k)
                  == ReserveAt(s.reserves, k) + if k == RKey(ForStash, u, t, d) then v else 0)
  {
  }

  lemma RevokeEffect(s: State, u: Account, d: Account, t: Token, wanted: Option<nat>, callback: bool)
    requires RevokeFrom(s, u, d, t, wanted, callback).Ok?
    ensures var s' := RevokeFrom(s, u, d, t, wanted, callback).value;
            && s' == s.(ledger := s'.ledger, reserves := s'.reserves, receipts := s'.receipts)
            && (forall k: RKey | k.bucket == ForStaking || k.bucket == ForPendingUnstake ::
                  ReserveAt(s'.reserves, k) == ReserveAt(s.reserves, k))
  {
  }

  lemma BlockEffect(s: State, order: seq<Account>)
    requires s.cfg.grace > 0
    ensures var s' := NextBlock(s, order);
            && s' == s.(now := s.now + 1, ledger := s'.ledger, reserves := s'.reserves,
                        bonuses := s'.bonuses, pending := s'.pending)
            && (forall k: RKey | k.bucket != ForPendingUnstake :: ReserveAt(s'.reserves, k) == ReserveAt(s.reserves, k))
  {
    ReleaseFrame(s.(now := s.now + 1), s.now + 1, order);
  }
}
