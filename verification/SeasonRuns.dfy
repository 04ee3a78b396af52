/** Season accounting over whole runs, and closed seasons staying closed. */
module SeasonRuns {
  import opened Arith
  import opened Ledgers
  import opened Wrappers
  import opened VerifierTypes
  import opened ProofChecks
  import opened VerifierState
  import opened VerifierRuns
  import opened Custody
  import opened StakeLedger
  import opened Seasons

  /** Bonuses change at most in the running season of `d`, and there only in their profit. */
  ghost predicate BooksProfit(s: State, s': State, d: Account) {
    forall e: Account, k: Season ::
      && BonusAt(s'.bonuses, e, k).staked == BonusAt(s.bonuses, e, k).staked
      && (e != d || k != SeasonOf(s, d) ==> BonusAt(s'.bonuses, e, k) == BonusAt(s.bonuses, e, k))
  }

  lemma SettleOrderBooks(s: State, d: Account, o: Order, broker: Option<Account>, ask: bool, p: Proof, x: Outside)
    requires d in s.dominators && SettleOrder(s, d, o, broker, ask, p, x).Ok?
    ensures BooksProfit(s, SettleOrder(s, d, o, broker, ask, p, x).value, d)
  {
    hide Accepts, ClearingOf, PutProfit, SplitFee;
    ClearLeavesFrame(s, d, AccountSlots(p));
    var c, s1 := ClearingOf(o, p.leaves, p.makers, ask), ClearLeaves(s, d, AccountSlots(p)).value;
    var k := CurrentSeason(s.cfg, s.now, s.dominators[d].startFrom);
    PutProfitFrame(s1, d, k, o.quote, c.quoteFee);
    SplitFeeFrame(PutProfit(s1, d, k, o.quote, c.quoteFee).value, o.base, c.baseFee, broker, x.beneficiary);
  }

  lemma ExecuteBooks(s: State, d: Account, p: Proof, x: Outside)
    requires d in s.dominators && Execute(s, d, p, x).Ok?
    ensures BooksProfit(s, Execute(s, d, p, x).value.0, d)
  {
    hide SettleOrder;
    match p.cmd
    case AskLimit(o, broker) => SettleOrderBooks(s, d, o, broker, true, p, x);
    case BidLimit(o, broker) => SettleOrderBooks(s, d, o, broker, false, p, x);
    case _ =>
  }

  lemma {:induction false} BatchBooks(s: State, d: Account, ps: seq<(Proof, Outside)>)
    requires VerifyBatch(s, d, ps).Ok?
    ensures BooksProfit(s, VerifyBatch(s, d, ps).value, d)
  {
    hide Execute;
    if ps == [] {
    } else {
      var s1 := VerifyBatch(s, d, ps[..|ps| - 1]).value;
      BatchBooks(s, d, ps[..|ps| - 1]);
      BatchFrame(s, d, ps[..|ps| - 1]);
      ExecuteBooks(s1, d, ps[|ps| - 1].0, ps[|ps| - 1].1);
    }
  }

  lemma ProofsKeepSeasons(s: State, h: History, d: Account, ps: seq<(Proof, Outside)>)
    requires SeasonInv(s, h) && VerifyBatch(s, d, ps).Ok?
    ensures SeasonInv(VerifyBatch(s, d, ps).value, h)
  {
    hide VerifyBatch, SeasonInv;
    BatchBooks(s, d, ps);
    BatchFrame(s, d, ps);
    QuietKeepsSeasons(s, h, VerifyBatch(s, d, ps).value);
  }

  lemma RegisterKeepsSeasons(s: State, h: History, d: Account, name: Name)
    requires SeasonInv(s, h) && Register(s, d, name).Ok?
    ensures SeasonInv(Register(s, d, name).value, h)
  {
    hide SnapshotsSplit, StakesStarted, ClaimsPast;
    FloorMultiple(s.now, s.cfg.grace);
    ModBelow(s.now, s.cfg.grace);
    GraceBelowDuration(s.cfg);
    SmallDiv(s.now % s.cfg.grace, s.cfg.duration);
    QuietKeepsSeasons(s, h, Register(s, d, name).value);
  }

  lemma GraceBelowDuration(cfg: Config)
    requires ConfigOk(cfg)
    ensures cfg.grace <= cfg.duration
  {
    if cfg.duration < cfg.grace {
      SmallMod(cfg.duration, cfg.grace);
    }
  }

  lemma StatusKeepsSeasons(s: State, h: History, d: Account)
    requires SeasonInv(s, h)
    ensures Evict(s, d).Ok? ==> SeasonInv(Evict(s, d).value, h)
    ensures Launch(s, d).Ok? ==> SeasonInv(Launch(s, d).value, h)
  {
    hide SeasonInv;
    if Evict(s, d).Ok? { QuietKeepsSeasons(s, h, Evict(s, d).value); }
    if Launch(s, d).Ok? { QuietKeepsSeasons(s, h, Launch(s, d).value); }
  }

  lemma StakeMoves(s: State, x: Account, d: Account, v: nat)
    requires StakeOn(s, x, d, v).Ok?
    ensures MovesOn(s, StakeOn(s, x, d, v).value, d, x) && TakesDue(s, d, x, ClaimOf(s, Staking(x, d, v)))
  {
    hide StakeOn;
    StakeEffect(s, x, d, v);
  }

  lemma UnstakeMoves(s: State, x: Account, d: Account, v: nat)
    requires UnstakeFrom(s, x, d, v).Ok?
    ensures MovesOn(s, UnstakeFrom(s, x, d, v).value, d, x) && TakesDue(s, d, x, ClaimOf(s, Unstaking(x, d, v)))
  {
    hide UnstakeFrom;
    UnstakeEffect(s, x, d, v);
  }

  lemma ClaimMoves(s: State, x: Account, d: Account)
    requires ClaimShares(s, x, d).Ok?
    ensures MovesOn(s, ClaimShares(s, x, d).value, d, x) && TakesDue(s, d, x, ClaimOf(s, Claiming(x, d)))
  {
    hide ClaimShares;
    ClaimEffect(s, x, d);
  }

  lemma TakingKeepsSeasons(s: State, h: History, op: Op)
    requires SeasonInv(s, h) && s.cfg.grace > 0 && (op.Staking? || op.Unstaking? || op.Claiming?)
    ensures SeasonInv(Step(s, op), AddClaims(h, ClaimOf(s, op)))
  {
    hide StakeOn, UnstakeFrom, ClaimShares, SeasonInv, MovesOn, TakesDue;
    var c := ClaimOf(s, op);
    match op
    case Staking(x, d, v) =>
      if StakeOn(s, x, d, v).Ok? {
        StakeMoves(s, x, d, v);
        MovingKeepsSeasons(s, h, StakeOn(s, x, d, v).value, d, x, c);
      }
    case Unstaking(x, d, v) =>
      if UnstakeFrom(s, x, d, v).Ok? {
        UnstakeMoves(s, x, d, v);
        MovingKeepsSeasons(s, h, UnstakeFrom(s, x, d, v).value, d, x, c);
      }
    case Claiming(x, d) =>
      if ClaimShares(s, x, d).Ok? {
        ClaimMoves(s, x, d);
        MovingKeepsSeasons(s, h, ClaimShares(s, x, d).value, d, x, c);
      }
  }

  lemma CustodyKeepsSeasons(
    s: State, h: History, u: Account, d: Account, t: Token, v: nat, wanted: Option<nat>, callback: bool)
    requires SeasonInv(s, h)
    ensures AuthorizeTo(s, u, d, t, v).Ok? ==> SeasonInv(AuthorizeTo(s, u, d, t, v).value, h)
    ensures RevokeFrom(s, u, d, t, wanted, callback).Ok? ==>
              SeasonInv(RevokeFrom(s, u, d, t, wanted, callback).value, h)
  {
    hide SeasonInv, AuthorizeTo, RevokeFrom;
    if AuthorizeTo(s, u, d, t, v).Ok? {
      AuthorizeEffect(s, u, d, t, v);
      QuietKeepsSeasons(s, h, AuthorizeTo(s, u, d, t, v).value);
    }
    if RevokeFrom(s, u, d, t, wanted, callback).Ok? {
      RevokeEffect(s, u, d, t, wanted, callback);
      QuietKeepsSeasons(s, h, RevokeFrom(s, u, d, t, wanted, callback).value);
    }
  }

  lemma NoClaims(s: State, h: History, op: Op)
    requires s.cfg.grace > 0
    ensures op.Staking? || op.Unstaking? || op.Claiming? || AddClaims(h, ClaimOf(s, op)) == h
  {
  }

  lemma RegistryKeepsSeasons(s: State, h: History, op: Op)
    requires SeasonInv(s, h) && s.cfg.grace > 0 && (op.Registering? || op.Evicting? || op.Launching?)
    ensures SeasonInv(Step(s, op), h)
  {
    hide SeasonInv, VerifyBatch, NextBlock, RevokeFrom, AuthorizeTo, StakeOn, UnstakeFrom, ClaimShares, Register, Evict,
         Launch;
    match op
    case Registering(d, name) => if Register(s, d, name).Ok? { RegisterKeepsSeasons(s, h, d, name); }
    case Evicting(d) => StatusKeepsSeasons(s, h, d);
    case Launching(d) => StatusKeepsSeasons(s, h, d);
  }

  lemma QuietStepKeepsSeasons(s: State, h: History, op: Op)
    requires SeasonInv(s, h) && s.cfg.grace > 0 && (op.Authorizing? || op.Revoking? || op.Elsewhere?)
    ensures SeasonInv(Step(s, op), h)
  {
    hide SeasonInv, VerifyBatch, NextBlock, RevokeFrom, AuthorizeTo, StakeOn, UnstakeFrom, ClaimShares, Register, Evict,
         Launch, KeepsReserved;
    match op
    case Authorizing(u, d, t, v) => CustodyKeepsSeasons(s, h, u, d, t, v, None, false);
    case Revoking(u, d, t, w, c) => CustodyKeepsSeasons(s, h, u, d, t, 0, w, c);
    case Elsewhere(l) => QuietKeepsSeasons(s, h, Step(s, op));
  }

  lemma HookKeepsSeasons(s: State, h: History, op: Op)
    requires SeasonInv(s, h) && StakeInv(s) && (op.Verifying? || op.Block?)
    ensures SeasonInv(Step(s, op), h)
  {
    hide SeasonInv, StakeInv, VerifyBatch, NextBlock, RevokeFrom, AuthorizeTo, StakeOn, UnstakeFrom, ClaimShares,
         Register, Evict, Launch, DrainOrder;
    StakeInvParts(s);
    match op
    case Verifying(d, ps) => if Verify(s, d, ps).Ok? { ProofsKeepSeasons(s, h, d, ps); }
    case Block(order) => if DrainOrder(s, s.now + 1, order) { BlockKeepsSeasons(s, h, order); }
  }

  lemma StepKeepsSeasons(s: State, h: History, op: Op)
    requires SeasonInv(s, h) && StakeInv(s)
    ensures SeasonInv(Step(s, op), AddClaims(h, ClaimOf(s, op)))
  {
    hide SeasonInv, StakeInv, Step, ClaimOf, AddClaims;
    StakeInvParts(s);
    NoClaims(s, h, op);
    if op.Verifying? || op.Block? {
      HookKeepsSeasons(s, h, op);
    } else if op.Registering? || op.Evicting? || op.Launching? {
      RegistryKeepsSeasons(s, h, op);
    } else if op.Staking? || op.Unstaking? || op.Claiming? {
      TakingKeepsSeasons(s, h, op);
    } else {
      QuietStepKeepsSeasons(s, h, op);
    }
  }

  /** For every closed season, claimed plus entitled stake is the snapshot, in every reachable state. */
  lemma {:induction false} RunSeasons(cfg: Config, l: Ledger, ops: seq<Op>)
    requires ConfigOk(cfg)
    ensures SeasonInv(Run(Genesis(cfg, l), ops), RunClaims(Genesis(cfg, l), ops))
  {
    hide SeasonInv, StakeInv, Step, ClaimOf;
    if ops == [] {
      GenesisSeasons(cfg, l);
    } else {
      var before := ops[..|ops| - 1];
      RunSeasons(cfg, l, before);
      RunStakes(cfg, l, before);
      StepKeepsSeasons(Run(Genesis(cfg, l), before), RunClaims(Genesis(cfg, l), before), ops[|ops| - 1]);
    }
  }

  lemma GenesisSeasons(cfg: Config, l: Ledger)
    requires ConfigOk(cfg)
    ensures SeasonInv(Genesis(cfg, l), map[])
  {
  }

  // --- closed seasons stay as they are ---

  lemma HookFreezes(s: State, order: seq<Account>, d: Account, k: Season)
    requires ConfigOk(s.cfg) && StartsAligned(s) && d in s.dominators && k < SeasonOf(s, d)
    ensures var s' := NextBlock(s, order);
            && BonusAt(s'.bonuses, d, k) == BonusAt(s.bonuses, d, k)
            && d in s'.dominators && SeasonOf(s, d) <= SeasonOf(s', d)
  {
    hide NextBlock, SeasonEnds;
    HookBonus(s, order, d, k);
    BlockEffect(s, order);
  }

  lemma TakingFreezes(s: State, op: Op)
    requires s.cfg.grace > 0 && (op.Staking? || op.Unstaking? || op.Claiming?)
    ensures var s' := Step(s, op); s'.bonuses == s.bonuses && s'.now == s.now && s'.cfg == s.cfg
    ensures Step(s, op).dominators.Keys == s.dominators.Keys
    ensures forall d | d in s.dominators :: SeasonOf(Step(s, op), d) == SeasonOf(s, d)
  {
    hide StakeOn, UnstakeFrom, ClaimShares;
    match op
    case Staking(x, d, v) => if StakeOn(s, x, d, v).Ok? { StakeEffect(s, x, d, v); }
    case Unstaking(x, d, v) => if UnstakeFrom(s, x, d, v).Ok? { UnstakeEffect(s, x, d, v); }
    case Claiming(x, d) => if ClaimShares(s, x, d).Ok? { ClaimEffect(s, x, d); }
  }

  lemma CustodyFreezes(s: State, op: Op)
    requires s.cfg.grace > 0 && (op.Authorizing? || op.Revoking?)
    ensures Step(s, op).bonuses == s.bonuses && Step(s, op).dominators == s.dominators
    ensures Step(s, op).now == s.now && Step(s, op).cfg == s.cfg && Step(s, op).stakings == s.stakings
  {
    hide AuthorizeTo, RevokeFrom;
    match op
    case Authorizing(u, d, t, v) => if AuthorizeTo(s, u, d, t, v).Ok? { AuthorizeEffect(s, u, d, t, v); }
    case Revoking(u, d, t, w, c) => if RevokeFrom(s, u, d, t, w, c).Ok? { RevokeEffect(s, u, d, t, w, c); }
  }

  lemma BatchFreezes(s: State, d: Account, ps: seq<(Proof, Outside)>, e: Account, k: Season)
    requires VerifyBatch(s, d, ps).Ok? && e in s.dominators && k < SeasonOf(s, e)
    ensures var s' := VerifyBatch(s, d, ps).value;
            && BonusAt(s'.bonuses, e, k) == BonusAt(s.bonuses, e, k)
            && e in s'.dominators && SeasonOf(s', e) == SeasonOf(s, e)
  {
    hide VerifyBatch;
    BatchBooks(s, d, ps);
    BatchFrame(s, d, ps);
  }

  lemma RegistryFreezes(s: State, op: Op, d: Account, k: Season)
    requires d in s.dominators && s.cfg.grace > 0
    requires op.Registering? || op.Evicting? || op.Launching?
    ensures var s' := Step(s, op);
            && BonusAt(s'.bonuses, d, k) == BonusAt(s.bonuses, d, k)
            && d in s'.dominators && SeasonOf(s, d) == SeasonOf(s', d)
  {
    hide CurrentSeason, BonusAt;
  }

  /** No step changes the bonus of a closed season or reopens one. */
  lemma StepFreezes(s: State, h: History, op: Op, d: Account, k: Season)
    requires SeasonInv(s, h) && d in s.dominators && k < SeasonOf(s, d)
    ensures var s' := Step(s, op);
            && BonusAt(s'.bonuses, d, k) == BonusAt(s.bonuses, d, k)
            && d in s'.dominators && SeasonOf(s, d) <= SeasonOf(s', d)
  {
    hide VerifyBatch, NextBlock, RevokeFrom, AuthorizeTo, StakeOn, UnstakeFrom, ClaimShares, CurrentSeason,
         SnapshotsSplit, StakesStarted, ClaimsPast, DrainOrder, Register, Evict, Launch;
    match op
    case Verifying(e, ps) => if Verify(s, e, ps).Ok? { BatchFreezes(s, e, ps, d, k); }
    case Block(order) => if DrainOrder(s, s.now + 1, order) { HookFreezes(s, order, d, k); }
    case Authorizing(_, _, _, _) => CustodyFreezes(s, op);
    case Revoking(_, _, _, _, _) => CustodyFreezes(s, op);
    case Staking(_, _, _) => TakingFreezes(s, op);
    case Unstaking(_, _, _) => TakingFreezes(s, op);
    case Claiming(_, _) => TakingFreezes(s, op);
    case Registering(_, _) => RegistryFreezes(s, op, d, k);
    case Evicting(_) => RegistryFreezes(s, op, d, k);
    case Launching(_) => RegistryFreezes(s, op, d, k);
    case Elsewhere(_) =>
  }
}
