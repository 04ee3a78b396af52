/** What claims pay: bounded by recorded profit, independent of when they are made, and predicted by the query. */
module Payouts {
  import opened Arith
  import opened Sums
  import opened Ledgers
  import opened Wrappers
  import opened VerifierTypes
  import opened VerifierState
  import opened VerifierRuns
  import opened Custody
  import opened StakeLedger
  import opened Seasons
  import opened SeasonRuns

  type Bonuses = map<(Account, Season), Bonus>

  function Get(m: map<Token, nat>, t: Token): nat {
    if t in m then m[t] else 0
  }

  /** What the seasons `from..to` pay to `stake` in token `t`. */
  function Due(b: Bonuses, d: Account, from: Season, until: Season, stake: nat, t: Token): nat {
    Get(Shares(b, d, from, until, stake), t)
  }

  lemma DueStep(b: Bonuses, d: Account, from: Season, until: Season, stake: nat, t: Token)
    requires from < until
    ensures Due(b, d, from, until, stake, t)
            == Due(b, d, from, until - 1, stake, t) + Share(stake, BonusAt(b, d, until - 1), t)
  {
    hide MulNearest, FromRational;
  }

  /** Claims over adjacent ranges add up to one claim over the whole range. */
  lemma {:induction false} DueSplit(
    b: Bonuses, d: Account, from: Season, mid: Season, until: Season, stake: nat, t: Token)
    requires from <= mid <= until
    ensures Due(b, d, from, mid, stake, t) + Due(b, d, mid, until, stake, t) == Due(b, d, from, until, stake, t)
    decreases until
  {
    hide Share, AddShares;
    if until == mid {
    } else {
      DueSplit(b, d, from, mid, until - 1, stake, t);
      DueStep(b, d, from, until, stake, t);
      DueStep(b, d, mid, until, stake, t);
    }
  }

  lemma {:induction false} SharesSame(b: Bonuses, b': Bonuses, d: Account, from: Season, until: Season, stake: nat)
    requires forall k | from <= k < until :: BonusAt(b, d, k) == BonusAt(b', d, k)
    ensures Shares(b, d, from, until, stake) == Shares(b', d, from, until, stake)
    decreases until
  {
    if until <= from {
    } else {
      SharesSame(b, b', d, from, until - 1, stake);
    }
  }

  // --- payments reach the ledger ---

  lemma TakingPays(s: State, x: Account, d: Account, from: Season, until: Season, stake: nat, t: Token, a: Account)
    requires TakeShares(s, x, d, from, until, stake).Ok?
    ensures BalanceAt(TakeShares(s, x, d, from, until, stake).value.ledger, t, a)
            == Balance(BalanceAt(s.ledger, t, a).free
                       + (if a == x then Due(s.bonuses, d, from, until, stake, t) else 0),
                       BalanceAt(s.ledger, t, a).reserved)
  {
    CreditAllKeepsReserved(s.ledger, x, Shares(s.bonuses, d, from, until, stake));
  }

  /** A claim credits, in every token, exactly what is due, and nothing to anybody else. */
  lemma ClaimPays(s: State, x: Account, d: Account, t: Token, a: Account)
    requires ClaimShares(s, x, d).Ok?
    ensures var c := ClaimOf(s, Claiming(x, d));
            BalanceAt(ClaimShares(s, x, d).value.ledger, t, a)
            == Balance(BalanceAt(s.ledger, t, a).free
                       + (if a == x then Due(s.bonuses, d, c.from, c.to, c.stake, t) else 0),
                       BalanceAt(s.ledger, t, a).reserved)
  {
    hide TakeShares, Shares;
    var c := ClaimFor(s, d, x);
    TakingPays(s, x, d, c.from, c.to, c.stake, t, a);
  }

  /** Unstaking moves the amount between reserves, so the free balance changes by what is due only. */
  lemma UnstakePays(s: State, x: Account, d: Account, v: nat, t: Token, a: Account)
    requires UnstakeFrom(s, x, d, v).Ok?
    ensures var c := ClaimOf(s, Unstaking(x, d, v));
            BalanceAt(UnstakeFrom(s, x, d, v).value.ledger, t, a)
            == Balance(BalanceAt(s.ledger, t, a).free
                       + (if a == x then Due(s.bonuses, d, c.from, c.to, c.stake, t) else 0),
                       BalanceAt(s.ledger, t, a).reserved)
  {
    hide TakeShares, Shares;
    var c := ClaimFor(s, d, x);
    var s1 := Unreserve(s, ForStaking, x, s.cfg.native, v, d).value;
    var s2 := Reserve(s1, ForPendingUnstake, x, s.cfg.native, v, s.cfg.system).value;
    TakingPays(s2, x, d, c.from, c.to, c.stake, t, a);
  }

  /** Staking more costs the amount staked and pays what is due. */
  lemma StakePays(s: State, x: Account, d: Account, v: nat, t: Token, a: Account)
    requires StakeOn(s, x, d, v).Ok?
    ensures var c := ClaimOf(s, Staking(x, d, v));
            var moved := if a == x && t == s.cfg.native then v else 0;
            && BalanceAt(StakeOn(s, x, d, v).value.ledger, t, a).free + moved
               == BalanceAt(s.ledger, t, a).free + (if a == x then Due(s.bonuses, c.d, c.from, c.to, c.stake, t) else 0)
            && BalanceAt(StakeOn(s, x, d, v).value.ledger, t, a).reserved == BalanceAt(s.ledger, t, a).reserved + moved
  {
    hide TakeShares, AddShares, StakeOn, StatusFor, CurrentSeason, Reserve, BalanceAt, Due;
    StakeParts(s, x, d, v);
    ReserveBalance(s, ForStaking, x, s.cfg.native, v, d, t, a);
    var was, s1 := StakingAt(s, d, x), Reserve(s, ForStaking, x, s.cfg.native, v, d).value;
    ReserveEffect(s, ForStaking, x, s.cfg.native, v, d);
    NothingDueYet(s.bonuses, t);
    if was.amount != 0 {
      TakingPays(s1, x, d, was.fromSeason, SeasonOf(s, d), was.amount, t, a);
    }
  }

  lemma NothingDueYet(b: Bonuses, t: Token)
    ensures Due(b, 0, 0, 0, 0, t) == 0
  {
  }

  // --- payouts against profit ---

  /** All payments by dominator `d` in token `t` along a run. */
  ghost function RunPaid(s: State, ops: seq<Op>, d: Account, t: Token): nat
    requires s.cfg.grace > 0
  {
    if ops == [] then 0
    else
      var before := ops[..|ops| - 1];
      var s1 := Run(s, before);
      RunPaid(s, before, d, t) + PaidBy(s1, ops[|ops| - 1], d, t)
  }

  function PaidBy(s: State, op: Op, d: Account, t: Token): nat {
    var c := ClaimOf(s, op);
    if c.d == d then Due(s.bonuses, d, c.from, c.to, c.stake, t) else 0
  }

  function PayWeight(b: Bonuses, d: Account, t: Token, key: ClaimKey, v: nat): nat {
    if key.d == d then Share(v, BonusAt(b, d, key.k), t) else 0
  }

  function PayOn(b: Bonuses, d: Account, t: Token): (ClaimKey, nat) -> nat {
    (key: ClaimKey, v: nat) => PayWeight(b, d, t, key, v)
  }

  lemma {:induction false} AddClaimsPaid(h: History, c: Claim, b: Bonuses, d: Account, t: Token)
    requires forall j | c.from <= j < c.to :: ClaimKey(c.d, j, c.x) !in h
    ensures Sum(AddClaims(h, c), PayOn(b, d, t))
            == Sum(h, PayOn(b, d, t)) + if c.d == d then Due(b, d, c.from, c.to, c.stake, t) else 0
    decreases c.to
  {
    hide Share;
    if c.to <= c.from {
    } else {
      var c', key := c.(to := c.to - 1), ClaimKey(c.d, c.to - 1, c.x);
      AddClaimsPaid(h, c', b, d, t);
      AddClaimsKeys(h, c', key);
      SumPut(AddClaims(h, c'), key, c.stake, PayOn(b, d, t));
      DueStep(b, c.d, c.from, c.to, c.stake, t);
    }
  }

  lemma ClaimsOfStepFresh(s: State, h: History, op: Op)
    requires SeasonInv(s, h)
    ensures var c := ClaimOf(s, op); forall j | c.from <= j < c.to :: ClaimKey(c.d, j, c.x) !in h
  {
    hide StakeOn, UnstakeFrom, ClaimShares, SnapshotsSplit, StakesStarted, MovesOn;
    match op
    case Staking(x, d, v) =>
      if StakeOn(s, x, d, v).Ok? { StakeMoves(s, x, d, v); ClaimsFresh(s, h, d, x, ClaimOf(s, op)); }
    case Unstaking(x, d, v) =>
      if UnstakeFrom(s, x, d, v).Ok? { UnstakeMoves(s, x, d, v); ClaimsFresh(s, h, d, x, ClaimOf(s, op)); }
    case Claiming(x, d) =>
      if ClaimShares(s, x, d).Ok? { ClaimMoves(s, x, d); ClaimsFresh(s, h, d, x, ClaimOf(s, op)); }
    case _ =>
  }

  /** Closed seasons do not change, so neither does what past claims were worth. */
  lemma StepKeepsPaid(s: State, h: History, op: Op, d: Account, t: Token)
    requires SeasonInv(s, h)
    ensures Sum(h, PayOn(Step(s, op).bonuses, d, t)) == Sum(h, PayOn(s.bonuses, d, t))
  {
    hide Step, Share, SnapshotsSplit, StakesStarted;
    var s' := Step(s, op);
    forall key | key in h ensures PayOn(s'.bonuses, d, t)(key, h[key]) == PayOn(s.bonuses, d, t)(key, h[key]) {
      if key.d == d {
        StepFreezes(s, h, op, d, key.k);
      }
    }
    SumCong(h, PayOn(s'.bonuses, d, t), PayOn(s.bonuses, d, t));
  }

  lemma StepPaid(s: State, h: History, op: Op, d: Account, t: Token)
    requires SeasonInv(s, h)
    ensures Sum(AddClaims(h, ClaimOf(s, op)), PayOn(Step(s, op).bonuses, d, t))
            == Sum(h, PayOn(s.bonuses, d, t)) + PaidBy(s, op, d, t)
  {
    hide Step, Share, ClaimOf, SnapshotsSplit, StakesStarted, ClaimsPast;
    var c, s' := ClaimOf(s, op), Step(s, op);
    ClaimsOfStepFresh(s, h, op);
    StepKeepsPaid(s, h, op, d, t);
    AddClaimsPaid(h, c, s'.bonuses, d, t);
    PaidInSameSeasons(s, op, d, t);
  }

  lemma PaidInSameSeasons(s: State, op: Op, d: Account, t: Token)
    requires s.cfg.grace > 0
    ensures var c := ClaimOf(s, op);
            Due(Step(s, op).bonuses, d, c.from, c.to, c.stake, t) == Due(s.bonuses, d, c.from, c.to, c.stake, t)
  {
    hide StakeOn, UnstakeFrom, ClaimShares, Verify, NextBlock, RevokeFrom, AuthorizeTo;
    if op.Staking? || op.Unstaking? || op.Claiming? {
      TakingFreezes(s, op);
    }
  }

  /** Everything a run paid is the worth of the claims it made. */
  lemma {:induction false} PaidIsClaimed(cfg: Config, l: Ledger, ops: seq<Op>, d: Account, t: Token)
    requires ConfigOk(cfg)
    ensures var s0 := Genesis(cfg, l);
            RunPaid(s0, ops, d, t) == Sum(RunClaims(s0, ops), PayOn(Run(s0, ops).bonuses, d, t))
  {
    hide Step, SeasonInv, ClaimOf, PaidBy;
    if ops == [] {
      var none: History := map[];
      SumZero(none, PayOn(Run(Genesis(cfg, l), ops).bonuses, d, t));
    } else {
      var before := ops[..|ops| - 1];
      PaidIsClaimed(cfg, l, before, d, t);
      RunSeasons(cfg, l, before);
      StepPaid(Run(Genesis(cfg, l), before), RunClaims(Genesis(cfg, l), before), ops[|ops| - 1], d, t);
    }
  }

  // --- the bound ---

  /** The claims made on one season. */
  function SeasonClaims(h: History, d: Account, k: Season): History {
    map c | c in h && c.d == d && c.k == k :: h[c]
  }

  function ShareOf(b: Bonus, t: Token): (ClaimKey, nat) -> nat {
    (c: ClaimKey, v: nat) => Share(v, b, t)
  }

  function Amount(): (ClaimKey, nat) -> nat {
    (c: ClaimKey, v: nat) => v
  }

  function RatioOf(staked: nat): (ClaimKey, nat) -> nat
    requires staked > 0
  {
    (c: ClaimKey, v: nat) => FromRational(v, staked)
  }

  lemma ClaimedAmounts(h: History, d: Account, k: Season)
    ensures Sum(SeasonClaims(h, d, k), Amount()) == ClaimedSum(h, d, k)
  {
    SumSub(h, SeasonClaims(h, d, k), ClaimOn(d, k));
    SumCong(SeasonClaims(h, d, k), Amount(), ClaimOn(d, k));
  }

  /** The ratios handed out for one season add up to at most one. */
  lemma RatiosBelowOne(m: History, staked: nat)
    requires staked > 0 && Sum(m, Amount()) <= staked
    ensures Sum(m, RatioOf(staked)) <= QUINTILL
  {
    forall c | c in m ensures staked * RatioOf(staked)(c, m[c]) <= QUINTILL * Amount()(c, m[c]) + 0 {
      FromRationalBounds(m[c], staked);
    }
    SumBound(m, RatioOf(staked), staked, Amount(), QUINTILL, 0);
    var r := Sum(m, RatioOf(staked));
    BelowUnit(staked, r, Sum(m, Amount()));
  }

  lemma BelowUnit(staked: nat, r: nat, a: nat)
    requires staked > 0 && a <= staked && staked * r <= QUINTILL * a
    ensures r <= QUINTILL
  {
    if r > QUINTILL {
      MulAhead(r, QUINTILL, staked);
      assert false;
    }
  }

  /** Payments for one season exceed its recorded profit by at most half a unit per claim. */
  lemma SharesBelowProfit(m: History, b: Bonus, t: Token)
    requires b.staked > 0 && t in b.profit && Sum(m, Amount()) <= b.staked
    ensures 2 * Sum(m, ShareOf(b, t)) <= 2 * b.profit[t] + |m|
  {
    hide Share, FromRational;
    var p := b.profit[t];
    RatiosBelowOne(m, b.staked);
    forall c | c in m
      ensures (2 * QUINTILL) * ShareOf(b, t)(c, m[c]) <= (2 * p) * RatioOf(b.staked)(c, m[c]) + QUINTILL
    {
      ShareRounding(m[c], b, t);
    }
    SumBound(m, ShareOf(b, t), 2 * QUINTILL, RatioOf(b.staked), 2 * p, QUINTILL);
    ScaleDown(Sum(m, ShareOf(b, t)), Sum(m, RatioOf(b.staked)), p, |m|);
  }

  lemma ShareRounding(stake: nat, b: Bonus, t: Token)
    requires b.staked > 0 && t in b.profit
    ensures (2 * QUINTILL) * Share(stake, b, t) <= (2 * b.profit[t]) * FromRational(stake, b.staked) + QUINTILL
  {
    hide MulNearest, FromRational;
    var r, p := FromRational(stake, b.staked), b.profit[t];
    MulNearestBounds(r, p);
    assert 2 * r * p == (2 * p) * r;
  }

  lemma ScaleDown(shares: nat, ratios: nat, p: nat, n: nat)
    requires ratios <= QUINTILL && (2 * QUINTILL) * shares <= (2 * p) * ratios + QUINTILL * n
    ensures 2 * shares <= 2 * p + n
  {
    MulMono(ratios, QUINTILL, 2 * p);
    assert (2 * p) * ratios == ratios * (2 * p);
  }

  /** Over whole runs: what a closed season paid in a token is at most its profit plus half a unit per claim. */
  lemma SeasonPayout(cfg: Config, l: Ledger, ops: seq<Op>, d: Account, k: Season, t: Token)
    requires ConfigOk(cfg)
    requires var s := Run(Genesis(cfg, l), ops); d in s.dominators && k < SeasonOf(s, d)
    ensures var s, h := Run(Genesis(cfg, l), ops), RunClaims(Genesis(cfg, l), ops);
            var b, m := BonusAt(s.bonuses, d, k), SeasonClaims(h, d, k);
            2 * Sum(m, ShareOf(b, t)) <= 2 * Get(b.profit, t) + |m|
  {
    hide Share, Step, ClaimedSum, EntitledSum;
    var s, h := Run(Genesis(cfg, l), ops), RunClaims(Genesis(cfg, l), ops);
    var b, m := BonusAt(s.bonuses, d, k), SeasonClaims(h, d, k);
    RunSeasons(cfg, l, ops);
    ClaimedAmounts(h, d, k);
    if b.staked > 0 && t in b.profit {
      SharesBelowProfit(m, b, t);
    } else {
      NothingDue(m, b, t);
    }
  }

  lemma NothingDue(m: History, b: Bonus, t: Token)
    requires b.staked == 0 || t !in b.profit
    ensures Sum(m, ShareOf(b, t)) == 0
  {
    SumZero(m, ShareOf(b, t));
  }

  // --- independence of the claim schedule ---

  /** Steps in which `x` neither adds to nor takes from the stake on `d`. */
  predicate Passive(op: Op, d: Account, x: Account) {
    !(op.Staking? && op.d == d && op.x == x) && !(op.Unstaking? && op.d == d && op.x == x)
  }

  /** Paid to `x` by `d` in token `t` along a run. */
  ghost function PaidTo(s: State, ops: seq<Op>, d: Account, x: Account, t: Token): nat
    requires s.cfg.grace > 0
  {
    if ops == [] then 0
    else
      var before, c := ops[..|ops| - 1], ClaimOf(Run(s, ops[..|ops| - 1]), ops[|ops| - 1]);
      PaidTo(s, before, d, x, t)
      + if c.d == d && c.x == x then Due(Run(s, before).bonuses, d, c.from, c.to, c.stake, t) else 0
  }

  /** A passive step keeps the stake; it moves the first unpaid season exactly by the seasons it pays for. */
  lemma PassiveStep(s: State, op: Op, d: Account, x: Account)
    requires s.cfg.grace > 0 && Passive(op, d, x) && (d, x) in s.stakings
    ensures var s', c := Step(s, op), ClaimOf(s, op);
            && (d, x) in s'.stakings && s'.stakings[(d, x)].amount == s.stakings[(d, x)].amount
            && if c.from < c.to && c.d == d && c.x == x
               then c == ClaimFor(s, d, x) && s'.stakings[(d, x)].fromSeason == c.to
               else s'.stakings[(d, x)].fromSeason == s.stakings[(d, x)].fromSeason
                    || (c == ClaimFor(s, d, x) && s'.stakings[(d, x)].fromSeason == SeasonOf(s, d))
  {
    hide VerifyBatch, NextBlock, RevokeFrom, AuthorizeTo, StakeOn, UnstakeFrom, ClaimShares, CurrentSeason, DrainOrder,
         KeepsReserved, StatusFor, QueueAt, UnlockAt, ReserveAt;
    match op
    case Verifying(e, ps) => if Verify(s, e, ps).Ok? { BatchFrame(s, e, ps); }
    case Block(order) => BlockEffect(s, order);
    case Authorizing(_, _, _, _) => CustodyFreezes(s, op);
    case Revoking(_, _, _, _, _) => CustodyFreezes(s, op);
    case Staking(y, e, v) => if StakeOn(s, y, e, v).Ok? { StakeEffect(s, y, e, v); }
    case Unstaking(y, e, v) => if UnstakeFrom(s, y, e, v).Ok? { UnstakeEffect(s, y, e, v); }
    case Claiming(y, e) => if ClaimShares(s, y, e).Ok? { ClaimEffect(s, y, e); }
    case _ =>
  }

  ghost predicate AllInv(s: State, h: History) {
    SeasonInv(s, h) && StakeInv(s) && CustodyInv(s)
  }

  lemma StepKeepsAll(s: State, h: History, op: Op)
    requires AllInv(s, h)
    ensures AllInv(Step(s, op), AddClaims(h, ClaimOf(s, op)))
  {
    hide Step, SeasonInv, CustodyInv;
    StepKeepsSeasons(s, h, op);
    StepKeepsStakes(s, op);
    StepCustody(s, op);
  }

  /** What has been paid along a passive run is what the seasons up to the first unpaid one are worth. */
  lemma {:induction false} PaidSoFar(s: State, h: History, ops: seq<Op>, d: Account, x: Account, t: Token)
    returns (h': History)
    requires AllInv(s, h) && (d, x) in s.stakings && forall i | 0 <= i < |ops| :: Passive(ops[i], d, x)
    ensures var s', was := Run(s, ops), s.stakings[(d, x)];
            && AllInv(s', h') && (d, x) in s'.stakings && s'.stakings[(d, x)].amount == was.amount
            && was.fromSeason <= s'.stakings[(d, x)].fromSeason <= SeasonOf(s', d)
            && PaidTo(s, ops, d, x, t)
              == Due(s'.bonuses, d, was.fromSeason, s'.stakings[(d, x)].fromSeason, was.amount, t)
  {
    hide Step, ClaimOf, CustodyInv, StakeInv, CurrentSeason, SnapshotsSplit, ClaimsPast, AddShares;
    if ops == [] {
      h' := h;
    } else {
      var before, op := ops[..|ops| - 1], ops[|ops| - 1];
      var h1 := PaidSoFar(s, h, before, d, x, t);
      var s1, was := Run(s, before), s.stakings[(d, x)];
      var s2, c, mid := Step(s1, op), ClaimOf(s1, op), s1.stakings[(d, x)].fromSeason;
      h' := AddClaims(h1, c);
      StepKeepsAll(s1, h1, op);
      PassiveStep(s1, op, d, x);
      forall k: nat | k < SeasonOf(s1, d) ensures BonusAt(s2.bonuses, d, k) == BonusAt(s1.bonuses, d, k) {
        StepFreezes(s1, h1, op, d, k);
      }
      SharesSame(s1.bonuses, s2.bonuses, d, was.fromSeason, mid, was.amount);
      if c.from < c.to && c.d == d && c.x == x {
        SharesSame(s1.bonuses, s2.bonuses, d, c.from, c.to, was.amount);
        DueSplit(s2.bonuses, d, was.fromSeason, c.from, c.to, was.amount, t);
      }
    }
  }

  /** However claims are scheduled, what was paid plus what one more claim pays is what a single claim at the end
      pays. */
  lemma ScheduleIndependent(s: State, h: History, ops: seq<Op>, d: Account, x: Account, t: Token)
    requires AllInv(s, h) && (d, x) in s.stakings && forall i | 0 <= i < |ops| :: Passive(ops[i], d, x)
    ensures var s', was := Run(s, ops), s.stakings[(d, x)];
            && (d, x) in s'.stakings
            && PaidTo(s, ops, d, x, t)
               + Due(s'.bonuses, d, s'.stakings[(d, x)].fromSeason, SeasonOf(s', d), s'.stakings[(d, x)].amount, t)
               == Due(s'.bonuses, d, was.fromSeason, SeasonOf(s', d), was.amount, t)
  {
    hide Step, ClaimOf, CurrentSeason, StakeInv, CustodyInv;
    var h' := PaidSoFar(s, h, ops, d, x, t);
    var s', was := Run(s, ops), s.stakings[(d, x)];
    DueSplit(s'.bonuses, d, was.fromSeason, s'.stakings[(d, x)].fromSeason, SeasonOf(s', d), was.amount, t);
  }

  /** From any reachable state: with an unchanged stake the schedule of claims does not matter. */
  lemma ClaimScheduleFree(cfg: Config, l: Ledger, past: seq<Op>, ops: seq<Op>, d: Account, x: Account, t: Token)
    requires ConfigOk(cfg) && (d, x) in Run(Genesis(cfg, l), past).stakings
    requires forall i | 0 <= i < |ops| :: Passive(ops[i], d, x)
    ensures var s := Run(Genesis(cfg, l), past);
            var s', was := Run(s, ops), s.stakings[(d, x)];
            && (d, x) in s'.stakings
            && PaidTo(s, ops, d, x, t)
               + Due(s'.bonuses, d, s'.stakings[(d, x)].fromSeason, SeasonOf(s', d), s'.stakings[(d, x)].amount, t)
               == Due(s'.bonuses, d, was.fromSeason, SeasonOf(s', d), was.amount, t)
  {
    hide Run, RunClaims, PaidTo, Due;
    RunStakes(cfg, l, past);
    RunCustody(cfg, l, past);
    RunSeasons(cfg, l, past);
    ScheduleIndependent(Run(Genesis(cfg, l), past), RunClaims(Genesis(cfg, l), past), ops, d, x, t);
  }

  // --- the query ---

  function SeasonShare(stake: nat, b: Bonus): (Token, nat) -> nat {
    (t: Token, p: nat) => Share(stake, b, t)
  }

  function Value(): (Token, nat) -> nat {
    (t: Token, v: nat) => v
  }

  /** The running total of `pending_shares_of_dominator`: every token of every season. */
  ghost function PendingTotal(b: Bonuses, d: Account, from: Season, until: Season, stake: nat): nat
    decreases until
  {
    if until <= from then 0
    else
      var bonus := BonusAt(b, d, until - 1);
      PendingTotal(b, d, from, until - 1, stake)
      + if bonus.staked == 0 then 0 else Sum(bonus.profit, SeasonShare(stake, bonus))
  }

  /** `r` adds `w` of `p` to `m`, token by token. */
  predicate Merged(m: map<Token, nat>, p: map<Token, nat>, w: (Token, nat) -> nat, r: map<Token, nat>) {
    r.Keys == m.Keys + p.Keys && forall t | t in r :: r[t] == Get(m, t) + if t in p then w(t, p[t]) else 0
  }

  function Unmerge(m: map<Token, nat>, r: map<Token, nat>, k: Token): map<Token, nat> {
    if k in m then r[k := m[k]] else r - {k}
  }

  lemma MergedRest(m: map<Token, nat>, p: map<Token, nat>, w: (Token, nat) -> nat, r: map<Token, nat>, k: Token)
    requires Merged(m, p, w, r) && k in p
    ensures Merged(m, p - {k}, w, Unmerge(m, r, k)) && k in r && r[k] == Get(m, k) + w(k, p[k])
    ensures r == Unmerge(m, r, k)[k := r[k]] && Weight(Unmerge(m, r, k), k, Value()) == Get(m, k)
  {
    var r' := Unmerge(m, r, k);
    assert r'.Keys == m.Keys + (p - {k}).Keys;
    assert r.Keys == r'[k := r[k]].Keys;
  }

  /** A merged map has the sum of both. */
  lemma {:induction false} MergedSum(m: map<Token, nat>, p: map<Token, nat>, w: (Token, nat) -> nat, r: map<Token, nat>)
    requires Merged(m, p, w, r)
    ensures Sum(r, Value()) == Sum(m, Value()) + Sum(p, w)
    decreases |p|
  {
    hide Sum, Unmerge;
    if p == map[] {
      NoSum(p, w);
      assert r == m;
    } else {
      hide Merged;
      var k :| k in p;
      var r' := Unmerge(m, r, k);
      assert (p - {k}).Keys == p.Keys - {k};
      MergedRest(m, p, w, r, k);
      MergedSum(m, p - {k}, w, r');
      SumSplit(p, k, w);
      SumPut(r', k, r[k], Value());
    }
  }

  lemma NoSum(p: map<Token, nat>, w: (Token, nat) -> nat)
    requires p == map[]
    ensures Sum(p, w) == 0
  {
  }

  /** The query returns the sum over all tokens of what a claim in the same block pays. */
  lemma {:induction false} PendingIsDue(b: Bonuses, d: Account, from: Season, until: Season, stake: nat)
    ensures PendingTotal(b, d, from, until, stake) == Sum(Shares(b, d, from, until, stake), Value())
    decreases until
  {
    hide MulNearest, FromRational, Sum;
    if until > from {
      PendingIsDue(b, d, from, until - 1, stake);
      var bonus, m := BonusAt(b, d, until - 1), Shares(b, d, from, until - 1, stake);
      if bonus.staked != 0 {
        MergedSum(m, bonus.profit, SeasonShare(stake, bonus), AddShares(m, stake, bonus));
      }
    } else {
      SumZero(Shares(b, d, from, until, stake), Value());
    }
  }
}
