/** The stake ledger and the queue of delayed unstakes, over every run. */
module StakeLedger {
  import opened Arith
  import opened Sums
  import opened Ledgers
  import opened Wrappers
  import opened VerifierTypes
  import opened VerifierState
  import opened VerifierRuns
  import opened Custody

  /** Sensible constants: a positive grace period that divides the season, and a positive threshold. */
  predicate ConfigOk(cfg: Config) {
    cfg.grace > 0 && cfg.duration > 0 && cfg.duration % cfg.grace == 0 && cfg.threshold > 0
  }

  type Stakes = map<(Account, Account), Stake>

  function StakeOf(d: Account): ((Account, Account), Stake) -> nat {
    (k: (Account, Account), v: Stake) => StakeWeight(d, k, v)
  }

  function StakeWeight(d: Account, k: (Account, Account), v: Stake): nat {
    if k.0 == d then v.amount else 0
  }

  ghost function StakedSum(m: Stakes, d: Account): nat {
    Sum(m, StakeOf(d))
  }

  function QueuedBy(x: Account): ((Block, Account), nat) -> nat {
    (k: (Block, Account), v: nat) => QueueWeight(x, k, v)
  }

  function QueueWeight(x: Account, k: (Block, Account), v: nat): nat {
    if k.1 == x then v else 0
  }

  ghost function QueueSum(q: map<(Block, Account), nat>, x: Account): nat {
    Sum(q, QueuedBy(x))
  }

  /** A dominator's total is the sum of its stakings. */
  ghost predicate TotalsAgree(s: State) {
    forall d | d in s.dominators :: s.dominators[d].staked == StakedSum(s.stakings, d)
  }

  /** Each staking is exactly its staking reserve. */
  ghost predicate StakesReserved(s: State) {
    forall d: Account, x: Account :: Held(s, ForStaking, x, s.cfg.native, d) == StakingAt(s, d, x).amount
  }

  ghost predicate StakesLarge(s: State) {
    forall d: Account, x: Account | (d, x) in s.stakings ::
      d in s.dominators && s.stakings[(d, x)].amount >= s.cfg.minimalStake
  }

  /** A launched dominator is active exactly when its stake reaches the threshold; a registered one has no stake. */
  predicate StatusFits(cfg: Config, dom: Dominator) {
    match dom.status
    case Registered => dom.staked == 0
    case Inactive => dom.staked < cfg.threshold
    case Active => dom.staked >= cfg.threshold
    case Evicted => true
  }

  ghost predicate StatusesFit(s: State) {
    forall d | d in s.dominators :: StatusFits(s.cfg, s.dominators[d])
  }

  ghost predicate LedgerInv(s: State) {
    TotalsAgree(s) && StakesReserved(s) && StakesLarge(s) && StatusesFit(s)
  }

  /** The pending-unstake reserve is what the account has queued. */
  ghost predicate QueueReserved(s: State) {
    forall x: Account :: Held(s, ForPendingUnstake, x, s.cfg.native, s.cfg.system) == QueueSum(s.pending, x)
  }

  /** Every queue entry was made by a past request, one delay before it. */
  predicate Requested(cfg: Config, now: Block, b: Block)
    requires cfg.grace > 0
  {
    UNSTAKE_DELAY_BLOCKS <= b <= now + UNSTAKE_DELAY_BLOCKS && (b - UNSTAKE_DELAY_BLOCKS) % cfg.grace == 0
  }

  ghost predicate QueueTimely(s: State)
    requires s.cfg.grace > 0
  {
    && (forall b: Block, x: Account | (b, x) in s.pending :: Requested(s.cfg, s.now, b))
    && (UNSTAKE_DELAY_BLOCKS % s.cfg.grace == 0 ==> forall b: Block, x: Account | (b, x) in s.pending :: b > s.now)
  }

  ghost predicate StakeInv(s: State) {
    ConfigOk(s.cfg) && LedgerInv(s) && QueueReserved(s) && QueueTimely(s)
  }

  // --- what each call does ---

  lemma StakePut(m: Stakes, d: Account, x: Account, v: Stake, e: Account)
    ensures StakedSum(m[(d, x) := v], e) + (if d == e && (d, x) in m then m[(d, x)].amount else 0)
            == StakedSum(m, e) + if d == e then v.amount else 0
  {
    SumPut(m, (d, x), v, StakeOf(e));
  }

  lemma StakeDrop(m: Stakes, d: Account, x: Account, e: Account)
    ensures StakedSum(m - {(d, x)}, e) + (if d == e && (d, x) in m then m[(d, x)].amount else 0) == StakedSum(m, e)
  {
    SumDrop(m, (d, x), StakeOf(e));
  }

  lemma NoStakes(m: Stakes, d: Account)
    requires forall x: Account :: (d, x) !in m
    ensures StakedSum(m, d) == 0
  {
    forall k | k in m ensures StakeOf(d)(k, m[k]) == 0 {
      assert k == (k.0, k.1);
    }
    SumZero(m, StakeOf(d));
  }

  lemma StakeKeepsLedger(s: State, x: Account, d: Account, v: nat)
    requires StakeInv(s) && StakeOn(s, x, d, v).Ok?
    ensures StakeInv(StakeOn(s, x, d, v).value)
  {
    hide StakeOn, StakedSum, QueueSum;
    StakeEffect(s, x, d, v);
    var s' := StakeOn(s, x, d, v).value;
    forall e | e in s'.dominators ensures s'.dominators[e].staked == StakedSum(s'.stakings, e) {
      StakePut(s.stakings, d, x, s'.stakings[(d, x)], e);
    }
    forall e: Account, y: Account
      ensures Held(s', ForStaking, y, s'.cfg.native, e) == StakingAt(s', e, y).amount
    {
      assert Held(s, ForStaking, y, s.cfg.native, e) == StakingAt(s, e, y).amount;
    }
    assert StatusFits(s.cfg, s'.dominators[d]);
  }

  lemma UnstakeKeepsLedger(s: State, x: Account, d: Account, v: nat)
    requires StakeInv(s) && UnstakeFrom(s, x, d, v).Ok?
    ensures LedgerInv(UnstakeFrom(s, x, d, v).value)
  {
    hide UnstakeFrom, StakedSum, QueueSum;
    UnstakeEffect(s, x, d, v);
    var s' := UnstakeFrom(s, x, d, v).value;
    forall e | e in s'.dominators ensures s'.dominators[e].staked == StakedSum(s'.stakings, e) {
      if (d, x) in s'.stakings {
        StakePut(s.stakings, d, x, s'.stakings[(d, x)], e);
      } else {
        StakeDrop(s.stakings, d, x, e);
      }
    }
    forall e: Account, y: Account
      ensures Held(s', ForStaking, y, s'.cfg.native, e) == StakingAt(s', e, y).amount
    {
      assert Held(s, ForStaking, y, s.cfg.native, e) == StakingAt(s, e, y).amount;
    }
    assert StatusFits(s.cfg, s.dominators[d]);
    assert StatusFits(s.cfg, s'.dominators[d]);
  }

  /** The unlock block is at most one delay after the request and more than a delay less one grace period. */
  lemma UnlockBounds(cfg: Config, now: Block)
    requires cfg.grace > 0
    ensures now + UNSTAKE_DELAY_BLOCKS < UnlockAt(cfg, now) + cfg.grace
    ensures UnlockAt(cfg, now) <= now + UNSTAKE_DELAY_BLOCKS
    ensures Requested(cfg, now, UnlockAt(cfg, now))
    ensures UNSTAKE_DELAY_BLOCKS % cfg.grace == 0 ==> UnlockAt(cfg, now) > now
  {
    hide UNSTAKE_DELAY_BLOCKS;
    FloorMultiple(now, cfg.grace);
    ModBelow(now, cfg.grace);
    assert UnlockAt(cfg, now) - UNSTAKE_DELAY_BLOCKS == now - now % cfg.grace;
    if UNSTAKE_DELAY_BLOCKS % cfg.grace == 0 {
      DelayLong(cfg.grace);
    }
  }

  lemma DelayLong(g: nat)
    requires g > 0 && UNSTAKE_DELAY_BLOCKS % g == 0
    ensures g <= UNSTAKE_DELAY_BLOCKS
  {
    if g > UNSTAKE_DELAY_BLOCKS {
      SmallMod(UNSTAKE_DELAY_BLOCKS, g);
    }
  }

  lemma QueuePut(q: map<(Block, Account), nat>, b: Block, x: Account, v: nat, y: Account)
    ensures QueueSum(q[(b, x) := v], y) + (if x == y && (b, x) in q then q[(b, x)] else 0)
            == QueueSum(q, y) + if x == y then v else 0
  {
    SumPut(q, (b, x), v, QueuedBy(y));
  }

  lemma UnstakeKeepsQueue(s: State, x: Account, d: Account, v: nat)
    requires StakeInv(s) && UnstakeFrom(s, x, d, v).Ok?
    ensures var s' := UnstakeFrom(s, x, d, v).value; QueueReserved(s') && s'.cfg == s.cfg && QueueTimely(s')
  {
    hide UnstakeFrom, StakedSum, QueueSum, LedgerInv, UnlockAt;
    UnstakeEffect(s, x, d, v);
    UnlockBounds(s.cfg, s.now);
    var s', at := UnstakeFrom(s, x, d, v).value, UnlockAt(s.cfg, s.now);
    forall y: Account
      ensures Held(s', ForPendingUnstake, y, s'.cfg.native, s'.cfg.system) == QueueSum(s'.pending, y)
    {
      QueuePut(s.pending, at, x, QueueAt(s, at, x) + v, y);
    }
  }

  /** Calls that leave stakes, queue and their reserves alone. */
  lemma QuietKeepsStakes(s: State, s': State)
    requires StakeInv(s)
    requires s'.cfg == s.cfg && s'.now == s.now && s'.stakings == s.stakings && s'.pending == s.pending
    requires s'.dominators.Keys == s.dominators.Keys
    requires forall d | d in s.dominators ::
               s'.dominators[d].staked == s.dominators[d].staked && StatusFits(s.cfg, s'.dominators[d])
    requires forall k: RKey | k.bucket == ForStaking || k.bucket == ForPendingUnstake ::
               ReserveAt(s'.reserves, k) == ReserveAt(s.reserves, k)
    ensures StakeInv(s')
  {
    hide StakedSum, QueueSum;
    forall e: Account, y: Account
      ensures Held(s', ForStaking, y, s'.cfg.native, e) == StakingAt(s', e, y).amount
    {
      assert Held(s, ForStaking, y, s.cfg.native, e) == StakingAt(s, e, y).amount;
    }
    forall y: Account
      ensures Held(s', ForPendingUnstake, y, s'.cfg.native, s'.cfg.system) == QueueSum(s'.pending, y)
    {
      assert Held(s, ForPendingUnstake, y, s.cfg.native, s.cfg.system) == QueueSum(s.pending, y);
    }
  }

  lemma ClaimKeepsStakes(s: State, x: Account, d: Account)
    requires StakeInv(s) && ClaimShares(s, x, d).Ok?
    ensures StakeInv(ClaimShares(s, x, d).value)
  {
    hide ClaimShares, StakedSum, QueueSum;
    ClaimEffect(s, x, d);
    var s' := ClaimShares(s, x, d).value;
    forall e | e in s'.dominators ensures s'.dominators[e].staked == StakedSum(s'.stakings, e) {
      StakePut(s.stakings, d, x, s'.stakings[(d, x)], e);
    }
    forall e: Account, y: Account
      ensures Held(s', ForStaking, y, s'.cfg.native, e) == StakingAt(s', e, y).amount
    {
      assert Held(s, ForStaking, y, s.cfg.native, e) == StakingAt(s, e, y).amount;
    }
  }

  lemma RegisterKeepsStakes(s: State, d: Account, name: Name)
    requires StakeInv(s) && Register(s, d, name).Ok?
    ensures StakeInv(Register(s, d, name).value)
  {
    hide StakedSum, QueueSum;
    var s' := Register(s, d, name).value;
    NoStakes(s.stakings, d);
    forall e | e in s'.dominators
      ensures s'.dominators[e].staked == StakedSum(s'.stakings, e) && StatusFits(s.cfg, s'.dominators[e])
    {
      assert e != d ==> StatusFits(s.cfg, s.dominators[e]);
    }
    forall e: Account, y: Account
      ensures Held(s', ForStaking, y, s'.cfg.native, e) == StakingAt(s', e, y).amount
    {
      assert Held(s, ForStaking, y, s.cfg.native, e) == StakingAt(s, e, y).amount;
    }
  }

  lemma StatusKeepsStakes(s: State, d: Account)
    requires StakeInv(s)
    ensures Evict(s, d).Ok? ==> StakeInv(Evict(s, d).value)
    ensures Launch(s, d).Ok? ==> StakeInv(Launch(s, d).value)
  {
    hide StakeInv;
    assert StatusesFit(s) && ConfigOk(s.cfg) by { StakeInvParts(s); }
    if Evict(s, d).Ok? {
      QuietKeepsStakes(s, Evict(s, d).value);
    }
    if Launch(s, d).Ok? {
      assert StatusFits(s.cfg, s.dominators[d]);
      QuietKeepsStakes(s, Launch(s, d).value);
    }
  }

  lemma StakeInvParts(s: State)
    requires StakeInv(s)
    ensures StatusesFit(s) && ConfigOk(s.cfg) && StakesLarge(s) && TotalsAgree(s) && QueueReserved(s) && QueueTimely(s)
  {
  }

  lemma ProofsKeepStakes(s: State, d: Account, ps: seq<(Proof, Outside)>)
    requires StakeInv(s) && VerifyBatch(s, d, ps).Ok?
    ensures StakeInv(VerifyBatch(s, d, ps).value)
  {
    hide VerifyBatch, StakeInv;
    StakeInvParts(s);
    BatchFrame(s, d, ps);
    forall e | e in s.dominators ensures StatusFits(s.cfg, VerifyBatch(s, d, ps).value.dominators[e]) {
      assert StatusFits(s.cfg, s.dominators[e]);
    }
    QuietKeepsStakes(s, VerifyBatch(s, d, ps).value);
  }

  // --- the block hook ---

  lemma UnreserveNative(s: State, x: Account, v: nat, y: Account)
    requires v <= Held(s, ForPendingUnstake, x, s.cfg.native, s.cfg.system)
    requires v <= BalanceAt(s.ledger, s.cfg.native, x).reserved
    ensures Unreserve(s, ForPendingUnstake, x, s.cfg.native, v, s.cfg.system).Ok?
    ensures var s' := Unreserve(s, ForPendingUnstake, x, s.cfg.native, v, s.cfg.system).value;
            var q := if x == y then v else 0;
            && Held(s', ForPendingUnstake, y, s.cfg.native, s.cfg.system) + q
               == Held(s, ForPendingUnstake, y, s.cfg.native, s.cfg.system)
            && BalanceAt(s'.ledger, s.cfg.native, y).free == BalanceAt(s.ledger, s.cfg.native, y).free + q
            && BalanceAt(s'.ledger, s.cfg.native, y).reserved + q == BalanceAt(s.ledger, s.cfg.native, y).reserved
  {
  }

  lemma QueueBacked(s: State, at: Block, x: Account)
    requires QueueReserved(s)
    ensures QueueAt(s, at, x) <= Held(s, ForPendingUnstake, x, s.cfg.native, s.cfg.system)
  {
    SumMember(s.pending, (at, x), QueuedBy(x));
    assert Held(s, ForPendingUnstake, x, s.cfg.native, s.cfg.system) == QueueSum(s.pending, x);
  }

  /** Every queued release of the block succeeds and pays its account exactly the queued amount. */
  lemma {:induction false} ReleasePays(s: State, at: Block, order: seq<Account>, x: Account)
    requires Backed(s.ledger, s.reserves) && QueueReserved(s)
    requires forall i, j | 0 <= i < j < |order| :: order[i] != order[j]
    ensures var s' := Release(s, at, order);
            var q := if x in order then QueueAt(s, at, x) else 0;
            && Held(s', ForPendingUnstake, x, s.cfg.native, s.cfg.system) + q
               == Held(s, ForPendingUnstake, x, s.cfg.native, s.cfg.system)
            && BalanceAt(s'.ledger, s.cfg.native, x).free == BalanceAt(s.ledger, s.cfg.native, x).free + q
            && BalanceAt(s'.ledger, s.cfg.native, x).reserved + q == BalanceAt(s.ledger, s.cfg.native, x).reserved
  {
    hide Unreserve, Backed, QueueReserved, ReserveAt, BalanceAt, QueueAt;
    if order == [] {
    } else {
      var before, last := order[..|order| - 1], order[|order| - 1];
      assert x in order <==> x in before || x == last;
      assert last !in before;
      ReleasePays(s, at, before, x);
      ReleasePays(s, at, before, last);
      var s1, k := Release(s, at, before), RKey(ForPendingUnstake, last, s.cfg.native, s.cfg.system);
      ReleaseFrame(s, at, before);
      ReleaseBacked(s, at, before);
      EntryBacked(s1.ledger, s1.reserves, k);
      QueueBacked(s, at, last);
      UnreserveNative(s1, last, QueueAt(s, at, last), x);
    }
  }

  /** The release of a queue entry cannot fail, so the hook's failure branch is never taken. */
  lemma ReleaseSucceeds(s: State, at: Block, order: seq<Account>, i: nat)
    requires Backed(s.ledger, s.reserves) && QueueReserved(s) && i < |order|
    requires forall i, j | 0 <= i < j < |order| :: order[i] != order[j]
    ensures Unreserve(Release(s, at, order[..i]), ForPendingUnstake, order[i], s.cfg.native,
                      QueueAt(s, at, order[i]), s.cfg.system).Ok?
  {
    var before, x := order[..i], order[i];
    ReleasePays(s, at, before, x);
    ReleaseFrame(s, at, before);
    ReleaseBacked(s, at, before);
    var s1, k := Release(s, at, before), RKey(ForPendingUnstake, x, s.cfg.native, s.cfg.system);
    EntryBacked(s1.ledger, s1.reserves, k);
    QueueBacked(s, at, x);
    assert x !in before;
  }

  lemma DrainedSum(q: map<(Block, Account), nat>, at: Block, x: Account)
    ensures var q' := map k | k in q && k.0 != at :: q[k];
            QueueSum(q', x) + (if (at, x) in q then q[(at, x)] else 0) == QueueSum(q, x)
  {
    var q' := map k | k in q && k.0 != at :: q[k];
    SumDrop(q, (at, x), QueuedBy(x));
    SumSub(q - {(at, x)}, q', QueuedBy(x));
  }

  lemma BlockKeepsQueue(s: State, order: seq<Account>)
    requires StakeInv(s) && Backed(s.ledger, s.reserves) && DrainOrder(s, s.now + 1, order)
    ensures QueueReserved(NextBlock(s, order))
  {
    hide QueueSum, Release, LedgerInv, QueueTimely, Backed, Snapshot;
    var at, s', s0 := s.now + 1, NextBlock(s, order), s.(now := s.now + 1);
    if at % s.cfg.grace == 0 {
      forall x: Account
        ensures Held(s', ForPendingUnstake, x, s'.cfg.native, s'.cfg.system) == QueueSum(s'.pending, x)
      {
        assert QueueReserved(s0) by {
          forall y: Account
            ensures Held(s0, ForPendingUnstake, y, s0.cfg.native, s0.cfg.system) == QueueSum(s0.pending, y)
          {
            assert Held(s, ForPendingUnstake, y, s.cfg.native, s.cfg.system) == QueueSum(s.pending, y);
          }
        }
        ReleasePays(s0, at, order, x);
        ReleaseFrame(s0, at, order);
        DrainedSum(s.pending, at, x);
      }
    } else {
      forall x: Account
        ensures Held(s', ForPendingUnstake, x, s'.cfg.native, s'.cfg.system) == QueueSum(s'.pending, x)
      {
        assert Held(s, ForPendingUnstake, x, s.cfg.native, s.cfg.system) == QueueSum(s.pending, x);
      }
    }
  }

  /** A request made at any block lands on a block the hook serves exactly when the grace period divides the delay. */
  lemma UnlockServed(cfg: Config, b: Block, now: Block)
    requires cfg.grace > 0 && Requested(cfg, now, b)
    ensures b % cfg.grace == 0 <==> UNSTAKE_DELAY_BLOCKS % cfg.grace == 0
  {
    var q, g := (b - UNSTAKE_DELAY_BLOCKS) / cfg.grace, cfg.grace;
    assert b - UNSTAKE_DELAY_BLOCKS == q * g;
    AddMultiple(UNSTAKE_DELAY_BLOCKS, q, g);
  }

  lemma RequestedLater(cfg: Config, now: Block, b: Block)
    requires cfg.grace > 0 && Requested(cfg, now, b)
    ensures Requested(cfg, now + 1, b)
  {
  }

  lemma BlockKeepsTimes(s: State, order: seq<Account>)
    requires StakeInv(s) && DrainOrder(s, s.now + 1, order)
    ensures NextBlock(s, order).cfg == s.cfg && QueueTimely(NextBlock(s, order))
  {
    hide LedgerInv, Snapshot, QueueReserved, Release, Requested, UNSTAKE_DELAY_BLOCKS;
    ReleaseFrame(s.(now := s.now + 1), s.now + 1, order);
    var s' := NextBlock(s, order);
    forall b: Block, x: Account | (b, x) in s'.pending
      ensures Requested(s'.cfg, s'.now, b)
      ensures UNSTAKE_DELAY_BLOCKS % s'.cfg.grace == 0 ==> b > s'.now
    {
      assert Requested(s.cfg, s.now, b);
      RequestedLater(s.cfg, s.now, b);
      UnlockServed(s.cfg, b, s.now);
    }
  }

  lemma BlockKeepsStakes(s: State, order: seq<Account>)
    requires StakeInv(s) && Backed(s.ledger, s.reserves) && DrainOrder(s, s.now + 1, order)
    ensures StakeInv(NextBlock(s, order))
  {
    hide NextBlock, QueueReserved, QueueTimely, Backed, StakedSum;
    BlockKeepsQueue(s, order);
    BlockKeepsTimes(s, order);
    BlockEffect(s, order);
    var s' := NextBlock(s, order);
    forall e: Account, y: Account
      ensures Held(s', ForStaking, y, s'.cfg.native, e) == StakingAt(s', e, y).amount
    {
      assert Held(s, ForStaking, y, s.cfg.native, e) == StakingAt(s, e, y).amount;
    }
  }

  // --- runs ---

  lemma CustodyKeepsStakes(s: State, u: Account, d: Account, t: Token, v: nat, wanted: Option<nat>, callback: bool)
    requires StakeInv(s)
    ensures AuthorizeTo(s, u, d, t, v).Ok? ==> StakeInv(AuthorizeTo(s, u, d, t, v).value)
    ensures RevokeFrom(s, u, d, t, wanted, callback).Ok? ==> StakeInv(RevokeFrom(s, u, d, t, wanted, callback).value)
  {
    hide StakeInv, AuthorizeTo, RevokeFrom;
    StakeInvParts(s);
    if AuthorizeTo(s, u, d, t, v).Ok? {
      AuthorizeEffect(s, u, d, t, v);
      QuietKeepsStakes(s, AuthorizeTo(s, u, d, t, v).value);
    }
    if RevokeFrom(s, u, d, t, wanted, callback).Ok? {
      RevokeEffect(s, u, d, t, wanted, callback);
      QuietKeepsStakes(s, RevokeFrom(s, u, d, t, wanted, callback).value);
    }
  }

  lemma StepKeepsStakes(s: State, op: Op)
    requires StakeInv(s) && CustodyInv(s)
    ensures StakeInv(Step(s, op))
  {
    hide StakeInv, CustodyInv, VerifyBatch, NextBlock, RevokeFrom, AuthorizeTo, StakeOn, UnstakeFrom, ClaimShares,
         Register, Evict, Launch;
    StakeInvParts(s);
    match op
    case Verifying(d, ps) => if Verify(s, d, ps).Ok? { ProofsKeepStakes(s, d, ps); }
    case Staking(x, d, v) => if StakeOn(s, x, d, v).Ok? { StakeKeepsLedger(s, x, d, v); }
    case Unstaking(x, d, v) => if UnstakeFrom(s, x, d, v).Ok? { UnstakeKeepsStakes(s, x, d, v); }
    case Claiming(x, d) => if ClaimShares(s, x, d).Ok? { ClaimKeepsStakes(s, x, d); }
    case Block(order) => if DrainOrder(s, s.now + 1, order) { CustodyParts(s); BlockKeepsStakes(s, order); }
    case Registering(d, name) => if Register(s, d, name).Ok? { RegisterKeepsStakes(s, d, name); }
    case Evicting(d) => StatusKeepsStakes(s, d);
    case Launching(d) => StatusKeepsStakes(s, d);
    case Authorizing(u, d, t, v) => CustodyKeepsStakes(s, u, d, t, v, None, false);
    case Revoking(u, d, t, w, c) => CustodyKeepsStakes(s, u, d, t, 0, w, c);
    case Elsewhere(l) => QuietKeepsStakes(s, Step(s, op));
  }

  lemma CustodyParts(s: State)
    requires CustodyInv(s)
    ensures Backed(s.ledger, s.reserves)
  {
  }

  lemma UnstakeKeepsStakes(s: State, x: Account, d: Account, v: nat)
    requires StakeInv(s) && UnstakeFrom(s, x, d, v).Ok?
    ensures StakeInv(UnstakeFrom(s, x, d, v).value)
  {
    hide UnstakeFrom, LedgerInv, QueueReserved, QueueTimely;
    UnstakeKeepsLedger(s, x, d, v);
    UnstakeKeepsQueue(s, x, d, v);
  }

  lemma GenesisStakes(cfg: Config, l: Ledger)
    requires ConfigOk(cfg)
    ensures StakeInv(Genesis(cfg, l))
  {
    var none: map<(Block, Account), nat> := map[];
    forall x: Account ensures QueueSum(none, x) == 0 {
      SumZero(none, QueuedBy(x));
    }
  }

  /** Stake ledger, status and queue over whole runs. */
  lemma {:induction false} RunStakes(cfg: Config, l: Ledger, ops: seq<Op>)
    requires ConfigOk(cfg)
    ensures StakeInv(Run(Genesis(cfg, l), ops))
  {
    hide StakeInv, Step, CustodyInv;
    if ops == [] {
      GenesisStakes(cfg, l);
    } else {
      RunStakes(cfg, l, ops[..|ops| - 1]);
      RunCustody(cfg, l, ops[..|ops| - 1]);
      StepKeepsStakes(Run(Genesis(cfg, l), ops[..|ops| - 1]), ops[|ops| - 1]);
    }
  }

  // --- eviction ---

  lemma RegistryKeepsEvicted(s: State, op: Op, d: Account)
    requires s.cfg.grace > 0 && IsEvicted(s, d) && (op.Registering? || op.Evicting? || op.Launching?)
    ensures IsEvicted(Step(s, op), d)
  {
  }

  /** No step lifts an eviction. */
  lemma StepKeepsEvicted(s: State, op: Op, d: Account)
    requires s.cfg.grace > 0 && IsEvicted(s, d)
    ensures IsEvicted(Step(s, op), d)
  {
    hide VerifyBatch, StakeOn, UnstakeFrom, ClaimShares, AuthorizeTo, RevokeFrom, NextBlock, Register, Evict, Launch;
    match op
    case Verifying(e, ps) => if Call(s, op).Ok? { BatchFrame(s, e, ps); }
    case Staking(x, e, v) => if Call(s, op).Ok? { EvictedTakesNoStake(s, x, e, v); StakeEffect(s, x, e, v); }
    case Unstaking(x, e, v) => if Call(s, op).Ok? { UnstakeEffect(s, x, e, v); }
    case Claiming(x, e) => if Call(s, op).Ok? { ClaimEffect(s, x, e); }
    case Authorizing(u, e, t, v) => if Call(s, op).Ok? { AuthorizeEffect(s, u, e, t, v); }
    case Revoking(u, e, t, w, c) => if Call(s, op).Ok? { RevokeEffect(s, u, e, t, w, c); }
    case Block(order) => BlockEffect(s, order);
    case Elsewhere(l) =>
    case _ => RegistryKeepsEvicted(s, op, d);
  }

  lemma EvictedTakesNoStake(s: State, x: Account, d: Account, v: nat)
    requires StakeOn(s, x, d, v).Ok?
    ensures d in s.dominators && !IsEvicted(s, d)
  {
    hide Reserve, TakeShares;
  }

  /** Eviction is final: it outlasts every run. */
  lemma {:induction false} EvictedForever(s: State, ops: seq<Op>, d: Account)
    requires s.cfg.grace > 0 && IsEvicted(s, d)
    ensures IsEvicted(Run(s, ops), d)
  {
    hide Step;
    if ops == [] {
    } else {
      EvictedForever(s, ops[..|ops| - 1], d);
      StepKeepsEvicted(Run(s, ops[..|ops| - 1]), ops[|ops| - 1], d);
    }
  }
}
