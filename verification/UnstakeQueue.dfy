/** Delayed unstaking over whole runs: each request is paid once, at its unlock block. */
module UnstakeQueue {
  import opened Arith
  import opened Sums
  import opened Ledgers
  import opened Wrappers
  import opened VerifierTypes
  import opened VerifierState
  import opened VerifierRuns
  import opened Custody
  import opened StakeLedger

  /** What step `op` moves into the queue of account `x` at block `b`. */
  function UnstakedBy(s: State, op: Op, b: Block, x: Account): nat {
    if op.Unstaking? && op.x == x && UnstakeFrom(s, op.x, op.d, op.v).Ok? && s.cfg.grace > 0
      && UnlockAt(s.cfg, s.now) == b
    then op.v else 0
  }

  /** Everything a run ever unstaked for release at block `b`. */
  ghost function UnstakedInto(s: State, ops: seq<Op>, b: Block, x: Account): nat
    requires s.cfg.grace > 0
  {
    if ops == [] then 0
    else
      var before := ops[..|ops| - 1];
      UnstakedInto(s, before, b, x) + UnstakedBy(Run(s, before), ops[|ops| - 1], b, x)
  }

  predicate Drains(s: State, op: Op, b: Block) {
    op.Block? && s.cfg.grace > 0 && DrainOrder(s, s.now + 1, op.order) && b == s.now + 1 && b % s.cfg.grace == 0
  }

  lemma BlockQueue(s: State, order: seq<Account>, b: Block, x: Account)
    requires s.cfg.grace > 0
    ensures var s' := NextBlock(s, order);
            && s'.now == s.now + 1
            && QueueAt(s', b, x) == if b == s.now + 1 && b % s.cfg.grace == 0 then 0 else QueueAt(s, b, x)
  {
    hide Release, Snapshot;
    ReleaseFrame(s.(now := s.now + 1), s.now + 1, order);
  }

  lemma UnstakeQueued(s: State, x: Account, d: Account, v: nat, b: Block, y: Account)
    requires UnstakeFrom(s, x, d, v).Ok?
    ensures var s' := UnstakeFrom(s, x, d, v).value;
            s'.now == s.now && QueueAt(s', b, y) == QueueAt(s, b, y) + UnstakedBy(s, Unstaking(x, d, v), b, y)
  {
    hide UnstakeFrom, UnlockAt;
    UnstakeEffect(s, x, d, v);
  }

  lemma OtherQueued(s: State, op: Op)
    requires s.cfg.grace > 0 && !op.Unstaking? && !op.Block?
    ensures Step(s, op).pending == s.pending && Step(s, op).now == s.now
  {
    hide StakeOn, ClaimShares, AuthorizeTo, RevokeFrom, VerifyBatch;
    match op
    case Verifying(d, ps) => if Verify(s, d, ps).Ok? { BatchFrame(s, d, ps); }
    case Staking(x, d, v) => if StakeOn(s, x, d, v).Ok? { StakeEffect(s, x, d, v); }
    case Claiming(x, d) => if ClaimShares(s, x, d).Ok? { ClaimEffect(s, x, d); }
    case Authorizing(u, d, t, v) => if AuthorizeTo(s, u, d, t, v).Ok? { AuthorizeEffect(s, u, d, t, v); }
    case Revoking(u, d, t, w, c) => if RevokeFrom(s, u, d, t, w, c).Ok? { RevokeEffect(s, u, d, t, w, c); }
    case _ =>
  }

  lemma NoRequest(s: State, op: Op, b: Block, x: Account)
    ensures !op.Unstaking? || UnstakeFrom(s, op.x, op.d, op.v).Err? ==> UnstakedBy(s, op, b, x) == 0
  {
    hide UnstakeFrom;
  }

  /** The queue grows by requests and loses exactly the block the hook serves. */
  lemma StepQueue(s: State, op: Op, b: Block, x: Account)
    requires s.cfg.grace > 0
    ensures QueueAt(Step(s, op), b, x) == if Drains(s, op, b) then 0 else QueueAt(s, b, x) + UnstakedBy(s, op, b, x)
    ensures s.now <= Step(s, op).now <= s.now + 1
    ensures Drains(s, op, b) ==> Step(s, op).now == b
  {
    hide UnstakeFrom, NextBlock, DrainOrder, VerifyBatch, UnlockAt, UnstakedBy;
    match op
    case Block(order) =>
      NoRequest(s, op, b, x);
      BlockQueue(s, order, b, x);
    case Unstaking(y, d, v) =>
      NoRequest(s, op, b, x);
      if UnstakeFrom(s, y, d, v).Ok? { UnstakeQueued(s, y, d, v, b, x); }
    case _ =>
      NoRequest(s, op, b, x);
      OtherQueued(s, op);
  }

  /** With a grace period dividing the delay, the queue at a future block is everything requested for it, and past
      blocks are empty. */
  lemma {:induction false} QueueHistory(cfg: Config, l: Ledger, ops: seq<Op>, b: Block, x: Account)
    requires ConfigOk(cfg) && UNSTAKE_DELAY_BLOCKS % cfg.grace == 0
    ensures var s := Run(Genesis(cfg, l), ops);
            QueueAt(s, b, x) == if b > s.now then UnstakedInto(Genesis(cfg, l), ops, b, x) else 0
  {
    hide Step, StakeInv, UNSTAKE_DELAY_BLOCKS, UnstakedBy, Drains;
    if ops == [] {
    } else {
      var before, op := ops[..|ops| - 1], ops[|ops| - 1];
      var s := Run(Genesis(cfg, l), before);
      QueueHistory(cfg, l, before, b, x);
      StepQueue(s, op, b, x);
      RunStakes(cfg, l, before);
      RunStakes(cfg, l, ops);
      if b <= Step(s, op).now {
        PastEmpty(Step(s, op), b, x);
      }
    }
  }

  lemma PastEmpty(s: State, b: Block, x: Account)
    requires StakeInv(s) && UNSTAKE_DELAY_BLOCKS % s.cfg.grace == 0 && b <= s.now
    ensures QueueAt(s, b, x) == 0
  {
    hide LedgerInv, QueueReserved, UNSTAKE_DELAY_BLOCKS;
  }

  /** No request is made for a block that has been reached, so what was requested for it is final. */
  lemma RequestsAhead(s: State, op: Op, b: Block, x: Account)
    requires s.cfg.grace > 0 && UNSTAKE_DELAY_BLOCKS % s.cfg.grace == 0 && b <= s.now
    ensures UnstakedBy(s, op, b, x) == 0
  {
    hide UnstakeFrom, UnlockAt, UNSTAKE_DELAY_BLOCKS;
    UnlockBounds(s.cfg, s.now);
  }

  /** The hook of block `now + 1` pays every account exactly what the run unstaked for that block, from reserved to
      free. */
  lemma BlockPays(cfg: Config, l: Ledger, ops: seq<Op>, order: seq<Account>, x: Account)
    requires ConfigOk(cfg) && UNSTAKE_DELAY_BLOCKS % cfg.grace == 0
    requires var s := Run(Genesis(cfg, l), ops); DrainOrder(s, s.now + 1, order)
    ensures var s := Run(Genesis(cfg, l), ops);
            var s', due := NextBlock(s, order), UnstakedInto(Genesis(cfg, l), ops, s.now + 1, x);
            && BalanceAt(s'.ledger, cfg.native, x).free == BalanceAt(s.ledger, cfg.native, x).free + due
            && BalanceAt(s'.ledger, cfg.native, x).reserved + due == BalanceAt(s.ledger, cfg.native, x).reserved
  {
    hide Step, StakeInv, CustodyInv, UNSTAKE_DELAY_BLOCKS, UnstakedBy;
    var s := Run(Genesis(cfg, l), ops);
    QueueHistory(cfg, l, ops, s.now + 1, x);
    RunStakes(cfg, l, ops);
    RunCustody(cfg, l, ops);
    HookPays(s, order, x);
  }

  /** Whatever is queued, the hook has an order to serve it in. */
  lemma OrderExists(s: State, at: Block) returns (order: seq<Account>)
    ensures DrainOrder(s, at, order)
  {
    var queued := set k | k in s.pending && k.0 == at :: k.1;
    order := Listing(queued);
    assert forall k | k in s.pending && k.0 == at :: k.1 in queued;
    forall i | 0 <= i < |order| ensures (at, order[i]) in s.pending {
      assert order[i] in queued;
      var k :| k in s.pending && k.0 == at && k.1 == order[i];
      assert k == (at, order[i]);
    }
  }

  lemma HookPays(s: State, order: seq<Account>, x: Account)
    requires StakeInv(s) && CustodyInv(s) && DrainOrder(s, s.now + 1, order) && UNSTAKE_DELAY_BLOCKS % s.cfg.grace == 0
    ensures var s', due := NextBlock(s, order), QueueAt(s, s.now + 1, x);
            && BalanceAt(s'.ledger, s.cfg.native, x).free == BalanceAt(s.ledger, s.cfg.native, x).free + due
            && BalanceAt(s'.ledger, s.cfg.native, x).reserved + due == BalanceAt(s.ledger, s.cfg.native, x).reserved
  {
    hide LedgerInv, Backed, Snapshot, Release, UNSTAKE_DELAY_BLOCKS;
    var at, s0 := s.now + 1, s.(now := s.now + 1);
    if at % s.cfg.grace == 0 {
      assert QueueReserved(s0) by {
        forall y: Account
          ensures Held(s0, ForPendingUnstake, y, s0.cfg.native, s0.cfg.system) == QueueSum(s0.pending, y)
        {
          assert Held(s, ForPendingUnstake, y, s.cfg.native, s.cfg.system) == QueueSum(s.pending, y);
        }
      }
      ReleasePays(s0, at, order, x);
      assert x in order <==> (at, x) in s.pending;
    } else if (at, x) in s.pending {
      UnlockServed(s.cfg, at, s.now);
      assert false;
    }
  }

  /** If the grace period does not divide the delay, no step ever takes anything out of the queue. */
  lemma NeverReleased(s: State, op: Op, b: Block, x: Account)
    requires StakeInv(s) && UNSTAKE_DELAY_BLOCKS % s.cfg.grace != 0
    ensures QueueAt(Step(s, op), b, x) >= QueueAt(s, b, x)
  {
    hide Step, LedgerInv, QueueReserved, UNSTAKE_DELAY_BLOCKS, UnstakedBy, DrainOrder;
    StepQueue(s, op, b, x);
    if (b, x) in s.pending {
      UnlockServed(s.cfg, b, s.now);
    }
  }

  /** Then whatever was queued stays queued through every run: the grace period must divide the delay. */
  lemma {:induction false} StuckForever(s: State, ops: seq<Op>, b: Block, x: Account)
    requires StakeInv(s) && CustodyInv(s) && UNSTAKE_DELAY_BLOCKS % s.cfg.grace != 0
    ensures StakeInv(Run(s, ops)) && CustodyInv(Run(s, ops))
    ensures QueueAt(Run(s, ops), b, x) >= QueueAt(s, b, x)
  {
    hide Step, StakeInv, CustodyInv, UNSTAKE_DELAY_BLOCKS;
    GraceOf(s);
    if ops == [] {
    } else {
      var before := Run(s, ops[..|ops| - 1]);
      StuckForever(s, ops[..|ops| - 1], b, x);
      NeverReleased(before, ops[|ops| - 1], b, x);
      StepKeepsStakes(before, ops[|ops| - 1]);
      StepCustody(before, ops[|ops| - 1]);
    }
  }

  lemma GraceOf(s: State)
    requires StakeInv(s)
    ensures s.cfg.grace > 0
  {
  }
}
