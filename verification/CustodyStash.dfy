/** What a stash holds, told from the deposits made, rejected and accepted; and which deposits lose money. */
module CustodyStash {
  import opened Arith
  import opened Sums
  import opened Ledgers
  import opened Wrappers
  import opened VerifierTypes
  import opened ProofChecks
  import opened VerifierState
  import opened VerifierRuns
  import opened Custody
  import opened CustodyGap
  import opened CustodyCalls

  /** The amount of a deposit of `u` in `t` with `d` that is neither accepted nor rejected yet. */
  function Pending(s: State, d: Account, u: Account, t: Token): nat {
    if (d, u) in s.receipts && s.receipts[(d, u)].Authorize? && s.receipts[(d, u)].token == t
    then s.receipts[(d, u)].amount else 0
  }

  // --- deposits given up since the last accepted one ---

  /** An accepted deposit settles the account, a rejected one is given up. */
  function LeftByProof(s: State, d: Account, p: Proof, u: Account, t: Token, left: nat): nat {
    if p.user != u then left
    else match p.cmd
      case TransferIn(q, v) => if q == t then 0 else left
      case RejectTransferIn => left + Pending(s, d, u, t)
      case _ => left
  }

  ghost function LeftByBatch(s: State, d: Account, ps: seq<(Proof, Outside)>, u: Account, t: Token, left: nat): nat {
    if ps == [] then left
    else
      var before, s1 := ps[..|ps| - 1], VerifyBatch(s, d, ps[..|ps| - 1]);
      var l1 := LeftByBatch(s, d, before, u, t, left);
      if s1.Ok? then LeftByProof(s1.value, d, ps[|ps| - 1].0, u, t, l1) else l1
  }

  /** Taking money back from an evicted dominator empties the stash of that token and drops any open deposit. */
  ghost function LeftBy(s: State, op: Op, d: Account, u: Account, t: Token, left: nat): nat {
    match op
    case Verifying(e, ps) => if e == d && Verify(s, e, ps).Ok? then LeftByBatch(s, d, ps, u, t, left) else left
    case Revoking(o, e, q, wanted, callback) =>
      if e != d || o != u || !IsEvicted(s, d) || RevokeFrom(s, o, e, q, wanted, callback).Err?
         || wanted == Some(0) || (wanted == None && Held(s, ForAuthorizing, o, q, e) == 0) then left
      else if q == t then 0
      else left + Pending(s, d, u, t)
    case _ => left
  }

  /** Over a run: the deposits of `u` in `t` with `d` that were given up since the last one was accepted. */
  ghost function GivenUp(s: State, ops: seq<Op>, d: Account, u: Account, t: Token): nat
    requires s.cfg.grace > 0
  {
    if ops == [] then 0
    else LeftBy(Run(s, ops[..|ops| - 1]), ops[|ops| - 1], d, u, t, GivenUp(s, ops[..|ops| - 1], d, u, t))
  }

  ghost predicate StashIs(s: State, d: Account, u: Account, t: Token, left: nat) {
    Held(s, ForStash, u, t, d) == Pending(s, d, u, t) + left
  }

  // --- one proof ---

  lemma {:induction false} ClearLeavesStash(s: State, d: Account, ls: seq<Leaf>, k: RKey)
    requires ClearLeaves(s, d, ls).Ok? && k.bucket == ForStash
    ensures ReserveAt(ClearLeaves(s, d, ls).value.reserves, k) == ReserveAt(s.reserves, k)
  {
    if ls == [] {
    } else {
      ClearLeavesStash(s, d, ls[..|ls| - 1], k);
    }
  }

  lemma OrderStash(s: State, d: Account, o: Order, broker: Option<Account>, ask: bool, p: Proof, x: Outside, k: RKey)
    requires d in s.dominators && SettleOrder(s, d, o, broker, ask, p, x).Ok? && k.bucket == ForStash
    ensures var s' := SettleOrder(s, d, o, broker, ask, p, x).value;
            s'.receipts == s.receipts && ReserveAt(s'.reserves, k) == ReserveAt(s.reserves, k)
  {
    hide Accepts, ClearingOf, ClearLeaves, PutProfit, SplitFee, ReserveAt;
    var ls, c := AccountSlots(p), ClearingOf(o, p.leaves, p.makers, ask);
    ClearLeavesStash(s, d, ls, k);
    ClearLeavesFrame(s, d, ls);
    var s1, n := ClearLeaves(s, d, ls).value, CurrentSeason(s.cfg, s.now, s.dominators[d].startFrom);
    PutProfitFrame(s1, d, n, o.quote, c.quoteFee);
    SplitFeeFrame(PutProfit(s1, d, n, o.quote, c.quoteFee).value, o.base, c.baseFee, broker, x.beneficiary);
  }

  lemma TransferStash(s: State, d: Account, p: Proof, x: Outside, u: Account, t: Token, left: nat)
    requires d in s.dominators && Execute(s, d, p, x).Ok? && StashIs(s, d, u, t, left)
    requires !p.cmd.AskLimit? && !p.cmd.BidLimit? && !p.cmd.Cancel?
    ensures StashIs(Execute(s, d, p, x).value.0, d, u, t, LeftByProof(s, d, p, u, t, left))
  {
    hide SettleOrder, Unreserve, TransferInOk, TransferOutOk, RejectOutOk;
    if p.cmd.TransferOut? {
      UnreserveEffect(s, ForAuthorizing, p.user, p.cmd.currency, p.cmd.amount, d);
    }
  }

  lemma ExecuteStash(s: State, d: Account, p: Proof, x: Outside, u: Account, t: Token, left: nat)
    requires d in s.dominators && Execute(s, d, p, x).Ok? && StashIs(s, d, u, t, left)
    ensures StashIs(Execute(s, d, p, x).value.0, d, u, t, LeftByProof(s, d, p, u, t, left))
  {
    hide SettleOrder, ReserveAt;
    match p.cmd
    case AskLimit(o, broker) => OrderStash(s, d, o, broker, true, p, x, RKey(ForStash, u, t, d));
    case BidLimit(o, broker) => OrderStash(s, d, o, broker, false, p, x, RKey(ForStash, u, t, d));
    case Cancel(base, quote) =>
    case _ =>
      hide Execute;
      TransferStash(s, d, p, x, u, t, left);
  }

  lemma {:induction false} BatchStash(
    s: State, d: Account, ps: seq<(Proof, Outside)>, u: Account, t: Token, left: nat)
    requires VerifyBatch(s, d, ps).Ok? && StashIs(s, d, u, t, left)
    ensures StashIs(VerifyBatch(s, d, ps).value, d, u, t, LeftByBatch(s, d, ps, u, t, left))
  {
    hide Execute, LeftByProof, ReserveAt;
    if ps == [] {
    } else {
      var before, last := ps[..|ps| - 1], ps[|ps| - 1];
      BatchStash(s, d, before, u, t, left);
      ExecuteStash(VerifyBatch(s, d, before).value, d, last.0, last.1, u, t, LeftByBatch(s, d, before, u, t, left));
    }
  }

  /** Proofs of one dominator leave receipts and stashes with another alone. */
  lemma ExecuteElsewhere(s: State, e: Account, p: Proof, x: Outside, d: Account, u: Account)
    requires e in s.dominators && e != d && Execute(s, e, p, x).Ok?
    ensures var r := Execute(s, e, p, x).value.0.receipts;
            && ((d, u) in r <==> (d, u) in s.receipts)
            && ((d, u) in r && (d, u) in s.receipts ==> r[(d, u)] == s.receipts[(d, u)])
  {
    hide SettleOrder, Unreserve, TransferInOk, TransferOutOk, RejectOutOk, CancelOk;
    match p.cmd
    case AskLimit(o, broker) => OrderStash(s, e, o, broker, true, p, x, RKey(ForStash, u, 0, d));
    case BidLimit(o, broker) => OrderStash(s, e, o, broker, false, p, x, RKey(ForStash, u, 0, d));
    case TransferOut(q, v) => UnreserveEffect(s, ForAuthorizing, p.user, q, v, e);
    case _ =>
  }

  lemma {:induction false} BatchElsewhere(
    s: State, e: Account, ps: seq<(Proof, Outside)>, d: Account, u: Account, t: Token)
    requires VerifyBatch(s, e, ps).Ok? && e != d
    ensures Pending(VerifyBatch(s, e, ps).value, d, u, t) == Pending(s, d, u, t)
  {
    hide Execute;
    if ps == [] {
    } else {
      var before, last := ps[..|ps| - 1], ps[|ps| - 1];
      BatchElsewhere(s, e, before, d, u, t);
      ExecuteElsewhere(VerifyBatch(s, e, before).value, e, last.0, last.1, d, u);
    }
  }

  // --- one step ---

  lemma AuthorizeStash(s: State, o: Account, e: Account, q: Token, v: nat, d: Account, u: Account, t: Token, left: nat)
    requires AuthorizeTo(s, o, e, q, v).Ok? && StashIs(s, d, u, t, left)
    ensures StashIs(AuthorizeTo(s, o, e, q, v).value, d, u, t, left)
  {
    hide Reserve;
    ReserveEffect(s, ForStash, o, q, v, e);
  }

  lemma RevokeStash(
    s: State, o: Account, e: Account, q: Token, wanted: Option<nat>, callback: bool, d: Account, u: Account, t: Token,
    left: nat)
    requires RevokeFrom(s, o, e, q, wanted, callback).Ok? && StashIs(s, d, u, t, left)
    ensures StashIs(RevokeFrom(s, o, e, q, wanted, callback).value, d, u, t,
                    LeftBy(s, Revoking(o, e, q, wanted, callback), d, u, t, left))
  {
    hide RevokeFrom, Verify, ReserveAt, BalanceAt;
    RevokeCall(s, o, e, q, wanted, callback);
    if Wanted(s, o, e, q, wanted) > 0 && IsEvicted(s, e) {
      EvictedPays(s, o, e, q, wanted, callback);
    }
  }

  lemma VerifyStash(s: State, e: Account, ps: seq<(Proof, Outside)>, d: Account, u: Account, t: Token, left: nat)
    requires Verify(s, e, ps).Ok? && StashIs(s, d, u, t, left)
    ensures StashIs(Verify(s, e, ps).value, d, u, t, LeftBy(s, Verifying(e, ps), d, u, t, left))
  {
    hide VerifyBatch, LeftByBatch, RevokeFrom;
    if e == d {
      BatchStash(s, d, ps, u, t, left);
    } else {
      BatchElsewhere(s, e, ps, d, u, t);
      BatchFrame(s, e, ps);
    }
  }

  lemma OtherStash(s: State, op: Op, d: Account, u: Account, t: Token)
    requires s.cfg.grace > 0 && !op.Verifying? && !op.Authorizing? && !op.Revoking?
    ensures Held(Step(s, op), ForStash, u, t, d) == Held(s, ForStash, u, t, d)
    ensures Step(s, op).receipts == s.receipts
  {
    hide VerifyBatch, StakeOn, UnstakeFrom, ClaimShares, AuthorizeTo, RevokeFrom, NextBlock, DrainOrder, KeepsReserved,
         ReserveAt;
    match op
    case Staking(x, e, v) => if Call(s, op).Ok? { StakeEffect(s, x, e, v); }
    case Unstaking(x, e, v) => if Call(s, op).Ok? { UnstakeEffect(s, x, e, v); }
    case Claiming(x, e) => if Call(s, op).Ok? { ClaimEffect(s, x, e); }
    case Block(order) => BlockEffect(s, order);
    case _ =>
  }

  lemma StepStash(s: State, op: Op, d: Account, u: Account, t: Token, left: nat)
    requires s.cfg.grace > 0 && StashIs(s, d, u, t, left)
    ensures StashIs(Step(s, op), d, u, t, LeftBy(s, op, d, u, t, left))
  {
    hide VerifyBatch, StakeOn, UnstakeFrom, ClaimShares, AuthorizeTo, RevokeFrom, NextBlock, Register, Evict, Launch,
         Verify, ReserveAt, LeftByBatch;
    match op
    case Verifying(e, ps) => if Verify(s, e, ps).Ok? { VerifyStash(s, e, ps, d, u, t, left); }
    case Authorizing(o, e, q, v) => if Call(s, op).Ok? { AuthorizeStash(s, o, e, q, v, d, u, t, left); }
    case Revoking(o, e, q, w, c) => if Call(s, op).Ok? { RevokeStash(s, o, e, q, w, c, d, u, t, left); }
    case _ => OtherStash(s, op, d, u, t);
  }

  /** In every run a stash holds the open deposit and the deposits given up since the last accepted one. */
  lemma {:induction false} RunStash(cfg: Config, l: Ledger, ops: seq<Op>, d: Account, u: Account, t: Token)
    requires cfg.grace > 0
    ensures StashIs(Run(Genesis(cfg, l), ops), d, u, t, GivenUp(Genesis(cfg, l), ops, d, u, t))
  {
    hide Step, StashIs, LeftBy;
    if ops == [] {
      NoStash(cfg, l, d, u, t);
    } else {
      var before, op := ops[..|ops| - 1], ops[|ops| - 1];
      RunStash(cfg, l, before, d, u, t);
      StepStash(Run(Genesis(cfg, l), before), op, d, u, t, GivenUp(Genesis(cfg, l), before, d, u, t));
    }
  }

  lemma NoStash(cfg: Config, l: Ledger, d: Account, u: Account, t: Token)
    ensures StashIs(Genesis(cfg, l), d, u, t, 0)
  {
  }

  // --- which deposits lose money ---

  /** An accepted deposit loses exactly what was given up before it. */
  lemma StrandedIs(s: State, d: Account, p: Proof, x: Outside, u: Account, t: Token, left: nat)
    requires d in s.dominators && Execute(s, d, p, x).Ok? && StashIs(s, d, u, t, left)
    ensures Stranded(s, d, p, t, u)
            == if p.cmd.TransferIn? && p.cmd.currency == t && p.user == u then left else 0
  {
    hide SettleOrder, TransferInOk;
  }

  /** Whether proof `n` of a batch is a deposit of `u` in `t` that comes after one given up. */
  ghost predicate Reenters(
    s: State, d: Account, ps: seq<(Proof, Outside)>, n: nat, u: Account, t: Token, left: nat)
    requires n < |ps|
  {
    var p := ps[n].0;
    p.cmd.TransferIn? && p.cmd.currency == t && p.user == u && LeftByBatch(s, d, ps[..n], u, t, left) > 0
  }

  lemma {:induction false} BatchStrands(
    s: State, d: Account, ps: seq<(Proof, Outside)>, u: Account, t: Token, left: nat)
    requires VerifyBatch(s, d, ps).Ok? && StashIs(s, d, u, t, left)
    ensures BatchStranded(s, d, ps, t, u) == 0 <==> forall n | 0 <= n < |ps| :: !Reenters(s, d, ps, n, u, t, left)
  {
    hide Execute, Stranded, StashIs, LeftByBatch;
    if ps == [] {
    } else {
      var before, last := ps[..|ps| - 1], ps[|ps| - 1];
      BatchStrands(s, d, before, u, t, left);
      BatchStash(s, d, before, u, t, left);
      StrandedIs(VerifyBatch(s, d, before).value, d, last.0, last.1, u, t, LeftByBatch(s, d, before, u, t, left));
      forall n | 0 <= n < |before|
        ensures Reenters(s, d, before, n, u, t, left) <==> Reenters(s, d, ps, n, u, t, left)
      {
        assert before[..n] == ps[..n] && before[n] == ps[n];
      }
      assert Reenters(s, d, ps, |before|, u, t, left)
          <==> last.0.cmd.TransferIn? && last.0.cmd.currency == t && last.0.user == u
               && LeftByBatch(s, d, before, u, t, left) > 0;
    }
  }

  /** An accepted batch with a deposit that comes after one given up. */
  ghost predicate LosesDeposit(s: State, ops: seq<Op>, i: nat, u: Account, t: Token)
    requires s.cfg.grace > 0 && i < |ops|
  {
    var op, s1 := ops[i], Run(s, ops[..i]);
    op.Verifying? && Verify(s1, op.d, op.proofs).Ok?
    && exists n: nat | n < |op.proofs| ::
      Reenters(s1, op.d, op.proofs, n, u, t, GivenUp(s, ops[..i], op.d, u, t))
  }

  /** What the accepted batches of a run strand. */
  ghost function RunStranded(s: State, ops: seq<Op>, u: Account, t: Token): nat
    requires s.cfg.grace > 0
  {
    if ops == [] then 0
    else
      var op, s1 := ops[|ops| - 1], Run(s, ops[..|ops| - 1]);
      RunStranded(s, ops[..|ops| - 1], u, t)
      + if op.Verifying? && Verify(s1, op.d, op.proofs).Ok? then BatchStranded(s1, op.d, op.proofs, t, u) else 0
  }

  lemma LastLoses(cfg: Config, l: Ledger, before: seq<Op>, op: Op, u: Account, t: Token)
    requires cfg.grace > 0 && op.Verifying? && Verify(Run(Genesis(cfg, l), before), op.d, op.proofs).Ok?
    ensures BatchStranded(Run(Genesis(cfg, l), before), op.d, op.proofs, t, u) == 0
            <==> !LosesDeposit(Genesis(cfg, l), before + [op], |before|, u, t)
  {
    hide Run, StashIs, BatchStranded, Reenters, VerifyBatch, GivenUp;
    var ops := before + [op];
    assert ops[..|before|] == before && ops[|before|] == op;
    RunStash(cfg, l, before, op.d, u, t);
    BatchStrands(Run(Genesis(cfg, l), before), op.d, op.proofs, u, t, GivenUp(Genesis(cfg, l), before, op.d, u, t));
  }

  /** Over every run nothing is stranded if and only if no accepted deposit follows one given up. */
  lemma {:induction false} NothingStranded(cfg: Config, l: Ledger, ops: seq<Op>, u: Account, t: Token)
    requires cfg.grace > 0
    ensures RunStranded(Genesis(cfg, l), ops, u, t) == 0
            <==> forall i | 0 <= i < |ops| :: !LosesDeposit(Genesis(cfg, l), ops, i, u, t)
  {
    hide Run, BatchStranded, Verify;
    var g := Genesis(cfg, l);
    if ops == [] {
    } else {
      var before, op := ops[..|ops| - 1], ops[|ops| - 1];
      NothingStranded(cfg, l, before, u, t);
      forall i | 0 <= i < |before|
        ensures LosesDeposit(g, before, i, u, t) <==> LosesDeposit(g, ops, i, u, t)
      {
        assert before[..i] == ops[..i] && before[i] == ops[i];
      }
      assert before + [op] == ops;
      if op.Verifying? && Verify(Run(g, before), op.d, op.proofs).Ok? {
        LastLoses(cfg, l, before, op, u, t);
      } else {
        assert ops[..|before|] == before;
      }
    }
  }

  /** What other pallets have reserved along a run. */
  ghost function ReservedOutside(s: State, ops: seq<Op>, t: Token, u: Account): nat
    requires s.cfg.grace > 0
  {
    if ops == [] then 0
    else
      var op, s1 := ops[|ops| - 1], Run(s, ops[..|ops| - 1]);
      ReservedOutside(s, ops[..|ops| - 1], t, u) + if op.Elsewhere? then Widens(s1, op, t, u) else 0
  }

  lemma {:induction false} WidenedSplit(s: State, ops: seq<Op>, t: Token, u: Account)
    requires s.cfg.grace > 0
    ensures Widened(s, ops, t, u) == RunStranded(s, ops, u, t) + ReservedOutside(s, ops, t, u)
  {
    hide Run, BatchStranded, Verify, KeepsReserved;
    if ops == [] {
    } else {
      WidenedSplit(s, ops[..|ops| - 1], t, u);
    }
  }

  /** The gap of every run, in two parts: what other pallets have reserved, and the deposits that were given up and then
      lost to an accepted one. */
  lemma ExactCustody(cfg: Config, l: Ledger, ops: seq<Op>, t: Token, u: Account)
    requires cfg.grace > 0
    ensures var g, s' := Genesis(cfg, l), Run(Genesis(cfg, l), ops);
            HeldSum(s'.reserves, t, u) + RunStranded(g, ops, u, t) + ReservedOutside(g, ops, t, u)
            + BalanceAt(l, t, u).reserved
            == BalanceAt(s'.ledger, t, u).reserved
  {
    hide Run, HeldSum, Widened, RunStranded, ReservedOutside;
    RunGap(cfg, l, ops, t, u);
    WidenedSplit(Genesis(cfg, l), ops, t, u);
  }
}
