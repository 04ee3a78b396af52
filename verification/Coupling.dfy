/** Off-chain and on-chain books agree: the authorizing reserve is available plus frozen in the Merkle state. */
module Coupling {
  import opened Arith
  import opened Ledgers
  import opened Wrappers
  import opened VerifierTypes
  import opened ProofChecks
  import opened VerifierState
  import opened VerifierRuns

  function TreeOf(s: State, d: Account): Tree {
    if d in s.dominators then s.dominators[d].tree else map[]
  }

  ghost predicate CoupledAt(s: State, d: Account, u: Account, t: Token) {
    Held(s, ForAuthorizing, u, t, d) == TreeSum(TreeOf(s, d), t, u)
  }

  ghost predicate Coupled(s: State) {
    forall d: Account, u: Account, t: Token :: IsEvicted(s, d) || CoupledAt(s, d, u, t)
  }

  predicate DistinctKeys(ls: seq<Leaf>) {
    forall i, j | 0 <= i < j < |ls| :: ls[i].key != ls[j].key
  }

  /** The command's own checks and effects cover slot `i`. */
  predicate Governed(p: Proof, i: nat) {
    match p.cmd
    case AskLimit(_, _) => 1 <= i < p.makers + 3
    case BidLimit(_, _) => 1 <= i < p.makers + 3
    case Cancel(_, _) => 1 <= i <= 2
    case TransferOut(_, _) => true
    case TransferIn(_, _) => true
    case RejectTransferOut(_, _) => false
    case RejectTransferIn => false
  }

  predicate MovesRoot(p: Proof) {
    !p.cmd.RejectTransferOut? && !p.cmd.RejectTransferIn?
  }

  /** No slot outside the command's control changes what an account owns. */
  predicate StraysKeep(p: Proof) {
    forall i | 0 <= i < |p.leaves| ::
      p.leaves[i].key.AccountKey? && !Governed(p, i) ==> p.leaves[i].OldSum() == p.leaves[i].NewSum()
  }

  // --- trees and clearing ---

  lemma {:induction false} UpdatedMiss(t: Tree, ls: seq<Leaf>, k: Key)
    requires forall i | 0 <= i < |ls| :: ls[i].key != k
    ensures TreeAt(Updated(t, ls), k) == TreeAt(t, k)
  {
    if ls == [] {
    } else {
      UpdatedMiss(t, ls[..|ls| - 1], k);
    }
  }

  lemma {:induction false} UpdatedHit(t: Tree, ls: seq<Leaf>, i: nat)
    requires DistinctKeys(ls) && i < |ls|
    ensures TreeAt(Updated(t, ls), ls[i].key) == (ls[i].newL, ls[i].newR)
  {
    if i == |ls| - 1 {
    } else {
      UpdatedHit(t, ls[..|ls| - 1], i);
    }
  }

  lemma {:induction false} ClearMiss(s: State, d: Account, ls: seq<Leaf>, u: Account, t: Token)
    requires ClearLeaves(s, d, ls).Ok? && forall i | 0 <= i < |ls| :: ls[i].key != AccountKey(t, u)
    ensures Held(ClearLeaves(s, d, ls).value, ForAuthorizing, u, t, d) == Held(s, ForAuthorizing, u, t, d)
  {
    if ls == [] {
    } else {
      ClearMiss(s, d, ls[..|ls| - 1], u, t);
    }
  }

  lemma {:induction false} ClearHit(s: State, d: Account, ls: seq<Leaf>, i: nat)
    requires ClearLeaves(s, d, ls).Ok? && DistinctKeys(ls) && i < |ls|
    ensures ls[i].key.AccountKey?
    ensures Held(ClearLeaves(s, d, ls).value, ForAuthorizing, ls[i].key.who, ls[i].key.token, d) == ls[i].NewSum()
  {
    if i == |ls| - 1 {
    } else {
      ClearHit(s, d, ls[..|ls| - 1], i);
    }
  }

  // --- one proof ---

  /** An accepted order writes the new sum of every account slot and no other reserve of the dominator. */
  lemma SettleOrderHeld(s: State, d: Account, o: Order, broker: Option<Account>, ask: bool, p: Proof, x: Outside)
    requires d in s.dominators && DistinctKeys(p.leaves) && SettleOrder(s, d, o, broker, ask, p, x).Ok?
    ensures Shape(p.leaves, p.makers, p.pages)
    ensures var s' := SettleOrder(s, d, o, broker, ask, p, x).value;
            && (forall i | 1 <= i < p.makers + 3 :: p.leaves[i].key.AccountKey?
                 && Held(s', ForAuthorizing, p.leaves[i].key.who, p.leaves[i].key.token, d) == p.leaves[i].NewSum())
            && (forall u: Account, t: Token
                  | (forall i | 1 <= i < p.makers + 3 :: p.leaves[i].key != AccountKey(t, u)) ::
                 Held(s', ForAuthorizing, u, t, d) == Held(s, ForAuthorizing, u, t, d))
  {
    hide Accepts, ClearingOf, PutProfit, SplitFee;
    var ls := AccountSlots(p);
    var c, s1 := ClearingOf(o, p.leaves, p.makers, ask), ClearLeaves(s, d, ls).value;
    var k := CurrentSeason(s.cfg, s.now, s.dominators[d].startFrom);
    ClearLeavesFrame(s, d, ls);
    PutProfitFrame(s1, d, k, o.quote, c.quoteFee);
    var s2 := PutProfit(s1, d, k, o.quote, c.quoteFee).value;
    SplitFeeFrame(s2, o.base, c.baseFee, broker, x.beneficiary);
    var s' := SplitFee(s2, o.base, c.baseFee, broker, x.beneficiary).value;
    assert s'.reserves == s1.reserves;
    assert DistinctKeys(ls) by {
      assert forall i | 0 <= i < |ls| :: ls[i] == p.leaves[i + 1];
    }
    forall i | 1 <= i < p.makers + 3
      ensures p.leaves[i].key.AccountKey?
      ensures Held(s', ForAuthorizing, p.leaves[i].key.who, p.leaves[i].key.token, d) == p.leaves[i].NewSum()
    {
      assert ls[i - 1] == p.leaves[i];
      ClearHit(s, d, ls, i - 1);
    }
    forall u: Account, t: Token | forall i | 1 <= i < p.makers + 3 :: p.leaves[i].key != AccountKey(t, u)
      ensures Held(s', ForAuthorizing, u, t, d) == Held(s, ForAuthorizing, u, t, d)
    {
      forall i | 0 <= i < |ls| ensures ls[i].key != AccountKey(t, u) {
        assert ls[i] == p.leaves[i + 1];
      }
      ClearMiss(s, d, ls, u, t);
    }
  }

  /** What a root-moving proof does to the reserve behind slot `i`: governed slots follow the tree, others stay. */
  lemma SlotHeld(s: State, d: Account, p: Proof, x: Outside, i: nat)
    requires d in s.dominators && !IsEvicted(s, d) && Coupled(s) && DistinctKeys(p.leaves) && MovesRoot(p)
    requires OldMatches(s.dominators[d].tree, p.leaves) && Execute(s, d, p, x).Ok?
    requires i < |p.leaves| && p.leaves[i].key.AccountKey?
    ensures Held(Execute(s, d, p, x).value.0, ForAuthorizing, p.leaves[i].key.who, p.leaves[i].key.token, d)
            == if Governed(p, i) then p.leaves[i].NewSum() else p.leaves[i].OldSum()
  {
    hide SettleOrder;
    var l := p.leaves[i];
    assert CoupledAt(s, d, l.key.who, l.key.token);
    assert Held(s, ForAuthorizing, l.key.who, l.key.token, d) == l.OldSum();
    match p.cmd
    case AskLimit(o, broker) => SettleOrderHeld(s, d, o, broker, true, p, x);
    case BidLimit(o, broker) => SettleOrderHeld(s, d, o, broker, false, p, x);
    case _ =>
  }

  lemma RestHeld(s: State, d: Account, p: Proof, x: Outside, u: Account, t: Token)
    requires d in s.dominators && DistinctKeys(p.leaves) && Execute(s, d, p, x).Ok?
    requires MovesRoot(p) ==> forall i | 0 <= i < |p.leaves| :: p.leaves[i].key != AccountKey(t, u)
    ensures Held(Execute(s, d, p, x).value.0, ForAuthorizing, u, t, d) == Held(s, ForAuthorizing, u, t, d)
  {
    hide SettleOrder;
    match p.cmd
    case AskLimit(o, broker) => SettleOrderHeld(s, d, o, broker, true, p, x);
    case BidLimit(o, broker) => SettleOrderHeld(s, d, o, broker, false, p, x);
    case TransferOut(c, v) => assert p.leaves[0].key == AccountKey(c, p.user);
    case TransferIn(c, v) => assert p.leaves[0].key == AccountKey(c, p.user);
    case _ =>
  }

  lemma ExecuteMoves(s: State, d: Account, p: Proof, x: Outside)
    requires d in s.dominators && Execute(s, d, p, x).Ok?
    ensures Execute(s, d, p, x).value.1 == MovesRoot(p)
  {
    hide SettleOrder;
  }

  /** Coupling is kept for account (u, t) unless a stray slot of that account changes. */
  lemma ProofCoupledAt(s: State, d: Account, p: Proof, x: Outside, u: Account, t: Token)
    requires d in s.dominators && !IsEvicted(s, d) && Coupled(s) && DistinctKeys(p.leaves)
    requires VerifyAndUpdate(s, d, p, x).Ok?
    ensures CoupledAt(VerifyAndUpdate(s, d, p, x).value, d, u, t) <==>
            (MovesRoot(p) ==>
               forall i | 0 <= i < |p.leaves| ::
                 p.leaves[i].key == AccountKey(t, u) && !Governed(p, i) ==>
                   p.leaves[i].OldSum() == p.leaves[i].NewSum())
  {
    hide Execute;
    ExecuteMoves(s, d, p, x);
    ExecuteFrame(s, d, p, x);
    var tree := s.dominators[d].tree;
    assert CoupledAt(s, d, u, t);
    if MovesRoot(p) && exists i :: 0 <= i < |p.leaves| && p.leaves[i].key == AccountKey(t, u) {
      var i :| 0 <= i < |p.leaves| && p.leaves[i].key == AccountKey(t, u);
      SlotHeld(s, d, p, x, i);
      UpdatedHit(tree, p.leaves, i);
    } else {
      RestHeld(s, d, p, x, u, t);
      if MovesRoot(p) {
        UpdatedMiss(tree, p.leaves, AccountKey(t, u));
      }
    }
  }

  /** Coupling after an accepted proof holds exactly when no stray slot changes what an account owns. */
  lemma ProofCoupling(s: State, d: Account, p: Proof, x: Outside)
    requires d in s.dominators && !IsEvicted(s, d) && Coupled(s) && DistinctKeys(p.leaves)
    requires VerifyAndUpdate(s, d, p, x).Ok?
    ensures Coupled(VerifyAndUpdate(s, d, p, x).value) <==> MovesRoot(p) ==> StraysKeep(p)
  {
    hide VerifyAndUpdate;
    var s' := VerifyAndUpdate(s, d, p, x).value;
    VerifyFrame(s, d, p, x);
    forall u: Account, t: Token
      ensures CoupledAt(s', d, u, t) <==>
              (MovesRoot(p) ==>
                 forall i | 0 <= i < |p.leaves| ::
                   p.leaves[i].key == AccountKey(t, u) && !Governed(p, i) ==>
                   p.leaves[i].OldSum() == p.leaves[i].NewSum())
    {
      ProofCoupledAt(s, d, p, x, u, t);
    }
    forall e: Account, u: Account, t: Token | e != d
      ensures IsEvicted(s', e) || CoupledAt(s', e, u, t)
    {
      assert IsEvicted(s, e) || CoupledAt(s, e, u, t);
      assert Held(s', ForAuthorizing, u, t, e) == Held(s, ForAuthorizing, u, t, e);
    }
    if Coupled(s') && MovesRoot(p) {
      forall i | 0 <= i < |p.leaves| && p.leaves[i].key.AccountKey? && !Governed(p, i)
        ensures p.leaves[i].OldSum() == p.leaves[i].NewSum()
      {
        assert CoupledAt(s', d, p.leaves[i].key.who, p.leaves[i].key.token);
      }
    }
  }

  /** With the books coupled every matching account leaf meets the reserve exactly, so the tolerance is not used. */
  lemma ToleranceUnused(s: State, d: Account, ls: seq<Leaf>, i: nat)
    requires d in s.dominators && !IsEvicted(s, d) && Coupled(s) && OldMatches(s.dominators[d].tree, ls)
    requires i < |ls| && ls[i].key.AccountKey?
    ensures Held(s, ForAuthorizing, ls[i].key.who, ls[i].key.token, d) == ls[i].OldSum()
  {
    assert CoupledAt(s, d, ls[i].key.who, ls[i].key.token);
  }

  /** A cancel of the one resting bid, with an account in the slot of the best prices. */
  predicate StrayCase(ls: seq<Leaf>) {
    && |ls| == 5
    && ls[0] == Leaf(BookKey(1, 2), 0, 1, 0, 0)
    && ls[1] == Leaf(AccountKey(1, 5), 0, 0, 0, 0) && ls[2] == Leaf(AccountKey(2, 5), 0, 10, 10, 0)
    && ls[3] == Leaf(AccountKey(2, 6), 0, 0, 7, 0) && ls[4] == Leaf(PageKey(1, 2, 10), 1, 0, 0, 0)
  }

  lemma NoBits(b: nat)
    ensures DisjointBits(0, b)
  {
  }

  lemma StraySlots(ls: seq<Leaf>)
    requires StrayCase(ls)
    ensures IsSymbol(ls[0].key, 1, 2) && IsPage(ls[4].key, 1, 2) && ls[4].Fits()
    ensures Reshuffled(ls[1], 1, 5) && Reshuffled(ls[2], 2, 5)
    ensures ls[4].OldSum() - ls[4].NewSum() == 1 && ls[4].Price() == 10
  {
  }

  lemma StrayCancelOk(ls: seq<Leaf>)
    requires StrayCase(ls)
    ensures CancelOk(1, 2, 5, ls)
  {
    hide DisjointBits, IsSymbol, IsPage, Reshuffled;
    NoBits(1);
    StraySlots(ls);
  }

  lemma StrayLeaf(p: Proof)
    requires StrayCase(p.leaves) && p.cmd == Cancel(1, 2)
    ensures !StraysKeep(p) && DistinctKeys(p.leaves) && MovesRoot(p)
  {
    assert p.leaves[3].OldSum() != p.leaves[3].NewSum() && !Governed(p, 3);
  }

  /** A cancel whose unchecked best-price slot names an account is accepted and breaks the coupling. */
  lemma StrayCancelDecouples(s: State, d: Account, p: Proof, x: Outside)
    requires d in s.dominators && !IsEvicted(s, d) && Coupled(s) && OldMatches(s.dominators[d].tree, p.leaves)
    requires StrayCase(p.leaves) && p.cmd == Cancel(1, 2) && p.user == 5
    ensures var r := VerifyAndUpdate(s, d, p, x); r.Ok? && !Coupled(r.value)
  {
    hide StraysKeep, DistinctKeys, CancelOk, OldMatches, StrayCase, Coupled, MovesRoot, Updated;
    StrayCancelOk(p.leaves);
    StrayLeaf(p);
    ProofCoupling(s, d, p, x);
  }

  // --- runs ---

  /** Pairwise distinct keys, and strays that keep what accounts own. */
  predicate WellFormedProof(p: Proof) {
    DistinctKeys(p.leaves) && StraysKeep(p)
  }

  predicate WellFormed(op: Op) {
    op.Verifying? ==> forall i | 0 <= i < |op.proofs| :: WellFormedProof(op.proofs[i].0)
  }

  lemma {:induction false} BatchCoupled(s: State, d: Account, ps: seq<(Proof, Outside)>)
    requires Coupled(s) && !IsEvicted(s, d) && VerifyBatch(s, d, ps).Ok?
    requires forall i | 0 <= i < |ps| :: WellFormedProof(ps[i].0)
    ensures Coupled(VerifyBatch(s, d, ps).value)
  {
    hide VerifyAndUpdate;
    if ps == [] {
    } else {
      BatchCoupled(s, d, ps[..|ps| - 1]);
      BatchFrame(s, d, ps[..|ps| - 1]);
      ProofCoupling(VerifyBatch(s, d, ps[..|ps| - 1]).value, d, ps[|ps| - 1].0, ps[|ps| - 1].1);
    }
  }

  /** Trees and authorizing reserves as before. */
  lemma SameBooks(s: State, s': State)
    requires Coupled(s)
    requires forall d: Account :: TreeOf(s', d) == TreeOf(s, d) && (IsEvicted(s, d) ==> IsEvicted(s', d))
    requires forall k: RKey | k.bucket == ForAuthorizing :: ReserveAt(s'.reserves, k) == ReserveAt(s.reserves, k)
    ensures Coupled(s')
  {
    forall d: Account, u: Account, t: Token
      ensures IsEvicted(s', d) || CoupledAt(s', d, u, t)
    {
      assert IsEvicted(s, d) || CoupledAt(s, d, u, t);
    }
  }

  lemma RevokeCoupled(s: State, u: Account, d: Account, t: Token, wanted: Option<nat>, callback: bool)
    requires Coupled(s) && RevokeFrom(s, u, d, t, wanted, callback).Ok?
    ensures Coupled(RevokeFrom(s, u, d, t, wanted, callback).value)
  {
    hide RevokeFrom;
    var s' := RevokeFrom(s, u, d, t, wanted, callback).value;
    RevokeElsewhere(s, u, d, t, wanted, callback);
    forall e: Account, w: Account, c: Token
      ensures IsEvicted(s', e) || CoupledAt(s', e, w, c)
    {
      assert IsEvicted(s, e) || CoupledAt(s, e, w, c);
    }
  }

  /** Revoking moves reserves for an evicted dominator only, and none for another. */
  lemma RevokeElsewhere(s: State, u: Account, d: Account, t: Token, wanted: Option<nat>, callback: bool)
    requires RevokeFrom(s, u, d, t, wanted, callback).Ok?
    ensures var s' := RevokeFrom(s, u, d, t, wanted, callback).value;
            && s'.dominators == s.dominators
            && forall k: RKey | k.to != d || !IsEvicted(s, d) :: ReserveAt(s'.reserves, k) == ReserveAt(s.reserves, k)
  {
    hide Unreserve;
    var v := if wanted.Some? then wanted.value else Held(s, ForAuthorizing, u, t, d);
    if v > 0 && s.dominators[d].status == Evicted {
      var ks, ka := RKey(ForStash, u, t, d), RKey(ForAuthorizing, u, t, d);
      var moved := s.reserves[ks := 0][ka := Held(s, ForAuthorizing, u, t, d) + Held(s, ForStash, u, t, d)];
      UnreserveEffect(s.(reserves := moved), ForAuthorizing, u, t, v, d);
    }
  }

  lemma StakeCoupled(s: State, x: Account, d: Account, v: nat)
    requires Coupled(s) && StakeOn(s, x, d, v).Ok?
    ensures Coupled(StakeOn(s, x, d, v).value)
  {
    hide StakeOn, Coupled, ReserveAt, SeasonOf;
    StakeEffect(s, x, d, v);
    SameBooks(s, StakeOn(s, x, d, v).value);
  }

  lemma UnstakeCoupled(s: State, x: Account, d: Account, v: nat)
    requires Coupled(s) && UnstakeFrom(s, x, d, v).Ok?
    ensures Coupled(UnstakeFrom(s, x, d, v).value)
  {
    hide UnstakeFrom, Coupled, ReserveAt, SeasonOf;
    UnstakeEffect(s, x, d, v);
    SameBooks(s, UnstakeFrom(s, x, d, v).value);
  }

  lemma ClaimCoupled(s: State, x: Account, d: Account)
    requires Coupled(s) && ClaimShares(s, x, d).Ok?
    ensures Coupled(ClaimShares(s, x, d).value)
  {
    hide ClaimShares, Coupled, ReserveAt, SeasonOf;
    ClaimEffect(s, x, d);
    SameBooks(s, ClaimShares(s, x, d).value);
  }

  lemma AuthorizeCoupled(s: State, u: Account, d: Account, t: Token, v: nat)
    requires Coupled(s) && AuthorizeTo(s, u, d, t, v).Ok?
    ensures Coupled(AuthorizeTo(s, u, d, t, v).value)
  {
    hide AuthorizeTo, Coupled;
    AuthorizeEffect(s, u, d, t, v);
    SameBooks(s, AuthorizeTo(s, u, d, t, v).value);
  }

  lemma BlockCoupled(s: State, order: seq<Account>)
    requires Coupled(s) && s.cfg.grace > 0
    ensures Coupled(NextBlock(s, order))
  {
    hide NextBlock, Coupled;
    BlockEffect(s, order);
    SameBooks(s, NextBlock(s, order));
  }

  lemma RegistryCoupled(s: State, d: Account, name: Name)
    requires Coupled(s)
    ensures Register(s, d, name).Ok? ==> Coupled(Register(s, d, name).value)
    ensures Evict(s, d).Ok? ==> Coupled(Evict(s, d).value)
    ensures Launch(s, d).Ok? ==> Coupled(Launch(s, d).value)
  {
    hide Coupled;
    if Register(s, d, name).Ok? { SameBooks(s, Register(s, d, name).value); }
    if Evict(s, d).Ok? { SameBooks(s, Evict(s, d).value); }
    if Launch(s, d).Ok? { SameBooks(s, Launch(s, d).value); }
  }

  lemma StepCoupled(s: State, op: Op)
    requires Coupled(s) && s.cfg.grace > 0 && WellFormed(op)
    ensures Coupled(Step(s, op))
  {
    hide VerifyBatch, NextBlock, Coupled, RevokeFrom, AuthorizeTo, StakeOn, UnstakeFrom, ClaimShares, Register, Evict,
         Launch, DrainOrder, KeepsReserved;
    match op
    case Verifying(d, ps) => if Verify(s, d, ps).Ok? { BatchCoupled(s, d, ps); }
    case Revoking(u, d, t, w, c) => if RevokeFrom(s, u, d, t, w, c).Ok? { RevokeCoupled(s, u, d, t, w, c); }
    case Authorizing(u, d, t, v) => if AuthorizeTo(s, u, d, t, v).Ok? { AuthorizeCoupled(s, u, d, t, v); }
    case Staking(x, d, v) => if StakeOn(s, x, d, v).Ok? { StakeCoupled(s, x, d, v); }
    case Unstaking(x, d, v) => if UnstakeFrom(s, x, d, v).Ok? { UnstakeCoupled(s, x, d, v); }
    case Claiming(x, d) => if ClaimShares(s, x, d).Ok? { ClaimCoupled(s, x, d); }
    case Block(order) => BlockCoupled(s, order);
    case Elsewhere(l) => SameBooks(s, Step(s, op));
    case Registering(d, name) => RegistryCoupled(s, d, name);
    case Evicting(d) => RegistryCoupled(s, d, []);
    case Launching(d) => RegistryCoupled(s, d, []);
  }

  /** The coupling over whole runs of well-formed proofs. */
  lemma {:induction false} RunCoupled(cfg: Config, l: Ledger, ops: seq<Op>)
    requires cfg.grace > 0 && forall i | 0 <= i < |ops| :: WellFormed(ops[i])
    ensures Coupled(Run(Genesis(cfg, l), ops))
  {
    hide Step;
    if ops == [] {
    } else {
      RunCoupled(cfg, l, ops[..|ops| - 1]);
      StepCoupled(Run(Genesis(cfg, l), ops[..|ops| - 1]), ops[|ops| - 1]);
    }
  }
}
