/** A dominator set up from genesis: the common beginning of concrete runs. */
module VerifierSetup {
  import opened Arith
  import opened Ledgers
  import opened Wrappers
  import opened VerifierTypes
  import opened ProofChecks
  import opened VerifierState
  import opened VerifierRuns

  /** Every block ends a grace period and a season; one unit of stake is enough. */
  const CFG: Config := Config(1, 1, 1, 1, 0, 0, 0, 99)
  const DOMINATOR: Account := 3
  const STAKER: Account := 7
  const NAME: Name := [65, 66]

  /** The first block, a registration, its launch, and a stake. */
  function Setup(): seq<Op> {
    [Block([]), Registering(DOMINATOR, NAME), Launching(DOMINATOR), Staking(STAKER, DOMINATOR, 1)]
  }

  const AWAY: Outside := Outside(0, true, true)

  /** What deposits and proofs change. */
  datatype View = View(
    ledger: Ledger, reserves: Reserves, tree: Tree, event: nat, receipts: map<(Account, Account), Receipt>)

  function At(v: View): State {
    Genesis(CFG, v.ledger).(
      now := 1, reserves := v.reserves, receipts := v.receipts, stakings := map[(DOMINATOR, STAKER) := Stake(0, 1)],
      dominators := map[DOMINATOR := Dominator(1, v.tree, 1, (v.event, 1), Active, NAME)])
  }

  function Start(l: Ledger): View {
    View(l[(0, STAKER) := Balance(0, 1)], map[RKey(ForStaking, STAKER, 0, DOMINATOR) := 1], map[], 0, map[])
  }

  lemma RunStep(s: State, ops: seq<Op>, i: nat)
    requires i < |ops| && s.cfg.grace > 0
    ensures Run(s, ops[..i + 1]) == Step(Run(s, ops[..i]), ops[i])
  {
    hide Step;
    assert ops[..i + 1][..i] == ops[..i];
  }

  lemma FirstBlock(l: Ledger)
    ensures var g := Genesis(CFG, l); Step(g, Block([])) == g.(now := 1)
  {
    hide StakeOn, UnstakeFrom, ClaimShares, AuthorizeTo, RevokeFrom, VerifyBatch, Register;
    var g := Genesis(CFG, l);
    assert Snapshot(g, 1) == map[];
  }

  lemma Registration(l: Ledger)
    ensures var g := Genesis(CFG, l).(now := 1);
            Step(g, Registering(DOMINATOR, NAME))
            == g.(dominators := map[DOMINATOR := Dominator(0, map[], 1, (0, 1), Registered, NAME)])
  {
    hide StakeOn, UnstakeFrom, ClaimShares, AuthorizeTo, RevokeFrom, VerifyBatch, NextBlock;
  }

  lemma Launched(l: Ledger)
    ensures var g := Genesis(CFG, l).(now := 1);
            Step(g.(dominators := map[DOMINATOR := Dominator(0, map[], 1, (0, 1), Registered, NAME)]),
                 Launching(DOMINATOR))
            == g.(dominators := map[DOMINATOR := Dominator(0, map[], 1, (0, 1), Inactive, NAME)])
  {
    hide StakeOn, UnstakeFrom, ClaimShares, AuthorizeTo, RevokeFrom, VerifyBatch, NextBlock;
  }

  lemma Staked(l: Ledger)
    requires (0, STAKER) in l && l[(0, STAKER)] == Balance(1, 0)
    ensures Step(Genesis(CFG, l).(
                   now := 1, dominators := map[DOMINATOR := Dominator(0, map[], 1, (0, 1), Inactive, NAME)]),
                 Staking(STAKER, DOMINATOR, 1))
            == At(Start(l))
  {
    hide UnstakeFrom, ClaimShares, AuthorizeTo, RevokeFrom, VerifyBatch, NextBlock, TakeShares;
  }

  /** Any run that begins like this has the dominator active after four steps. */
  lemma SetUp(l: Ledger, ops: seq<Op>)
    requires |ops| >= 4 && ops[..4] == Setup()
    requires (0, STAKER) in l && l[(0, STAKER)] == Balance(1, 0)
    ensures Run(Genesis(CFG, l), ops[..4]) == At(Start(l))
  {
    hide Step;
    var g, all := Genesis(CFG, l), Setup();
    assert all[..0] == [] && all[..4] == all;
    RunStep(g, all, 0);
    FirstBlock(l);
    RunStep(g, all, 1);
    Registration(l);
    RunStep(g, all, 2);
    Launched(l);
    RunStep(g, all, 3);
    Staked(l);
  }

  // --- from there on ---

  function Stashing(v: View, u: Account, c: Token, a: nat): View {
    var b, k := BalanceAt(v.ledger, c, u), RKey(ForStash, u, c, DOMINATOR);
    v.(ledger := v.ledger[(c, u) := Balance(if b.free >= a then b.free - a else 0, b.reserved + a)],
       reserves := v.reserves[k := ReserveAt(v.reserves, k) + a],
       receipts := v.receipts[(DOMINATOR, u) := Authorize(c, a, 1)])
  }

  lemma AuthorizeAt(v: View, u: Account, c: Token, a: nat)
    requires (DOMINATOR, u) !in v.receipts && 0 < a <= BalanceAt(v.ledger, c, u).free
    requires BalanceAt(v.ledger, c, u).reserved + a <= U128_MAX
    requires ReserveAt(v.reserves, RKey(ForStash, u, c, DOMINATOR)) + a <= U128_MAX
    ensures Step(At(v), Authorizing(u, DOMINATOR, c, a)) == At(Stashing(v, u, c, a))
  {
    hide StakeOn, UnstakeFrom, ClaimShares, RevokeFrom, VerifyBatch, NextBlock, BalanceAt, ReserveAt;
  }

  lemma SingleProof(s: State, d: Account, p: Proof, x: Outside)
    requires d in s.dominators
    ensures VerifyBatch(s, d, [(p, x)]) == VerifyAndUpdate(s, d, p, x)
  {
    hide VerifyAndUpdate;
    assert [(p, x)][..0] == [];
    assert VerifyBatch(s, d, []) == Ok(s);
  }

  lemma OneDominator(x: Dominator, y: Dominator)
    ensures map[DOMINATOR := x][DOMINATOR := y] == map[DOMINATOR := y]
  {
  }

  /** A batch of one proof whose execution is known. */
  lemma ProofAt(v: View, p: Proof, v': View, moves: bool)
    requires OldMatches(v.tree, p.leaves) && Execute(At(v), DOMINATOR, p, AWAY) == Ok((At(v'), moves))
    requires v'.tree == v.tree && v'.event == v.event
    ensures Step(At(v), Verifying(DOMINATOR, [(p, AWAY)]))
            == At(if moves then v'.(tree := Updated(v.tree, p.leaves), event := p.eventId) else v')
  {
    hide StakeOn, UnstakeFrom, ClaimShares, RevokeFrom, AuthorizeTo, VerifyBatch, NextBlock, Execute, OldMatches,
         Updated;
    SingleProof(At(v), DOMINATOR, p, AWAY);
    OneDominator(At(v).dominators[DOMINATOR],
                 Dominator(1, Updated(v.tree, p.leaves), 1, (p.eventId, 1), Active, NAME));
    assert VerifyAndUpdate(At(v), DOMINATOR, p, AWAY)
        == Ok(At(if moves then v'.(tree := Updated(v.tree, p.leaves), event := p.eventId) else v'));
  }

  // --- deposits ---

  function Rejected(e: nat, u: Account): Proof {
    Proof(e, u, RejectTransferIn, [], 0, 0)
  }

  lemma RejectAt(v: View, e: nat, u: Account)
    requires (DOMINATOR, u) in v.receipts && v.receipts[(DOMINATOR, u)].Authorize?
    ensures Step(At(v), Verifying(DOMINATOR, [(Rejected(e, u), AWAY)]))
            == At(v.(receipts := v.receipts - {(DOMINATOR, u)}))
  {
    hide Step;
    ProofAt(v, Rejected(e, u), v.(receipts := v.receipts - {(DOMINATOR, u)}), false);
  }

  /** The accepted deposit of an account that owns nothing yet. */
  function EnteredLeaf(u: Account, c: Token, a: u128): Leaf {
    Leaf(AccountKey(c, u), 0, 0, a, 0)
  }

  function Entered(e: nat, u: Account, c: Token, a: u128): Proof {
    Proof(e, u, TransferIn(c, a), [EnteredLeaf(u, c, a)], 0, 0)
  }

  function Entering(v: View, e: nat, u: Account, c: Token, a: u128): View {
    v.(reserves := v.reserves[RKey(ForStash, u, c, DOMINATOR) := 0][RKey(ForAuthorizing, u, c, DOMINATOR) := a],
       receipts := v.receipts - {(DOMINATOR, u)}, tree := v.tree[AccountKey(c, u) := (a, 0)], event := e)
  }

  lemma EnterExecutes(v: View, e: nat, u: Account, c: Token, a: u128)
    requires (DOMINATOR, u) in v.receipts && v.receipts[(DOMINATOR, u)] == Authorize(c, a, 1)
    requires ReserveAt(v.reserves, RKey(ForAuthorizing, u, c, DOMINATOR)) == 0
    ensures Execute(At(v), DOMINATOR, Entered(e, u, c, a), AWAY)
            == Ok((At(Entering(v, e, u, c, a).(tree := v.tree, event := v.event)), true))
  {
    hide SettleOrder, ReserveAt;
    assert TransferInOk(c, a, u, Entered(e, u, c, a).leaves);
  }

  lemma EnterAt(v: View, e: nat, u: Account, c: Token, a: u128)
    requires (DOMINATOR, u) in v.receipts && v.receipts[(DOMINATOR, u)] == Authorize(c, a, 1)
    requires ReserveAt(v.reserves, RKey(ForAuthorizing, u, c, DOMINATOR)) == 0
    requires TreeAt(v.tree, AccountKey(c, u)) == (0, 0)
    ensures Step(At(v), Verifying(DOMINATOR, [(Entered(e, u, c, a), AWAY)])) == At(Entering(v, e, u, c, a))
  {
    hide Step, Execute;
    EnterExecutes(v, e, u, c, a);
    OneUpdate(v.tree, EnteredLeaf(u, c, a));
    ProofAt(v, Entered(e, u, c, a), Entering(v, e, u, c, a).(tree := v.tree, event := v.event), true);
  }

  lemma OneUpdate(t: Tree, l: Leaf)
    ensures Updated(t, [l]) == t[l.key := (l.newL, l.newR)]
  {
    assert [l][..0] == [];
    assert Updated(t, []) == t;
  }

  // --- resting orders ---

  /** An order without counterpart: book, both accounts of its owner, best prices, page. */
  function Resting(e: nat, o: Order, ask: bool, ls: seq<Leaf>): Proof {
    Proof(e, 0, if ask then AskLimit(o, None) else BidLimit(o, None), ls, 1, 0)
  }

  /** Placing moves no reserve, it only writes the entries of its owner anew. */
  function Placing(v: View, e: nat, u: Account, o: Order, ls: seq<Leaf>): View {
    var kb, kq := RKey(ForAuthorizing, u, o.base, DOMINATOR), RKey(ForAuthorizing, u, o.quote, DOMINATOR);
    v.(ledger := v.ledger[(o.base, u) := BalanceAt(v.ledger, o.base, u)]
                         [(o.quote, u) := BalanceAt(v.ledger, o.quote, u)],
       reserves := v.reserves[kb := ReserveAt(v.reserves, kb)][kq := ReserveAt(v.reserves, kq)],
       tree := Updated(v.tree, ls), event := e)
  }

  /** Account leaves of `u` whose sums stay what is authorized and fit into the reserved balance. */
  ghost predicate Unmoved(v: View, u: Account, c: Token, l: Leaf) {
    && l.key == AccountKey(c, u) && l.NewSum() == ReserveAt(v.reserves, RKey(ForAuthorizing, u, c, DOMINATOR))
    && l.NewSum() <= BalanceAt(v.ledger, c, u).reserved <= U128_MAX
  }

  lemma ClearUnmoved(v: View, u: Account, c: Token, l: Leaf)
    requires Unmoved(v, u, c, l)
    ensures Clear(At(v), u, DOMINATOR, c, l.NewSum())
            == Ok(At(v.(ledger := v.ledger[(c, u) := BalanceAt(v.ledger, c, u)],
                        reserves := v.reserves[RKey(ForAuthorizing, u, c, DOMINATOR) := l.NewSum()])))
  {
  }

  lemma PlaceClears(v: View, e: nat, u: Account, o: Order, ls: seq<Leaf>)
    requires |ls| == 5 && o.base != o.quote && Unmoved(v, u, o.base, ls[1]) && Unmoved(v, u, o.quote, ls[2])
    ensures ClearLeaves(At(v), DOMINATOR, ls[1..3])
            == Ok(At(Placing(v, e, u, o, ls).(tree := v.tree, event := v.event)))
  {
    hide Clear;
    var slots := ls[1..3];
    var k := RKey(ForAuthorizing, u, o.base, DOMINATOR);
    var v1 := v.(ledger := v.ledger[(o.base, u) := BalanceAt(v.ledger, o.base, u)],
                 reserves := v.reserves[k := ReserveAt(v.reserves, k)]);
    assert slots[..1] == [ls[1]] && [ls[1]][..0] == [] && slots[1] == ls[2];
    ClearUnmoved(v, u, o.base, ls[1]);
    ClearUnmoved(v1, u, o.quote, ls[2]);
    assert ClearLeaves(At(v), DOMINATOR, []) == Ok(At(v));
    assert ClearLeaves(At(v), DOMINATOR, [ls[1]]) == Ok(At(v1));
  }

  lemma PlaceSettles(v: View, e: nat, u: Account, o: Order, ask: bool, ls: seq<Leaf>)
    requires |ls| == 5 && o.base != o.quote && Unmoved(v, u, o.base, ls[1]) && Unmoved(v, u, o.quote, ls[2])
    requires o.makerFee == 0 && o.takerFee == 0 && Accepts(v.reserves, DOMINATOR, o, Resting(e, o, ask, ls), ask)
    ensures SettleOrder(At(v), DOMINATOR, o, None, ask, Resting(e, o, ask, ls), AWAY)
            == Ok(At(Placing(v, e, u, o, ls).(tree := v.tree, event := v.event)))
  {
    hide Accepts, ClearLeaves, MulCeil, Placing, Unmoved;
    PlaceClears(v, e, u, o, ls);
    NoFees(o, Resting(e, o, ask, ls), ask);
  }

  lemma NoFees(o: Order, p: Proof, ask: bool)
    requires o.makerFee == 0 && o.takerFee == 0 && p.makers == 0 && |p.leaves| == 5
    ensures ClearingOf(o, p.leaves, p.makers, ask).baseFee == 0 && ClearingOf(o, p.leaves, p.makers, ask).quoteFee == 0
  {
    hide Traded, Mutations, TakerMutationOf;
  }

  lemma PlaceAt(v: View, e: nat, u: Account, o: Order, ask: bool, ls: seq<Leaf>)
    requires |ls| == 5 && o.base != o.quote && Unmoved(v, u, o.base, ls[1]) && Unmoved(v, u, o.quote, ls[2])
    requires o.makerFee == 0 && o.takerFee == 0 && Accepts(v.reserves, DOMINATOR, o, Resting(e, o, ask, ls), ask)
    requires OldMatches(v.tree, ls)
    ensures Step(At(v), Verifying(DOMINATOR, [(Resting(e, o, ask, ls), AWAY)])) == At(Placing(v, e, u, o, ls))
  {
    hide Step, Accepts, SettleOrder, Unmoved, OldMatches;
    PlaceSettles(v, e, u, o, ask, ls);
    ProofAt(v, Resting(e, o, ask, ls), Placing(v, e, u, o, ls).(tree := v.tree, event := v.event), true);
  }
}
