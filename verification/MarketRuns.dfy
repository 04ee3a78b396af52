/** Runs from genesis that lead to the states in which a proof is accepted although it does not keep what its leaves
    promise: a cancel with a stray account, a cancel of both sides, a partly filled ask and a bid off its walk. */
module MarketRuns {
  import opened Arith
  import opened Ledgers
  import opened Wrappers
  import opened VerifierTypes
  import opened ProofChecks
  import opened VerifierState
  import opened VerifierRuns
  import opened VerifierSetup
  import opened Coupling
  import opened PageWalk

  // --- a deposit in two steps ---

  function Deposit(e: nat, u: Account, c: Token, a: u128): seq<Op> {
    [Authorizing(u, DOMINATOR, c, a), Verifying(DOMINATOR, [(Entered(e, u, c, a), AWAY)])]
  }

  function Deposited(v: View, e: nat, u: Account, c: Token, a: u128): View {
    Entering(Stashing(v, u, c, a), e, u, c, a)
  }

  /** Nothing of `c` is reserved or owned by `u` yet. */
  predicate Untouched(v: View, u: Account, c: Token, a: u128) {
    && BalanceAt(v.ledger, c, u) == Balance(a, 0) && (DOMINATOR, u) !in v.receipts && a > 0
    && ReserveAt(v.reserves, RKey(ForStash, u, c, DOMINATOR)) == 0
    && ReserveAt(v.reserves, RKey(ForAuthorizing, u, c, DOMINATOR)) == 0
    && TreeAt(v.tree, AccountKey(c, u)) == (0, 0)
  }

  lemma DepositAt(v: View, e: nat, u: Account, c: Token, a: u128)
    requires Untouched(v, u, c, a)
    ensures Step(Step(At(v), Authorizing(u, DOMINATOR, c, a)), Verifying(DOMINATOR, [(Entered(e, u, c, a), AWAY)]))
            == At(Deposited(v, e, u, c, a))
  {
    hide Step, At;
    AuthorizeAt(v, u, c, a);
    EnterAt(Stashing(v, u, c, a), e, u, c, a);
  }

  // --- resting orders ---

  /** The prices the best-price leaf moves between, ask and bid. */
  datatype Best = Best(ask: u128, bid: u128)

  /** All of `funds` in quote becomes frozen; the book grows to `bids`. */
  function BidLeaves(u: Account, o: Order, asks: u128, was: u128, bids: u128, best: Best, funds: u128): seq<Leaf> {
    [Leaf(BookKey(o.base, o.quote), asks, was, asks, bids),
     Leaf(AccountKey(o.base, u), 0, 0, 0, 0), Leaf(AccountKey(o.quote, u), funds, 0, 0, funds),
     Leaf(BestKey(o.base, o.quote), best.ask, best.bid, best.ask, o.price),
     Leaf(PageKey(o.base, o.quote, o.price), 0, 0, o.amount, 0)]
  }

  /** All of the amount in base becomes frozen; the book grows to `asks`. */
  function AskLeaves(u: Account, o: Order, was: u128, asks: u128, bids: u128, best: Best): seq<Leaf> {
    [Leaf(BookKey(o.base, o.quote), was, bids, asks, bids),
     Leaf(AccountKey(o.base, u), o.amount, 0, 0, o.amount), Leaf(AccountKey(o.quote, u), 0, 0, 0, 0),
     Leaf(BestKey(o.base, o.quote), best.ask, best.bid, o.price, best.bid),
     Leaf(PageKey(o.base, o.quote, o.price), 0, 0, o.amount, 0)]
  }

  predicate Free(o: Order) {
    o.makerFee == 0 && o.takerFee == 0 && o.base != o.quote && o.amount > 0
  }

  /** What `u` has authorized and reserved in one token. */
  predicate Backs(v: View, u: Account, c: Token, a: nat) {
    && ReserveAt(v.reserves, RKey(ForAuthorizing, u, c, DOMINATOR)) == a
    && a <= BalanceAt(v.ledger, c, u).reserved <= U128_MAX
  }

  lemma BidRests(
    r: Reserves, e: nat, u: Account, o: Order, asks: u128, was: u128, bids: u128, best: Best, funds: u128)
    requires Free(o) && bids == was + o.amount
    requires ReserveAt(r, RKey(ForAuthorizing, u, o.base, DOMINATOR)) == 0
    requires ReserveAt(r, RKey(ForAuthorizing, u, o.quote, DOMINATOR)) == funds
    ensures Accepts(r, DOMINATOR, o, Resting(e, o, false, BidLeaves(u, o, asks, was, bids, best, funds)), false)
  {
    hide ReserveAt, MulCeil;
    var ls := BidLeaves(u, o, asks, was, bids, best, funds);
    NoFee(0);
    assert ls[4..] == [ls[4]] && Pages(ls, 0) == [ls[4]];
    assert BidMoney(r, DOMINATOR, o, ls, 0) && BidWalk(o, ls, 0, 1);
  }

  lemma AskRests(r: Reserves, e: nat, u: Account, o: Order, was: u128, asks: u128, bids: u128, best: Best)
    requires Free(o) && asks == was + o.amount && o.price > best.bid
    requires ReserveAt(r, RKey(ForAuthorizing, u, o.base, DOMINATOR)) == o.amount
    requires ReserveAt(r, RKey(ForAuthorizing, u, o.quote, DOMINATOR)) == 0
    ensures Accepts(r, DOMINATOR, o, Resting(e, o, true, AskLeaves(u, o, was, asks, bids, best)), true)
  {
    hide ReserveAt, MulCeil;
    var ls := AskLeaves(u, o, was, asks, bids, best);
    NoFee(0);
    assert ls[4..] == [ls[4]] && Pages(ls, 0) == [ls[4]];
    assert AskMoney(r, DOMINATOR, o, ls, 0) && AskWalk(o, ls, 0, 1);
  }

  lemma BidAt(
    v: View, e: nat, u: Account, o: Order, asks: u128, was: u128, bids: u128, best: Best, funds: u128)
    requires Free(o) && bids == was + o.amount && Backs(v, u, o.base, 0) && Backs(v, u, o.quote, funds)
    requires OldMatches(v.tree, BidLeaves(u, o, asks, was, bids, best, funds))
    ensures var ls := BidLeaves(u, o, asks, was, bids, best, funds);
            Step(At(v), Verifying(DOMINATOR, [(Resting(e, o, false, ls), AWAY)])) == At(Placing(v, e, u, o, ls))
  {
    hide Step, At, Accepts, OldMatches;
    BidRests(v.reserves, e, u, o, asks, was, bids, best, funds);
    PlaceAt(v, e, u, o, false, BidLeaves(u, o, asks, was, bids, best, funds));
  }

  lemma AskAt(v: View, e: nat, u: Account, o: Order, was: u128, asks: u128, bids: u128, best: Best)
    requires Free(o) && asks == was + o.amount && o.price > best.bid
    requires Backs(v, u, o.base, o.amount) && Backs(v, u, o.quote, 0)
    requires OldMatches(v.tree, AskLeaves(u, o, was, asks, bids, best))
    ensures var ls := AskLeaves(u, o, was, asks, bids, best);
            Step(At(v), Verifying(DOMINATOR, [(Resting(e, o, true, ls), AWAY)])) == At(Placing(v, e, u, o, ls))
  {
    hide Step, At, Accepts, OldMatches;
    AskRests(v.reserves, e, u, o, was, asks, bids, best);
    PlaceAt(v, e, u, o, true, AskLeaves(u, o, was, asks, bids, best));
  }

  // --- trees and reserves after orders ---

  lemma UpdatedMore(t: Tree, ls: seq<Leaf>, l: Leaf)
    ensures Updated(t, ls + [l]) == Updated(t, ls)[l.key := (l.newL, l.newR)]
  {
    assert (ls + [l])[..|ls|] == ls;
  }

  lemma FiveUpdates(t: Tree, a: Leaf, b: Leaf, c: Leaf, d: Leaf, e: Leaf)
    ensures Updated(t, [a, b, c, d, e])
            == t[a.key := (a.newL, a.newR)][b.key := (b.newL, b.newR)][c.key := (c.newL, c.newR)]
                [d.key := (d.newL, d.newR)][e.key := (e.newL, e.newR)]
  {
    hide Updated;
    OneUpdate(t, a);
    UpdatedMore(t, [a], b);
    UpdatedMore(t, [a, b], c);
    UpdatedMore(t, [a, b, c], d);
    UpdatedMore(t, [a, b, c, d], e);
    assert [a] + [b] == [a, b] && [a, b] + [c] == [a, b, c] && [a, b, c] + [d] == [a, b, c, d];
    assert [a, b, c, d] + [e] == [a, b, c, d, e];
  }

  /** A placed order leaves reserves and balances as they were and writes its five leaves. */
  lemma PlacedIs(v: View, e: nat, u: Account, o: Order, ls: seq<Leaf>)
    requires |ls| == 5
    ensures var v' := Placing(v, e, u, o, ls);
            && v'.receipts == v.receipts
            && (forall k: Key :: TreeAt(v'.tree, k)
                  == if k == ls[4].key then (ls[4].newL, ls[4].newR)
                     else if k == ls[3].key then (ls[3].newL, ls[3].newR)
                     else if k == ls[2].key then (ls[2].newL, ls[2].newR)
                     else if k == ls[1].key then (ls[1].newL, ls[1].newR)
                     else if k == ls[0].key then (ls[0].newL, ls[0].newR)
                     else TreeAt(v.tree, k))
            && (forall k: RKey :: ReserveAt(v'.reserves, k) == ReserveAt(v.reserves, k))
            && (forall c: Token, a: Account :: BalanceAt(v'.ledger, c, a) == BalanceAt(v.ledger, c, a))
  {
    hide Updated;
    assert ls == [ls[0], ls[1], ls[2], ls[3], ls[4]];
    FiveUpdates(v.tree, ls[0], ls[1], ls[2], ls[3], ls[4]);
  }

  /** What a deposit changes. */
  lemma DepositedIs(v: View, e: nat, u: Account, c: Token, a: u128)
    requires Untouched(v, u, c, a)
    ensures var v' := Deposited(v, e, u, c, a);
            && v'.receipts == v.receipts
            && (forall k: Key :: TreeAt(v'.tree, k) == if k == AccountKey(c, u) then (a, 0) else TreeAt(v.tree, k))
            && (forall k: RKey :: ReserveAt(v'.reserves, k)
                  == if k == RKey(ForAuthorizing, u, c, DOMINATOR) then a else ReserveAt(v.reserves, k))
            && (forall d: Token, b: Account :: BalanceAt(v'.ledger, d, b)
                  == if d == c && b == u then Balance(0, a) else BalanceAt(v.ledger, d, b))
  {
  }

  /** Where each run begins: nothing reserved but the stake, an empty tree, no receipts. */
  lemma StartIs(l: Ledger)
    ensures Start(l).receipts == map[] && forall k: Key :: TreeAt(Start(l).tree, k) == (0, 0)
    ensures forall k: RKey | k.bucket != ForStaking :: ReserveAt(Start(l).reserves, k) == 0
    ensures forall c: Token, a: Account | a != STAKER :: BalanceAt(Start(l).ledger, c, a) == BalanceAt(l, c, a)
  {
  }

  // --- a bid, and the cancel that strays ---

  const STRAY_LEDGER: Ledger := map[(0, STAKER) := Balance(1, 0), (2, 5) := Balance(10, 0)]
  const STRAY_BID: Order := Order(10, 1, 0, 0, 1, 2)

  function StrayBid(): seq<Leaf> {
    BidLeaves(5, STRAY_BID, 0, 0, 1, Best(0, 0), 10)
  }

  /** Account 5 deposits ten units of quote and bids for one unit at ten. */
  function StrayRun(): seq<Op> {
    Setup() + Deposit(1, 5, 2, 10) + [Verifying(DOMINATOR, [(Resting(2, STRAY_BID, false, StrayBid()), AWAY)])]
  }

  function StrayFunded(): View {
    Deposited(Start(STRAY_LEDGER), 1, 5, 2, 10)
  }

  lemma StrayFunds()
    ensures Untouched(Start(STRAY_LEDGER), 5, 2, 10)
    ensures Backs(StrayFunded(), 5, 1, 0) && Backs(StrayFunded(), 5, 2, 10)
    ensures OldMatches(StrayFunded().tree, StrayBid())
  {
    hide Start, Deposited, ReserveAt, BalanceAt, TreeAt;
    StartIs(STRAY_LEDGER);
    FreeUnits();
    DepositedIs(Start(STRAY_LEDGER), 1, 5, 2, 10);
  }

  lemma FreeUnits()
    ensures BalanceAt(STRAY_LEDGER, 2, 5) == Balance(10, 0) && BalanceAt(STRAY_LEDGER, 1, 5) == Balance(0, 0)
  {
  }

  lemma RunDeposit(g: State, ops: seq<Op>, i: nat, v: View, e: nat, u: Account, c: Token, a: u128)
    requires g.cfg.grace > 0 && i + 2 <= |ops| && ops[i..i + 2] == Deposit(e, u, c, a)
    requires Run(g, ops[..i]) == At(v) && Untouched(v, u, c, a)
    ensures Run(g, ops[..i + 2]) == At(Deposited(v, e, u, c, a))
  {
    hide Step, At, Run, Deposited, Untouched;
    assert ops[i] == ops[i..i + 2][0] && ops[i + 1] == ops[i..i + 2][1];
    RunStep(g, ops, i);
    RunStep(g, ops, i + 1);
    DepositAt(v, e, u, c, a);
  }

  lemma StraySteps()
    ensures Run(Genesis(CFG, STRAY_LEDGER), StrayRun()) == At(Placing(StrayFunded(), 2, 5, STRAY_BID, StrayBid()))
  {
    hide Step, At, Run, Placing, OldMatches, Start, Deposited, Untouched, Backs;
    var g, ops := Genesis(CFG, STRAY_LEDGER), StrayRun();
    assert ops[..4] == Setup() && ops[4..6] == Deposit(1, 5, 2, 10) && ops[..7] == ops;
    StrayFunds();
    SetUp(STRAY_LEDGER, ops);
    RunDeposit(g, ops, 4, Start(STRAY_LEDGER), 1, 5, 2, 10);
    RunStep(g, ops, 6);
    BidAt(StrayFunded(), 2, 5, STRAY_BID, 0, 0, 1, Best(0, 0), 10);
  }

  function StrayLeaves(): (ls: seq<Leaf>)
    ensures StrayCase(ls)
  {
    [Leaf(BookKey(1, 2), 0, 1, 0, 0), Leaf(AccountKey(1, 5), 0, 0, 0, 0), Leaf(AccountKey(2, 5), 0, 10, 10, 0),
     Leaf(AccountKey(2, 6), 0, 0, 7, 0), Leaf(PageKey(1, 2, 10), 1, 0, 0, 0)]
  }

  function StrayCancel(): Proof {
    Proof(3, 5, Cancel(1, 2), StrayLeaves(), 1, 0)
  }

  lemma StrayTree()
    ensures OldMatches(Placing(StrayFunded(), 2, 5, STRAY_BID, StrayBid()).tree, StrayLeaves())
  {
    hide Placing, Start, Deposited, TreeAt;
    StartIs(STRAY_LEDGER);
    StrayFunds();
    DepositedIs(Start(STRAY_LEDGER), 1, 5, 2, 10);
    PlacedIs(StrayFunded(), 2, 5, STRAY_BID, StrayBid());
  }

  lemma DepositWellFormed(e: nat, u: Account, c: Token, a: u128)
    ensures forall op | op in Deposit(e, u, c, a) :: WellFormed(op)
  {
  }

  lemma BidWellFormed(
    e: nat, u: Account, o: Order, asks: u128, was: u128, bids: u128, best: Best, funds: u128)
    requires o.base != o.quote
    ensures WellFormed(
              Verifying(DOMINATOR, [(Resting(e, o, false, BidLeaves(u, o, asks, was, bids, best, funds)), AWAY)]))
  {
  }

  lemma StrayRunCoupled()
    ensures Coupled(Run(Genesis(CFG, STRAY_LEDGER), StrayRun()))
  {
    hide Run, Coupled, WellFormed;
    DepositWellFormed(1, 5, 2, 10);
    BidWellFormed(2, 5, STRAY_BID, 0, 0, 1, Best(0, 0), 10);
    SetupWellFormed();
    forall i | 0 <= i < |StrayRun()|
      ensures WellFormed(StrayRun()[i])
    {
      if 4 <= i < 6 {
        assert StrayRun()[i] == Deposit(1, 5, 2, 10)[i - 4];
      }
    }
    RunCoupled(CFG, STRAY_LEDGER, StrayRun());
  }

  lemma SetupWellFormed()
    ensures forall op | op in Setup() :: WellFormed(op)
  {
  }

  lemma StrayStep(s: State)
    requires s == At(Placing(StrayFunded(), 2, 5, STRAY_BID, StrayBid())) && Coupled(s)
    ensures !Coupled(Step(s, Verifying(DOMINATOR, [(StrayCancel(), AWAY)])))
  {
    hide Coupled, Placing, OldMatches, VerifyAndUpdate, VerifyBatch, StakeOn, UnstakeFrom, ClaimShares, RevokeFrom,
         AuthorizeTo, NextBlock;
    StrayTree();
    StrayCancelDecouples(s, DOMINATOR, StrayCancel(), AWAY);
    SingleProof(s, DOMINATOR, StrayCancel(), AWAY);
  }

  /** A run from genesis, well formed but for its last proof, that ends with books no longer coupled. */
  lemma StrayReached()
    ensures Coupled(Run(Genesis(CFG, STRAY_LEDGER), StrayRun()))
    ensures !Coupled(Run(Genesis(CFG, STRAY_LEDGER), StrayRun() + [Verifying(DOMINATOR, [(StrayCancel(), AWAY)])]))
  {
    hide Run, Coupled, Step, At, Placing;
    StraySteps();
    StrayRunCoupled();
    StrayStep(At(Placing(StrayFunded(), 2, 5, STRAY_BID, StrayBid())));
    var ops := StrayRun() + [Verifying(DOMINATOR, [(StrayCancel(), AWAY)])];
    assert ops[..7] == StrayRun() && ops[..8] == ops;
    RunStep(Genesis(CFG, STRAY_LEDGER), ops, 7);
  }

  // --- a bid for two units, and the ask that takes one ---

  const PARTIAL_LEDGER: Ledger :=
    map[(0, STAKER) := Balance(1, 0), (2, 6) := Balance(20, 0), (1, 5) := Balance(5, 0)]
  const PARTIAL_BID: Order := Order(10, 2, 0, 0, 1, 2)

  function PartialBid(): seq<Leaf> {
    BidLeaves(6, PARTIAL_BID, 0, 0, 2, Best(0, 0), 20)
  }

  function PartialRun(): seq<Op> {
    Setup() + Deposit(1, 6, 2, 20) + [Verifying(DOMINATOR, [(Resting(2, PARTIAL_BID, false, PartialBid()), AWAY)])]
    + Deposit(3, 5, 1, 5)
  }

  function PartialFunded(): View {
    Deposited(Start(PARTIAL_LEDGER), 1, 6, 2, 20)
  }

  function PartialPlaced(): View {
    Placing(PartialFunded(), 2, 6, PARTIAL_BID, PartialBid())
  }

  lemma PartialLedger()
    ensures BalanceAt(PARTIAL_LEDGER, 2, 6) == Balance(20, 0) && BalanceAt(PARTIAL_LEDGER, 1, 6) == Balance(0, 0)
    ensures BalanceAt(PARTIAL_LEDGER, 1, 5) == Balance(5, 0)
  {
  }

  lemma PartialFunds()
    ensures Untouched(Start(PARTIAL_LEDGER), 6, 2, 20)
    ensures Backs(PartialFunded(), 6, 1, 0) && Backs(PartialFunded(), 6, 2, 20)
    ensures OldMatches(PartialFunded().tree, PartialBid())
    ensures Untouched(PartialPlaced(), 5, 1, 5)
  {
    hide Start, Deposited, Placing, ReserveAt, BalanceAt, TreeAt;
    StartIs(PARTIAL_LEDGER);
    PartialLedger();
    DepositedIs(Start(PARTIAL_LEDGER), 1, 6, 2, 20);
    PlacedIs(PartialFunded(), 2, 6, PARTIAL_BID, PartialBid());
  }

  lemma PartialSteps()
    ensures Run(Genesis(CFG, PARTIAL_LEDGER), PartialRun()) == At(Deposited(PartialPlaced(), 3, 5, 1, 5))
  {
    hide Step, At, Run, Placing, OldMatches, Start, Deposited, Untouched, Backs;
    var g, ops := Genesis(CFG, PARTIAL_LEDGER), PartialRun();
    assert ops[..4] == Setup() && ops[4..6] == Deposit(1, 6, 2, 20) && ops[7..9] == Deposit(3, 5, 1, 5);
    assert ops[..9] == ops;
    PartialFunds();
    SetUp(PARTIAL_LEDGER, ops);
    RunDeposit(g, ops, 4, Start(PARTIAL_LEDGER), 1, 6, 2, 20);
    RunStep(g, ops, 6);
    BidAt(PartialFunded(), 2, 6, PARTIAL_BID, 0, 0, 2, Best(0, 0), 20);
    RunDeposit(g, ops, 7, PartialPlaced(), 3, 5, 1, 5);
  }

  function PartialLeaves(): (ls: seq<Leaf>)
    ensures PartialCase(ls)
  {
    [Leaf(BookKey(1, 2), 0, 2, 4, 1),
     Leaf(AccountKey(1, 6), 0, 0, 1, 0), Leaf(AccountKey(2, 6), 0, 20, 0, 10),
     Leaf(AccountKey(1, 5), 5, 0, 0, 4), Leaf(AccountKey(2, 5), 0, 0, 10, 0),
     Leaf(BestKey(1, 2), 0, 10, 10, 0), Leaf(PageKey(1, 2, 10), 2, 0, 3, 0)]
  }

  lemma PartialState(v: View)
    requires v == Deposited(PartialPlaced(), 3, 5, 1, 5)
    ensures OldMatches(v.tree, PartialLeaves()) && Authorized(v.reserves, DOMINATOR, (0, 20), (5, 0))
  {
    hide Start, Deposited, Placing, ReserveAt, BalanceAt, TreeAt;
    StartIs(PARTIAL_LEDGER);
    PartialFunds();
    DepositedIs(Start(PARTIAL_LEDGER), 1, 6, 2, 20);
    PlacedIs(PartialFunded(), 2, 6, PARTIAL_BID, PartialBid());
    DepositedIs(PartialPlaced(), 3, 5, 1, 5);
  }

  /** A run from genesis after which the ask that takes two units off the page and one off the book is acceptable. */
  lemma PartialReached()
    ensures var s := Run(Genesis(CFG, PARTIAL_LEDGER), PartialRun());
            && OldMatches(TreeOf(s, DOMINATOR), PartialLeaves())
            && AskAccepts(s.reserves, DOMINATOR, PARTIAL_ORDER, 2, 1, PartialLeaves())
  {
    hide Run, Placing, Deposited, OldMatches, AskAccepts, Untouched, Authorized;
    PartialSteps();
    PartialState(Deposited(PartialPlaced(), 3, 5, 1, 5));
    PartialAskMismatch(Run(Genesis(CFG, PARTIAL_LEDGER), PartialRun()).reserves, DOMINATOR, PartialLeaves());
  }

  // --- an ask at ten, a bid below it, and what both allow ---

  const ASK: Order := Order(10, 1, 0, 0, 1, 2)

  /** One unit offered at ten by `seller`, then `amount` asked for at `price` by `buyer`, all funds frozen. */
  function AskFirst(seller: Account): seq<Leaf> {
    AskLeaves(seller, ASK, 0, 1, 0, Best(0, 0))
  }

  function BidNext(buyer: Account, price: u128, amount: u128, funds: u128): seq<Leaf> {
    BidLeaves(buyer, Order(price, amount, 0, 0, 1, 2), 1, 0, amount, Best(10, 0), funds)
  }

  function SpreadRun(seller: Account, buyer: Account, price: u128, amount: u128, funds: u128): seq<Op> {
    Setup() + Deposit(1, seller, 1, 1)
    + [Verifying(DOMINATOR, [(Resting(2, ASK, true, AskFirst(seller)), AWAY)])]
    + Deposit(3, buyer, 2, funds)
    + [Verifying(DOMINATOR,
         [(Resting(4, Order(price, amount, 0, 0, 1, 2), false, BidNext(buyer, price, amount, funds)), AWAY)])]
  }

  function Offered(l: Ledger, seller: Account): View {
    Placing(Deposited(Start(l), 1, seller, 1, 1), 2, seller, ASK, AskFirst(seller))
  }

  function Wanted(l: Ledger, seller: Account, buyer: Account, price: u128, amount: u128, funds: u128): View {
    Placing(Deposited(Offered(l, seller), 3, buyer, 2, funds), 4, buyer, Order(price, amount, 0, 0, 1, 2),
            BidNext(buyer, price, amount, funds))
  }

  lemma OfferedIs(l: Ledger, seller: Account)
    requires seller != STAKER && BalanceAt(l, 1, seller) == Balance(1, 0) && BalanceAt(l, 2, seller) == Balance(0, 0)
    ensures Untouched(Start(l), seller, 1, 1)
    ensures var v := Deposited(Start(l), 1, seller, 1, 1);
            Backs(v, seller, 1, 1) && Backs(v, seller, 2, 0) && OldMatches(v.tree, AskFirst(seller))
    ensures var v := Offered(l, seller);
            && v.receipts == map[]
            && TreeAt(v.tree, BookKey(1, 2)) == (1, 0) && TreeAt(v.tree, BestKey(1, 2)) == (10, 0)
            && TreeAt(v.tree, PageKey(1, 2, 10)) == (1, 0) && TreeAt(v.tree, AccountKey(1, seller)) == (0, 1)
            && (forall k: Key | k != BookKey(1, 2) && k != BestKey(1, 2) && k != PageKey(1, 2, 10)
                                && k != AccountKey(1, seller) :: TreeAt(v.tree, k) == (0, 0))
            && (forall k: RKey | k.bucket != ForStaking :: ReserveAt(v.reserves, k)
                  == if k == RKey(ForAuthorizing, seller, 1, DOMINATOR) then 1 else 0)
            && (forall c: Token, a: Account | a != STAKER :: BalanceAt(v.ledger, c, a)
                  == if c == 1 && a == seller then Balance(0, 1) else BalanceAt(l, c, a))
  {
    hide Start, Deposited, Placing, ReserveAt, BalanceAt, TreeAt;
    StartIs(l);
    DepositedIs(Start(l), 1, seller, 1, 1);
    PlacedIs(Deposited(Start(l), 1, seller, 1, 1), 2, seller, ASK, AskFirst(seller));
  }

  /** Who sells and who buys, and what they start with. */
  predicate Traders(l: Ledger, seller: Account, buyer: Account, price: u128, amount: u128, funds: u128) {
    && seller != STAKER && buyer != STAKER && seller != buyer && 0 < price < 10 && amount > 0 && funds > 0
    && (0, STAKER) in l && l[(0, STAKER)] == Balance(1, 0)
    && BalanceAt(l, 1, seller) == Balance(1, 0) && BalanceAt(l, 2, seller).reserved == 0
    && BalanceAt(l, 2, seller).free == 0
    && BalanceAt(l, 2, buyer) == Balance(funds, 0) && BalanceAt(l, 1, buyer) == Balance(0, 0)
  }

  lemma WantedIs(l: Ledger, seller: Account, buyer: Account, price: u128, amount: u128, funds: u128)
    requires Traders(l, seller, buyer, price, amount, funds)
    ensures Untouched(Start(l), seller, 1, 1) && Untouched(Offered(l, seller), buyer, 2, funds)
    ensures var v := Deposited(Offered(l, seller), 3, buyer, 2, funds);
            && Backs(v, buyer, 1, 0) && Backs(v, buyer, 2, funds)
            && OldMatches(v.tree, BidNext(buyer, price, amount, funds))
    ensures var v := Wanted(l, seller, buyer, price, amount, funds);
            && v.receipts == map[]
            && TreeAt(v.tree, BookKey(1, 2)) == (1, amount) && TreeAt(v.tree, BestKey(1, 2)) == (10, price)
            && TreeAt(v.tree, PageKey(1, 2, 10)) == (1, 0) && TreeAt(v.tree, PageKey(1, 2, price)) == (amount, 0)
            && TreeAt(v.tree, AccountKey(1, seller)) == (0, 1) && TreeAt(v.tree, AccountKey(2, buyer)) == (0, funds)
            && (forall c: Token, a: Account | (c != 1 || a != seller) && (c != 2 || a != buyer) ::
                  TreeAt(v.tree, AccountKey(c, a)) == (0, 0))
            && (forall k: RKey | k.bucket == ForAuthorizing || k.bucket == ForStash :: ReserveAt(v.reserves, k)
                  == if k == RKey(ForAuthorizing, seller, 1, DOMINATOR) then 1
                     else if k == RKey(ForAuthorizing, buyer, 2, DOMINATOR) then funds else 0)
            && (forall c: Token, a: Account | a != STAKER && a != seller && a != buyer ::
                  BalanceAt(v.ledger, c, a) == BalanceAt(l, c, a))
  {
    hide Start, Deposited, Placing, ReserveAt, BalanceAt, TreeAt, Offered;
    OfferedIs(l, seller);
    DepositedIs(Offered(l, seller), 3, buyer, 2, funds);
    PlacedIs(Deposited(Offered(l, seller), 3, buyer, 2, funds), 4, buyer, Order(price, amount, 0, 0, 1, 2),
             BidNext(buyer, price, amount, funds));
  }

  lemma SpreadSteps(l: Ledger, ops: seq<Op>, seller: Account, buyer: Account, price: u128, amount: u128, funds: u128)
    requires Traders(l, seller, buyer, price, amount, funds)
    requires |ops| >= 10 && ops[..10] == SpreadRun(seller, buyer, price, amount, funds)
    ensures Run(Genesis(CFG, l), ops[..10]) == At(Wanted(l, seller, buyer, price, amount, funds))
  {
    hide Step, At, Run, Placing, OldMatches, Start, Deposited, Untouched, Backs, AskFirst, BidNext;
    var g, all := Genesis(CFG, l), SpreadRun(seller, buyer, price, amount, funds);
    assert |all| == 10 && all[..10] == all && all[..4] == Setup() && all[4..6] == Deposit(1, seller, 1, 1);
    assert all[7..9] == Deposit(3, buyer, 2, funds);
    OfferedIs(l, seller);
    WantedIs(l, seller, buyer, price, amount, funds);
    SetUp(l, all);
    RunDeposit(g, all, 4, Start(l), 1, seller, 1, 1);
    RunStep(g, all, 6);
    AskFirstAt(l, seller);
    RunDeposit(g, all, 7, Offered(l, seller), 3, buyer, 2, funds);
    RunStep(g, all, 9);
    BidNextAt(l, seller, buyer, price, amount, funds);
  }

  lemma AskFirstAt(l: Ledger, seller: Account)
    requires seller != STAKER && BalanceAt(l, 1, seller) == Balance(1, 0) && BalanceAt(l, 2, seller) == Balance(0, 0)
    ensures Step(At(Deposited(Start(l), 1, seller, 1, 1)),
                 Verifying(DOMINATOR, [(Resting(2, ASK, true, AskFirst(seller)), AWAY)]))
            == At(Offered(l, seller))
  {
    hide Step, At, Placing, OldMatches, Start, Deposited, Untouched, Backs;
    OfferedIs(l, seller);
    AskAt(Deposited(Start(l), 1, seller, 1, 1), 2, seller, ASK, 0, 1, 0, Best(0, 0));
  }

  lemma BidNextAt(l: Ledger, seller: Account, buyer: Account, price: u128, amount: u128, funds: u128)
    requires Traders(l, seller, buyer, price, amount, funds)
    ensures Step(At(Deposited(Offered(l, seller), 3, buyer, 2, funds)),
                 Verifying(DOMINATOR,
                   [(Resting(4, Order(price, amount, 0, 0, 1, 2), false, BidNext(buyer, price, amount, funds)), AWAY)]))
            == At(Wanted(l, seller, buyer, price, amount, funds))
  {
    hide Step, At, Placing, OldMatches, Start, Deposited, Untouched, Backs, Offered;
    WantedIs(l, seller, buyer, price, amount, funds);
    BidAt(Deposited(Offered(l, seller), 3, buyer, 2, funds), 4, buyer, Order(price, amount, 0, 0, 1, 2), 1, 0, amount,
          Best(10, 0), funds);
  }

  // --- the cancel of both sides ---

  const BOTH_LEDGER: Ledger :=
    map[(0, STAKER) := Balance(1, 0), (1, 5) := Balance(1, 0), (2, 6) := Balance(10, 0)]

  function BothLeaves(): (ls: seq<Leaf>)
    ensures BothSidesCase(ls)
  {
    [Leaf(BookKey(1, 2), 1, 2, 0, 0),
     Leaf(AccountKey(1, 5), 0, 1, 1, 0), Leaf(AccountKey(2, 5), 0, 0, 0, 0),
     Leaf(BestKey(1, 2), 10, 5, 10, 5), Leaf(PageKey(1, 2, 10), 1, 0, 0, 0)]
  }

  /** One unit offered at ten by account 5, two wanted at five by account 6: then the cancel of both sides matches the
      tree and is accepted. */
  lemma BothSidesReached()
    ensures var s := Run(Genesis(CFG, BOTH_LEDGER), SpreadRun(5, 6, 5, 2, 10));
            && OldMatches(TreeOf(s, DOMINATOR), BothLeaves())
            && CancelOk(1, 2, 5, BothLeaves())
  {
    hide Run, Placing, Deposited, CancelOk, Untouched, Start, Offered, Wanted, SpreadRun;
    var ops := SpreadRun(5, 6, 5, 2, 10);
    assert |ops| == 10 && ops[..10] == ops by {
      SpreadLength(5, 6, 5, 2, 10);
    }
    BothTraders();
    SpreadSteps(BOTH_LEDGER, ops, 5, 6, 5, 2, 10);
    WantedIs(BOTH_LEDGER, 5, 6, 5, 2, 10);
    CancelBothSides(BothLeaves());
  }

  lemma BothTraders()
    ensures Traders(BOTH_LEDGER, 5, 6, 5, 2, 10)
  {
  }

  lemma SpreadLength(seller: Account, buyer: Account, price: u128, amount: u128, funds: u128)
    ensures |SpreadRun(seller, buyer, price, amount, funds)| == 10
  {
  }

  // --- the bid off its walk ---

  const FILLED_LEDGER: Ledger :=
    map[(0, STAKER) := Balance(1, 0), (1, 6) := Balance(1, 0), (2, 8) := Balance(3, 0), (2, 5) := Balance(10, 0)]

  function FilledRun(): seq<Op> {
    SpreadRun(6, 8, 3, 1, 3) + Deposit(5, 5, 2, 10)
  }

  function FilledLeaves(): (ls: seq<Leaf>)
    ensures FilledCase(ls)
  {
    [Leaf(BookKey(1, 2), 1, 1, 0, 1),
     Leaf(AccountKey(1, 6), 0, 1, 0, 0), Leaf(AccountKey(2, 6), 0, 0, 10, 0),
     Leaf(AccountKey(1, 5), 0, 0, 1, 0), Leaf(AccountKey(2, 5), 10, 0, 0, 0),
     Leaf(BestKey(1, 2), 10, 3, 20, 3), Leaf(PageKey(1, 2, 3), 1, 0, 0, 0)]
  }

  lemma FilledTraders()
    ensures Traders(FILLED_LEDGER, 6, 8, 3, 1, 3) && BalanceAt(FILLED_LEDGER, 2, 5) == Balance(10, 0)
  {
  }

  lemma FilledState()
    ensures Traders(FILLED_LEDGER, 6, 8, 3, 1, 3)
    ensures var w := Wanted(FILLED_LEDGER, 6, 8, 3, 1, 3);
            Untouched(w, 5, 2, 10)
            && OldMatches(Deposited(w, 5, 5, 2, 10).tree, FilledLeaves())
            && Authorized(Deposited(w, 5, 5, 2, 10).reserves, DOMINATOR, (1, 0), (0, 10))
  {
    hide Start, Deposited, Placing, ReserveAt, BalanceAt, TreeAt, Offered, Wanted;
    FilledTraders();
    WantedIs(FILLED_LEDGER, 6, 8, 3, 1, 3);
    DepositedIs(Wanted(FILLED_LEDGER, 6, 8, 3, 1, 3), 5, 5, 2, 10);
  }

  /** One unit offered at ten, one wanted at three: then a bid at ten that takes its unit off the page at three matches
      the tree and is accepted. */
  lemma FilledReached()
    ensures var s := Run(Genesis(CFG, FILLED_LEDGER), FilledRun());
            && OldMatches(TreeOf(s, DOMINATOR), FilledLeaves())
            && BidAccepts(s.reserves, DOMINATOR, PARTIAL_ORDER, 2, 1, FilledLeaves())
  {
    hide Run, Placing, Deposited, BidAccepts, OldMatches, Untouched, Start, Offered, Wanted, SpreadRun, Authorized;
    var g, ops := Genesis(CFG, FILLED_LEDGER), FilledRun();
    SpreadLength(6, 8, 3, 1, 3);
    assert ops[..10] == SpreadRun(6, 8, 3, 1, 3) && ops[10..12] == Deposit(5, 5, 2, 10) && ops[..12] == ops;
    FilledState();
    SpreadSteps(FILLED_LEDGER, ops, 6, 8, 3, 1, 3);
    RunDeposit(g, ops, 10, Wanted(FILLED_LEDGER, 6, 8, 3, 1, 3), 5, 5, 2, 10);
    BidLastPageFree(Run(g, ops).reserves, DOMINATOR, FilledLeaves());
  }
}
