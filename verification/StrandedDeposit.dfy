/** A run from genesis in which a rejected deposit is lost to the next accepted one. */
module StrandedDeposit {
  import opened Arith
  import opened Sums
  import opened Ledgers
  import opened Wrappers
  import opened VerifierTypes
  import opened ProofChecks
  import opened VerifierState
  import opened VerifierRuns
  import opened VerifierSetup
  import opened Custody
  import opened CustodyGap

  const USER: Account := 8
  const COIN: Token := 5

  /** Ten coins for the user. */
  const LEDGER: Ledger := map[(0, STAKER) := Balance(1, 0), (COIN, USER) := Balance(10, 0)]

  /** A deposit of four coins is rejected, then one of two is accepted. */
  function LosingRun(): seq<Op> {
    Setup() + [Authorizing(USER, DOMINATOR, COIN, 4), Verifying(DOMINATOR, [(Rejected(1, USER), AWAY)]),
               Authorizing(USER, DOMINATOR, COIN, 2), Verifying(DOMINATOR, [(Entered(2, USER, COIN, 2), AWAY)])]
  }

  function First(): View {
    Stashing(Start(LEDGER), USER, COIN, 4)
  }

  function Given(): View {
    First().(receipts := First().receipts - {(DOMINATOR, USER)})
  }

  function Second(): View {
    Stashing(Given(), USER, COIN, 2)
  }

  /** The whole stash of six goes, two coins are entered. */
  function Lost(): View {
    Entering(Second(), 2, USER, COIN, 2)
  }

  lemma FirstStep()
    ensures Step(At(Start(LEDGER)), Authorizing(USER, DOMINATOR, COIN, 4)) == At(First())
  {
    hide Step, At;
    AuthorizeAt(Start(LEDGER), USER, COIN, 4);
  }

  lemma GivenStep()
    ensures Step(At(First()), Verifying(DOMINATOR, [(Rejected(1, USER), AWAY)])) == At(Given())
  {
    hide Step, At;
    RejectAt(First(), 1, USER);
  }

  lemma SecondStep()
    ensures Step(At(Given()), Authorizing(USER, DOMINATOR, COIN, 2)) == At(Second())
  {
    hide Step, At;
    AuthorizeAt(Given(), USER, COIN, 2);
  }

  lemma LostStep()
    ensures Step(At(Second()), Verifying(DOMINATOR, [(Entered(2, USER, COIN, 2), AWAY)])) == At(Lost())
  {
    hide Step, At;
    EnterAt(Second(), 2, USER, COIN, 2);
  }

  lemma LosingSteps()
    ensures Run(Genesis(CFG, LEDGER), LosingRun()) == At(Lost())
  {
    hide Step, At, Run, Start, First, Given, Second, Lost;
    var g, ops := Genesis(CFG, LEDGER), LosingRun();
    assert ops[..4] == Setup() && ops[..8] == ops;
    SetUp(LEDGER, ops);
    RunStep(g, ops, 4);
    FirstStep();
    RunStep(g, ops, 5);
    GivenStep();
    RunStep(g, ops, 6);
    SecondStep();
    RunStep(g, ops, 7);
    LostStep();
  }

  /** Six coins of the user are reserved and two entered; the other four belong to no entry. */
  lemma DepositStranded()
    ensures var s := Run(Genesis(CFG, LEDGER), LosingRun());
            && BalanceAt(s.ledger, COIN, USER) == Balance(4, 6)
            && ReserveAt(s.reserves, RKey(ForAuthorizing, USER, COIN, DOMINATOR)) == 2
            && HeldSum(s.reserves, COIN, USER) == 2
            && Widened(Genesis(CFG, LEDGER), LosingRun(), COIN, USER) == 4
  {
    hide Run, Widened;
    LosingSteps();
    var r, k := Lost().reserves, RKey(ForAuthorizing, USER, COIN, DOMINATOR);
    SumSplit(r, k, HeldBy(COIN, USER));
    SumZero(r - {k}, HeldBy(COIN, USER));
    RunGap(CFG, LEDGER, LosingRun(), COIN, USER);
  }
}
