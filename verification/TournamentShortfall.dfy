/** Two seasons whose prizes exceed the treasury: one that is closed while a right pick is on a battle not yet settled,
    and one that gets a first result after its close. Two tickets were bought at the price, and the treasury holds the
    eighty-five percent of it that a purchase pays in. */
module TournamentShortfall {
  import opened Arith
  import opened Sums
  import opened Wrappers
  import opened Ledgers
  import opened Purses
  import opened Tournament
  import opened TournamentCounts
  import opened TournamentPrize
  import opened TournamentClaims

  const PRICE: nat := 2_000_000_000_000_000_000
  const FUNDS: nat := 3_400_000_000_000_000_000
  const CHAMPIONS: nat := 2_975_000_000_000_000_000
  const RUNNERS: nat := 425_000_000_000_000_000

  const BEFORE: State := Opening(Finals, PRICE, 2, 9, map[9 := FUNDS])

  /** Two finals, both won by the side picked; the season is closed when only the first is settled. */
  function HalfSettled(): seq<Op> {
    [Scheduling(0, 1, 2, Finals, true), Scheduling(1, 1, 2, Finals, true), Ticketing(1, 2),
     Voting(1, 1, [Pick(0, 1)]), Voting(1, 1, [Pick(1, 1)]), Resulting(0, 1, 0), Resulting(1, 1, 0),
     Settling(0, false), Closing]
  }

  /** The same, but the second final gets its result after the close. */
  function LateResult(): seq<Op> {
    [Scheduling(0, 1, 2, Finals, true), Scheduling(1, 1, 2, Finals, true), Ticketing(1, 2),
     Voting(1, 1, [Pick(0, 1)]), Voting(1, 1, [Pick(1, 1)]), Resulting(0, 1, 0), Settling(0, false), Closing,
     Resulting(1, 1, 0)]
  }

  function Staged(): State {
    BEFORE.(battles := map[0 := Battle(1, 2, Finals, true, Running, true, 0, 0),
                           1 := Battle(1, 2, Finals, true, Running, true, 0, 0)],
            tickets := map[1 := 2])
  }

  /** After the first vote, and after both. */
  function Once(): State {
    Staged().(tickets := map[1 := 1], votes := map[1 := Votes([Select(1, [Pick(0, 1)])], false)],
              entries := map[0 := map[(1, 0) := 1]])
  }

  function Twice(): State {
    Staged().(tickets := map[1 := 0],
              votes := map[1 := Votes([Select(1, [Pick(0, 1)]), Select(1, [Pick(1, 1)])], false)],
              entries := map[0 := map[(1, 0) := 1], 1 := map[(1, 1) := 1]])
  }

  lemma RunStep(s: State, ops: seq<Op>, i: nat)
    requires i < |ops|
    ensures Run(s, ops[..i + 1]) == Step(Run(s, ops[..i]), ops[i])
  {
    hide Step;
    assert ops[..i + 1][..i] == ops[..i];
  }

  lemma Staging()
    ensures Step(Step(Step(BEFORE, Scheduling(0, 1, 2, Finals, true)), Scheduling(1, 1, 2, Finals, true)),
                 Ticketing(1, 2)) == Staged()
  {
    hide InitialVote, AppendVote, SetResult, Settle, Close, Claim;
  }

  /** A vote on one battle, accepted. */
  lemma SingleVote(s: State, who: Account, p: Pick)
    requires CheckPick(s, p, true).Ok? && TicketsOf(s, who) >= 1
    requires Enter(s, (who, |VotesOf(s, who).selects|), p).Ok?
    ensures InitialVote(s, who, 1, [p])
            == Ok(Enter(s, (who, |VotesOf(s, who).selects|), p).value.(
                    votes := s.votes[who :=
                      VotesOf(s, who).(selects := VotesOf(s, who).selects + [Select(1, [p])])],
                    tickets := s.tickets[who := TicketsOf(s, who) - 1]))
  {
    hide Enter, CheckPick;
    var part: Part := (who, |VotesOf(s, who).selects|);
    assert [p][..0] == [];
    assert Place(s, part, [], Initial) == Ok(s);
    assert Place(s, part, [p], Initial) == Enter(s, part, p);
  }

  lemma FirstVote()
    ensures Step(Staged(), Voting(1, 1, [Pick(0, 1)])) == Once()
  {
    hide InitialVote, AppendVote, SetResult, Settle, Close, Claim;
    var none: map<Part, Npc> := map[];
    assert |none| == 0;
    SingleVote(Staged(), 1, Pick(0, 1));
    assert [] + [Select(1, [Pick(0, 1)])] == [Select(1, [Pick(0, 1)])];
  }

  lemma SecondEntry()
    ensures CheckPick(Once(), Pick(1, 1), true).Ok?
    ensures Enter(Once(), (1, 1), Pick(1, 1)) == Ok(Once().(entries := Twice().entries))
  {
    var none: map<Part, Npc> := map[];
    assert |none| == 0;
  }

  lemma SecondVote()
    ensures Step(Once(), Voting(1, 1, [Pick(1, 1)])) == Twice()
  {
    hide InitialVote, AppendVote, SetResult, Settle, Close, Claim, CheckPick, Enter;
    SecondEntry();
    SingleVote(Once(), 1, Pick(1, 1));
    assert [Select(1, [Pick(0, 1)])] + [Select(1, [Pick(1, 1)])] == [Select(1, [Pick(0, 1)]), Select(1, [Pick(1, 1)])];
  }

  function Decided(first: Battle, second: Battle): map<BattleId, Battle> {
    map[0 := first, 1 := second]
  }

  function OneDecided(): State {
    Twice().(battles := Decided(Battle(1, 2, Finals, true, Completed, true, 1, 0),
                                Battle(1, 2, Finals, true, Running, true, 0, 0)),
             winners := map[0 := 1])
  }

  function BothDecided(): State {
    Twice().(battles := Decided(Battle(1, 2, Finals, true, Completed, true, 1, 0),
                                Battle(1, 2, Finals, true, Completed, true, 1, 0)),
             winners := map[0 := 1, 1 := 1])
  }

  lemma FirstResult()
    ensures Step(Twice(), Resulting(0, 1, 0)) == OneDecided()
  {
    hide InitialVote, AppendVote, Settle, Close, Claim;
    var none: map<BattleId, Npc> := map[];
    assert |none| == 0;
  }

  lemma SecondResult()
    ensures Step(OneDecided(), Resulting(1, 1, 0)) == BothDecided()
  {
    hide InitialVote, AppendVote, Settle, Close, Claim;
    var none: map<BattleId, Npc> := map[];
    assert |none[0 := 1]| == 1;
  }

  lemma FirstScored()
    ensures Scored(Twice(), 0, 1) == map[(1, 0) := Points(1, 1, 3)]
  {
  }

  /** What settling the first final adds. */
  function Champion(s: State): State
    requires 0 in s.battles
  {
    s.(battles := s.battles[0 := s.battles[0].(status := Finalized)], points := map[(1, 0) := Points(1, 1, 3)],
       champion := Some(1))
  }

  lemma Settlement(s: State)
    requires s == OneDecided() || s == BothDecided()
    ensures 0 in s.battles && Step(s, Settling(0, false)) == Champion(s)
  {
    hide InitialVote, AppendVote, SetResult, Close, Claim, Scored, Rank;
    FirstScored();
    ScoredSame(Twice(), s);
  }

  lemma ScoredSame(s: State, s': State)
    requires s'.entries == s.entries && s'.points == s.points
    ensures Scored(s', 0, 1) == Scored(s, 0, 1)
  {
  }

  /** One ticket is counted for the champions, none for the runners-up. */
  function Closed(s: State): State {
    s.(closed := true, prizes := [Prize(1, 1, CHAMPIONS), Prize(0, 0, RUNNERS)])
  }

  lemma Counting(s: State, wins: nat)
    requires s.points == map[(1, 0) := Points(1, 1, 3)] && s.votes == Twice().votes
    ensures CountedTickets(s, wins) == if wins == 1 then 1 else 0
  {
    var k: Part := (1, 0);
    SumSplit(s.points, k, Reached(s.votes, wins));
    assert s.points - {k} == map[];
    SumZero(s.points - {k}, Reached(s.votes, wins));
  }

  lemma ClosesSo(s: State)
    requires s.points == map[(1, 0) := Points(1, 1, 3)] && s.votes == Twice().votes
    requires s.first == Finals && s.treasury == 9 && s.purse == map[9 := FUNDS]
    ensures Close(s) == Ok(Closed(s))
  {
    hide CountedTickets;
    Counting(s, 1);
    Counting(s, 0);
  }

  lemma ClosingStep(s: State)
    requires Close(s) == Ok(Closed(s))
    ensures Step(s, Closing) == Closed(s)
  {
    hide InitialVote, AppendVote, SetResult, Settle, Close, Claim;
  }

  /** The season up to its second vote. */
  lemma Opened(ops: seq<Op>)
    requires |ops| >= 5 && ops[..5] == HalfSettled()[..5]
    ensures Run(BEFORE, ops[..5]) == Twice()
  {
    hide Step, Staged, Once, Twice;
    var all := HalfSettled();
    assert all[..0] == [] && Run(BEFORE, all[..0]) == BEFORE;
    RunStep(BEFORE, all, 0);
    RunStep(BEFORE, all, 1);
    RunStep(BEFORE, all, 2);
    Staging();
    RunStep(BEFORE, all, 3);
    FirstVote();
    RunStep(BEFORE, all, 4);
    SecondVote();
  }

  lemma HalfSettledRun()
    ensures Run(BEFORE, HalfSettled()) == Closed(Champion(BothDecided()))
  {
    hide Step, Run, Close;
    var ops := HalfSettled();
    assert ops[..9] == ops;
    Opened(ops);
    RunStep(BEFORE, ops, 5);
    FirstResult();
    RunStep(BEFORE, ops, 6);
    SecondResult();
    RunStep(BEFORE, ops, 7);
    Settlement(BothDecided());
    RunStep(BEFORE, ops, 8);
    ClosesSo(Champion(BothDecided()));
    ClosingStep(Champion(BothDecided()));
  }

  lemma LateResultRun()
    ensures Run(BEFORE, LateResult()[..7]) == Champion(OneDecided())
    ensures Run(BEFORE, LateResult()[..8]) == Closed(Champion(OneDecided()))
    ensures Run(BEFORE, LateResult()) == Step(Closed(Champion(OneDecided())), Resulting(1, 1, 0))
  {
    hide Step, Run, Close;
    var ops := LateResult();
    assert ops[..9] == ops;
    assert ops[..5] == HalfSettled()[..5];
    Opened(ops);
    RunStep(BEFORE, ops, 5);
    FirstResult();
    RunStep(BEFORE, ops, 6);
    Settlement(OneDecided());
    RunStep(BEFORE, ops, 7);
    ClosesSo(Champion(OneDecided()));
    ClosingStep(Champion(OneDecided()));
    RunStep(BEFORE, ops, 8);
  }

  lemma ThirdResult()
    ensures var s := Closed(Champion(OneDecided()));
            && SetResult(s, 1, 1, 0).Ok? && Orderly(s, Resulting(1, 1, 0))
            && Step(s, Resulting(1, 1, 0)) == SetResult(s, 1, 1, 0).value
            && SetResult(s, 1, 1, 0).value.winners == map[0 := 1, 1 := 1]
  {
    hide InitialVote, AppendVote, Settle, Close, Claim;
    var none: map<BattleId, Npc> := map[];
    assert |none[0 := 1]| == 1;
  }

  lemma TwoRight(s: State)
    requires s.winners == map[0 := 1, 1 := 1] && s.price == PRICE
    requires s.prizes == [Prize(1, 1, CHAMPIONS), Prize(0, 0, RUNNERS)]
    ensures Prized(s, [Select(1, [Pick(0, 1)]), Select(1, [Pick(1, 1)])]) == Some(2 * CHAMPIONS)
  {
    var first, second := Select(1, [Pick(0, 1)]), Select(1, [Pick(1, 1)]);
    assert [Pick(0, 1)][..0] == [] && [Pick(1, 1)][..0] == [];
    assert Right(s.winners, [Pick(0, 1)]) == Some(1) && Right(s.winners, [Pick(1, 1)]) == Some(1);
    assert Earns(s.prizes, s.price, 1, 1) == Some(CHAMPIONS);
    assert [first, second][..1] == [first] && [first][..0] == [];
    assert Prized(s, [first]) == Some(CHAMPIONS);
  }

  /** The one voter is owed 5.95 coins out of a treasury of 3.4. */
  ghost predicate OwedTooMuch(s: State) {
    && s.closed && FreeOf(s.purse, s.treasury) == FUNDS < 2 * CHAMPIONS
    && Prized(s, VotesOf(s, 1).selects) == Some(2 * CHAMPIONS)
    && Claim(s, 1) == Err(Payment(InsufficientBalance))
  }

  lemma ClaimFails(s: State)
    requires s.closed && s.votes == Twice().votes && s.winners == map[0 := 1, 1 := 1] && s.price == PRICE
    requires s.prizes == [Prize(1, 1, CHAMPIONS), Prize(0, 0, RUNNERS)]
    requires s.treasury == 9 && s.purse == map[9 := FUNDS]
    ensures OwedTooMuch(s)
  {
    hide Prized;
    TwoRight(s);
  }

  /** One ticket is counted, two are right. */
  lemma ClaimsExceedTreasury()
    ensures OwedTooMuch(Run(BEFORE, HalfSettled()))
  {
    hide Run, OwedTooMuch;
    HalfSettledRun();
    ClaimFails(Closed(Champion(BothDecided())));
  }

  /** Every right pick is settled at the close; the first result that comes after it breaks the treasury. */
  lemma LateResultExceedsTreasury()
    ensures var ops := LateResult();
            && (forall a | a in Run(BEFORE, ops[..7]).votes :: RightSettled(Run(BEFORE, ops[..7]), a))
            && Covered(Run(BEFORE, ops[..8]))
            && OwedTooMuch(Run(BEFORE, ops))
  {
    hide Run, OwedTooMuch, Covered, RightSettled, Step;
    LateResultRun();
    ThirdResult();
    ClaimFails(SetResult(Closed(Champion(OneDecided())), 1, 1, 0).value);
    SettledSoFar();
    SettledIsFair(BEFORE, LateResult()[..7]);
    ClosesSo(Champion(OneDecided()));
    CloseCovers(Champion(OneDecided()));
  }

  lemma SettledSoFar()
    ensures var s := Champion(OneDecided()); forall a | a in s.votes :: RightSettled(s, a)
  {
    var s := Champion(OneDecided());
    assert [Pick(0, 1)][..0] == [] && [Pick(1, 1)][..0] == [];
    assert Right(s.winners, [Pick(1, 1)]) == None;
  }
}
