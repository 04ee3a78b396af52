/** Prizes over whole seasons: votes, results, settlements, closes and claims in any order. */
module TournamentClaims {
  import opened Arith
  import opened Sums
  import opened Wrappers
  import opened Ledgers
  import opened Purses
  import opened Tournament
  import opened TournamentCounts
  import opened TournamentPrize

  // --- what a claim takes ---

  /** What a step pays out as prizes. */
  ghost function PaidBy(s: State, op: Op): nat {
    if op.Claiming? && Orderly(s, op) && Call(s, op).Ok? then Prized(s, VotesOf(s, op.who).selects).value else 0
  }

  lemma {:induction false} PrizedSame(s: State, s': State, selects: seq<Select>)
    requires s'.winners == s.winners && s'.prizes == s.prizes && s'.price == s.price
    ensures Prized(s', selects) == Prized(s, selects)
  {
    hide Right, Earns;
    if selects == [] {
    } else {
      PrizedSame(s, s', selects[..|selects| - 1]);
    }
  }

  lemma DuesSame(s: State, s': State)
    requires s'.winners == s.winners && s'.prizes == s.prizes && s'.price == s.price
    ensures Sum(s'.votes, Dues(s')) == Sum(s'.votes, Dues(s))
  {
    hide Prized;
    forall a | a in s'.votes
      ensures DueTo(s', a, s'.votes[a]) == DueTo(s, a, s'.votes[a])
    {
      PrizedSame(s, s', s'.votes[a].selects);
    }
    SumCong(s'.votes, Dues(s'), Dues(s));
  }

  /** A claim takes what it pays out of what can be claimed and out of the treasury. */
  lemma ClaimTakes(s: State, who: Account)
    requires who != s.treasury && Claim(s, who).Ok?
    ensures var s', v := Claim(s, who).value, Prized(s, VotesOf(s, who).selects).value;
            && Claimable(s') + v == Claimable(s)
            && FreeOf(s'.purse, s.treasury) + v == FreeOf(s.purse, s.treasury)
            && FreeOf(s'.purse, who) == FreeOf(s.purse, who) + v
            && Claim(s', who).Err?
  {
    hide Prized, Pay;
    var v, v' := VotesOf(s, who), VotesOf(s, who).(claimed := true);
    assert who in s.votes;
    SumPut(s.votes, who, v', Dues(s));
    DuesSame(s, Claim(s, who).value);
    PayMoves(s.purse, s.treasury, who, Prized(s, v.selects).value, s.treasury);
    PayMoves(s.purse, s.treasury, who, Prized(s, v.selects).value, who);
  }

  // --- votes after a close ---

  predicate HaveResults(winners: map<BattleId, Npc>, picks: seq<Pick>) {
    forall p | p in picks :: p.battle in winners
  }

  lemma HaveMore(winners: map<BattleId, Npc>, before: seq<Pick>, p: Pick)
    ensures HaveResults(winners, before + [p]) <==> HaveResults(winners, before) && p.battle in winners
  {
    assert p in before + [p] && forall q | q in before :: q in before + [p];
  }

  /** Picks count only once all their battles have a result. */
  lemma {:induction false} RightSome(winners: map<BattleId, Npc>, picks: seq<Pick>)
    ensures Right(winners, picks).Some? <==> HaveResults(winners, picks)
  {
    if picks == [] {
    } else {
      hide HaveResults;
      var before, p := picks[..|picks| - 1], picks[|picks| - 1];
      RightSome(winners, before);
      HaveMore(winners, before, p);
      assert picks == before + [p];
    }
  }

  /** One selection of `selects` has a pick on a running battle. */
  ghost predicate Undecided(s: State, selects: seq<Select>) {
    exists sel, p | sel in selects && p in sel.picks :: IsRunning(s, p.battle)
  }

  lemma UndecidedEarnsNothing(s: State, s': State, v: Votes)
    requires WinnersKept(s) && Undecided(s, v.selects) && s'.winners == s.winners
    ensures ClaimOf(s', v) == 0
  {
    hide Prized, Right;
    var sel, p :| sel in v.selects && p in sel.picks && IsRunning(s, p.battle);
    RightSome(s.winners, sel.picks);
    PrizedDecided(s', v.selects);
  }

  lemma InitialWrites(s: State, who: Account, tickets: nat, picks: seq<Pick>)
    requires InitialVote(s, who, tickets, picks).Ok?
    ensures var v, v' := VotesOf(s, who), VotesOf(InitialVote(s, who, tickets, picks).value, who);
            && InitialVote(s, who, tickets, picks).value.votes == s.votes[who := v']
            && v'.claimed == v.claimed && Undecided(s, v'.selects)
  {
    hide Place, Distinct, IsRunning;
    var part := (who, |VotesOf(s, who).selects|);
    PlaceEffect(s, part, picks, Initial, 0, (0, 0));
    PlaceChecks(s, part, picks, Initial);
    var selects := VotesOf(InitialVote(s, who, tickets, picks).value, who).selects;
    assert selects[|selects| - 1] in selects && picks[0] in selects[|selects| - 1].picks;
  }

  lemma ExtendWrites(s: State, who: Account, index: nat, picks: seq<Pick>)
    requires index < |VotesOf(s, who).selects| && Extend(s, who, index, picks).Ok? && picks != []
    ensures var v, v' := VotesOf(s, who), VotesOf(Extend(s, who, index, picks).value, who);
            && Extend(s, who, index, picks).value.votes == s.votes[who := v']
            && v'.claimed == v.claimed && Undecided(s, v'.selects)
  {
    hide Place, IsRunning;
    PlaceEffect(s, (who, index), picks, Append, 0, (0, 0));
    PlaceChecks(s, (who, index), picks, Append);
    var selects := VotesOf(Extend(s, who, index, picks).value, who).selects;
    assert selects[index] in selects && picks[0] in selects[index].picks;
  }

  lemma SplitWrites(s: State, who: Account, index: nat, tickets: nat, picks: seq<Pick>)
    requires index < |VotesOf(s, who).selects| && tickets <= VotesOf(s, who).selects[index].tickets
    requires Split(s, who, index, tickets, picks).Ok? && picks != []
    ensures var v, v' := VotesOf(s, who), VotesOf(Split(s, who, index, tickets, picks).value, who);
            && Split(s, who, index, tickets, picks).value.votes == s.votes[who := v']
            && v'.claimed == v.claimed && Undecided(s, v'.selects)
  {
    hide Place, CheckAll, IsRunning;
    var v := VotesOf(s, who);
    PlaceEffect(s, (who, |v.selects|), v.selects[index].picks + picks, Copy, 0, (0, 0));
    CheckAllChecks(s, picks);
    var selects := VotesOf(Split(s, who, index, tickets, picks).value, who).selects;
    assert selects[|selects| - 1] in selects && picks[0] in selects[|selects| - 1].picks;
  }

  /** Whoever votes picks a running battle and can claim nothing until it is decided; nobody else is touched. */
  lemma VoteWrites(s: State, op: Op)
    requires (op.Voting? || op.Appending?) && Call(s, op).Ok?
    ensures var s' := Call(s, op).value;
            && s'.votes == s.votes[op.who := VotesOf(s', op.who)]
            && VotesOf(s', op.who).claimed == VotesOf(s, op.who).claimed
            && Undecided(s, VotesOf(s', op.who).selects)
  {
    hide InitialVote, Extend, Split, Fresh, Undecided, Close, Claim;
    match op
    case Voting(who, tickets, picks) => InitialWrites(s, who, tickets, picks);
    case Appending(who, index, code, tickets, picks) =>
      if VotesOf(s, who).selects[index].tickets == tickets {
        ExtendWrites(s, who, index, picks);
      } else {
        SplitWrites(s, who, index, tickets, picks);
      }
  }

  /** A vote never adds to what can be claimed. */
  lemma VoteForfeits(s: State, op: Op)
    requires (op.Voting? || op.Appending?) && Call(s, op).Ok? && WinnersKept(s)
    ensures Claimable(Call(s, op).value) <= Claimable(s)
  {
    hide Call, Prized, WinnersKept, Undecided, Sum;
    var s' := Call(s, op).value;
    VoteWrites(s, op);
    VoteFrame(s, op);
    UndecidedEarnsNothing(s, s, VotesOf(s', op.who));
    SumPut(s.votes, op.who, VotesOf(s', op.who), Dues(s));
    DuesSame(s, s');
  }

  // --- late results ---

  /** Nobody who can still claim has picked `b`. */
  ghost predicate Unpicked(s: State, b: BattleId) {
    forall a, sel, p | a in s.votes && !s.votes[a].claimed && sel in s.votes[a].selects && p in sel.picks ::
      p.battle != b
  }

  lemma {:induction false} RightElsewhere(winners: map<BattleId, Npc>, b: BattleId, w: Npc, picks: seq<Pick>)
    requires forall p | p in picks :: p.battle != b
    ensures Right(winners[b := w], picks) == Right(winners, picks)
  {
    if picks == [] {
    } else {
      assert picks[|picks| - 1] in picks;
      RightElsewhere(winners, b, w, picks[..|picks| - 1]);
    }
  }

  lemma {:induction false} PrizedElsewhere(s: State, s': State, b: BattleId, w: Npc, selects: seq<Select>)
    requires s'.winners == s.winners[b := w] && s'.prizes == s.prizes && s'.price == s.price
    requires forall sel, p | sel in selects && p in sel.picks :: p.battle != b
    ensures Prized(s', selects) == Prized(s, selects)
  {
    hide Right, Earns;
    if selects == [] {
    } else {
      var sel := selects[|selects| - 1];
      assert sel in selects;
      RightElsewhere(s.winners, b, w, sel.picks);
      PrizedElsewhere(s, s', b, w, selects[..|selects| - 1]);
    }
  }

  /** The result of a battle that no possible claimer has picked changes no claim. */
  lemma UnpickedResult(s: State, b: BattleId, home: nat, visiting: nat)
    requires SetResult(s, b, home, visiting).Ok? && Unpicked(s, b)
    ensures Claimable(SetResult(s, b, home, visiting).value) == Claimable(s)
  {
    hide Prized, Sum;
    var s' := SetResult(s, b, home, visiting).value;
    if s.battles[b].ours {
      forall a | a in s.votes
        ensures DueTo(s', a, s.votes[a]) == DueTo(s, a, s.votes[a])
      {
        if !s.votes[a].claimed {
          PrizedElsewhere(s, s', b, s'.winners[b], s.votes[a].selects);
        }
      }
      SumCong(s.votes, Dues(s'), Dues(s));
    } else {
      DuesSame(s, s');
    }
  }

  // --- one step ---

  /** The winners after a result. */
  function WinnersAfter(s: State, b: BattleId, home: nat, visiting: nat): map<BattleId, Npc>
    requires b in s.battles
  {
    if s.battles[b].ours then s.winners[b := s.battles[b].(homeScore := home, visitingScore := visiting).Winner()]
    else s.winners
  }

  /** An accepted close whose counted tickets do not carry what it makes claimable, or, after a close, an accepted
      result that makes more claimable than the treasury holds or a withdrawal that leaves less. */
  ghost predicate Overdraws(s: State, op: Op) {
    && Orderly(s, op) && Call(s, op).Ok?
    && match op
       case Closing => OwedAtClose(s) > FreeOf(s.purse, s.treasury)
       case Resulting(b, home, visiting) =>
         s.closed && |s.prizes| == 2
         && Owing(s, WinnersAfter(s, b, home, visiting), s.prizes) > FreeOf(s.purse, s.treasury)
       case Elsewhere(p) =>
         s.closed && |s.prizes| == 2 && Owing(s, s.winners, s.prizes) > FreeOf(p, s.treasury)
       case _ => false
  }

  /** Once a season is closed it has two prize classes and covers all claims. */
  ghost predicate Sound(s: State) {
    s.closed ==> TwoPrizes(s) && Covered(s)
  }

  lemma SameClaims(s: State, s': State)
    requires s'.votes == s.votes && s'.winners == s.winners && s'.prizes == s.prizes && s'.price == s.price
    ensures Claimable(s') == Claimable(s)
  {
    DuesSame(s, s');
  }

  lemma QuietMoney(s: State, op: Op)
    requires (op.Scheduling? || op.Starting? || op.Ticketing? || op.Settling? || op.Elsewhere?) && Call(s, op).Ok?
    ensures var s' := Call(s, op).value;
            && s'.votes == s.votes && s'.winners == s.winners && s'.prizes == s.prizes && s'.price == s.price
            && s'.treasury == s.treasury && s'.closed == s.closed
            && s'.purse == if op.Elsewhere? then op.purse else s.purse
  {
    hide InitialVote, AppendVote, SetResult, Close, Claim, Scored, Rank;
  }

  lemma ResultMoney(s: State, b: BattleId, home: nat, visiting: nat)
    requires SetResult(s, b, home, visiting).Ok?
    ensures b in s.battles
    ensures var s' := SetResult(s, b, home, visiting).value;
            && s'.winners == WinnersAfter(s, b, home, visiting)
            && s' == s.(battles := s'.battles, winners := s'.winners)
  {
  }

  lemma ResultCovered(s: State, b: BattleId, home: nat, visiting: nat)
    requires s.closed && TwoPrizes(s) && SetResult(s, b, home, visiting).Ok?
    ensures var s' := SetResult(s, b, home, visiting).value;
            && s'.closed && TwoPrizes(s')
            && (Covered(s')
                <==> Owing(s, WinnersAfter(s, b, home, visiting), s.prizes) <= FreeOf(s.purse, s.treasury))
  {
    hide SetResult, Claimable, Rate, Open;
    ResultMoney(s, b, home, visiting);
    ClaimableIs(SetResult(s, b, home, visiting).value);
  }

  lemma ClaimCovered(s: State, who: Account)
    requires Sound(s) && who != s.treasury && Claim(s, who).Ok?
    ensures Sound(Claim(s, who).value) && Claim(s, who).value.closed
  {
    hide Claim, Claimable;
    ClaimFrame(s, who);
    ClaimTakes(s, who);
  }

  lemma VoteCovered(s: State, op: Op)
    requires (op.Voting? || op.Appending?) && Call(s, op).Ok? && Sound(s) && WinnersKept(s)
    ensures Sound(Call(s, op).value)
  {
    hide Call, Claimable, WinnersKept;
    VoteForfeits(s, op);
    VoteFrame(s, op);
  }

  /** From a sound state a step leads to an unsound one exactly if it overdraws the treasury. */
  lemma StepSound(s: State, op: Op)
    requires Sound(s) && WinnersKept(s)
    ensures Sound(Step(s, op)) <==> !Overdraws(s, op)
  {
    hide Claimable, WinnersKept, InitialVote, AppendVote, SetResult, Settle, Close, Claim, OwedAtClose, Owing;
    if Orderly(s, op) && Call(s, op).Ok? {
      match op
      case Closing =>
        CloseIs(s);
        CoveredExactly(s);
      case Resulting(b, home, visiting) =>
        ResultMoney(s, b, home, visiting);
        if s.closed {
          ResultCovered(s, b, home, visiting);
        }
      case Claiming(who) => ClaimCovered(s, who);
      case Voting(_, _, _) => VoteCovered(s, op);
      case Appending(_, _, _, _, _) => VoteCovered(s, op);
      case Elsewhere(p) =>
        QuietMoney(s, op);
        SameClaims(s, Step(s, op));
        if s.closed {
          ClaimableIs(s);
        }
      case _ =>
        QuietMoney(s, op);
        SameClaims(s, Step(s, op));
    }
  }

  // --- runs ---

  /** At no point of the run the treasury holds less than can be claimed from a closed season. */
  ghost predicate NeverShort(s: State, ops: seq<Op>) {
    forall n | 0 <= n <= |ops| :: Sound(Run(s, ops[..n]))
  }

  ghost predicate NeverOverdrawn(s: State, ops: seq<Op>) {
    forall n | 0 <= n < |ops| :: !Overdraws(Run(s, ops[..n]), ops[n])
  }

  lemma SplitLast(s: State, ops: seq<Op>)
    requires ops != []
    ensures var before := ops[..|ops| - 1];
            && (NeverShort(s, ops) <==> NeverShort(s, before) && Sound(Run(s, ops)))
            && (NeverOverdrawn(s, ops)
                <==> NeverOverdrawn(s, before) && !Overdraws(Run(s, before), ops[|ops| - 1]))
  {
    hide Run, Sound, Overdraws;
    var before := ops[..|ops| - 1];
    assert forall n | 0 <= n <= |before| :: before[..n] == ops[..n];
    assert ops[..|ops|] == ops;
  }

  /** From the opening of a season on, all calls in any order: the treasury never falls short of the claims if and only
      if no close, and no result or withdrawal after a close, overdraws it. */
  lemma {:induction false} RunSound(s: State, ops: seq<Op>)
    requires s.battles == map[] && s.votes == map[] && s.entries == map[] && s.points == map[] && s.winners == map[]
    requires !s.closed
    ensures NeverShort(s, ops) <==> NeverOverdrawn(s, ops)
  {
    hide Step, Sound, Overdraws, WinnersKept, NeverShort, NeverOverdrawn;
    if ops == [] {
      NothingShort(s);
    } else {
      var before := ops[..|ops| - 1];
      RunSound(s, before);
      SplitLast(s, ops);
      RunKept(s, before, 0);
      LastSound(s, before);
      if Sound(Run(s, before)) {
        StepSound(Run(s, before), ops[|ops| - 1]);
      }
    }
  }

  lemma LastSound(s: State, ops: seq<Op>)
    ensures NeverShort(s, ops) ==> Sound(Run(s, ops))
  {
    assert ops[..|ops|] == ops;
  }

  lemma NothingShort(s: State)
    requires !s.closed
    ensures NeverShort(s, []) && NeverOverdrawn(s, [])
  {
  }

  // --- what an organizer can do about it ---

  /** Before each close all right picks are settled, no result that comes after a close concerns a battle picked by
      somebody who can still claim, and nobody withdraws from the treasury of a closed season. */
  ghost predicate Prudent(s: State, ops: seq<Op>) {
    forall n | 0 <= n < |ops| :: Careful(Run(s, ops[..n]), ops[n])
  }

  ghost predicate Careful(s: State, op: Op) {
    match op
    case Closing => forall a | a in s.votes :: RightSettled(s, a)
    case Resulting(b, _, _) => s.closed ==> Unpicked(s, b)
    case Elsewhere(p) => s.closed ==> FreeOf(s.purse, s.treasury) <= FreeOf(p, s.treasury)
    case _ => true
  }

  lemma CarefulResult(s: State, op: Op)
    requires op.Resulting? && Sound(s) && Careful(s, op)
    ensures !Overdraws(s, op)
  {
    hide Claimable, Rate, Open, Unpicked, SetResult;
    if Orderly(s, op) && Call(s, op).Ok? && s.closed {
      UnpickedResult(s, op.b, op.home, op.visiting);
      ResultMoney(s, op.b, op.home, op.visiting);
      ResultCovered(s, op.b, op.home, op.visiting);
    }
  }

  lemma CarefulPayment(s: State, op: Op)
    requires op.Elsewhere? && Sound(s) && Careful(s, op)
    ensures !Overdraws(s, op)
  {
    hide Claimable, Rate, Open, Unpicked, RightSettled;
    if s.closed {
      ClaimableIs(s);
    }
  }

  lemma CarefulStep(s: State, before: seq<Op>, op: Op)
    requires s.battles == map[] && s.votes == map[] && s.entries == map[] && s.points == map[] && s.winners == map[]
    requires Sound(Run(s, before)) && Careful(Run(s, before), op)
    ensures !Overdraws(Run(s, before), op)
  {
    hide Run, RightSettled, Sound, FairlyCounted, OwedAtClose;
    if op.Closing? {
      SettledIsFair(s, before);
      CloseCovers(Run(s, before));
    } else if op.Resulting? {
      CarefulResult(Run(s, before), op);
    } else if op.Elsewhere? {
      CarefulPayment(Run(s, before), op);
    }
  }

  lemma {:induction false} PrudentSound(s: State, ops: seq<Op>)
    requires s.battles == map[] && s.votes == map[] && s.entries == map[] && s.points == map[] && s.winners == map[]
    requires !s.closed && Prudent(s, ops)
    ensures Sound(Run(s, ops))
  {
    hide Step, Sound, Overdraws, WinnersKept, Careful;
    if ops == [] {
      NothingShort(s);
      LastSound(s, ops);
    } else {
      var before, op := ops[..|ops| - 1], ops[|ops| - 1];
      assert forall n | 0 <= n < |before| :: before[..n] == ops[..n] && before[n] == ops[n];
      PrudentSound(s, before);
      RunKept(s, before, 0);
      CarefulStep(s, before, op);
      StepSound(Run(s, before), op);
    }
  }

  /** From the opening of a season on, with closes and claims among all other calls: if closes and late results are
      careful, no claim ever fails for lack of funds. */
  lemma PrizesWithinTreasury(s: State, ops: seq<Op>, who: Account)
    requires s.battles == map[] && s.votes == map[] && s.entries == map[] && s.points == map[] && s.winners == map[]
    requires !s.closed && Prudent(s, ops)
    ensures Run(s, ops).closed ==> Covered(Run(s, ops))
    ensures Claim(Run(s, ops), who) != Err(Payment(InsufficientBalance))
  {
    hide Run, Prudent, Covered;
    PrudentSound(s, ops);
    FundsSuffice(Run(s, ops), who);
  }

  lemma FundsSuffice(s: State, who: Account)
    requires Sound(s)
    ensures Claim(s, who) != Err(Payment(InsufficientBalance))
  {
    hide Prized;
    if s.closed && who in s.votes {
      SumMember(s.votes, who, Dues(s));
    }
  }

  // --- what is paid between two closes ---

  ghost function Paid(s: State, ops: seq<Op>): nat {
    if ops == [] then 0 else Paid(s, ops[..|ops| - 1]) + PaidBy(Run(s, ops[..|ops| - 1]), ops[|ops| - 1])
  }

  lemma StepPays(s: State, op: Op)
    requires WinnersKept(s) && s.closed && !op.Closing? && Careful(s, op)
    ensures Step(s, op).closed && Claimable(Step(s, op)) + PaidBy(s, op) <= Claimable(s)
  {
    hide Claimable, WinnersKept, InitialVote, AppendVote, SetResult, Settle, Close, Claim, Prized, Unpicked;
    if Orderly(s, op) && Call(s, op).Ok? {
      match op
      case Claiming(who) =>
        ClaimFrame(s, who);
        ClaimTakes(s, who);
      case Resulting(b, home, visiting) =>
        ResultMoney(s, b, home, visiting);
        UnpickedResult(s, b, home, visiting);
      case Voting(_, _, _) =>
        VoteForfeits(s, op);
        VoteFrame(s, op);
      case Appending(_, _, _, _, _) =>
        VoteForfeits(s, op);
        VoteFrame(s, op);
      case _ =>
        QuietMoney(s, op);
        SameClaims(s, Step(s, op));
    }
  }

  lemma {:induction false} WinnersStay(s: State, ops: seq<Op>)
    requires WinnersKept(s)
    ensures WinnersKept(Run(s, ops))
  {
    hide Step, WinnersKept;
    if ops == [] {
    } else {
      WinnersStay(s, ops[..|ops| - 1]);
      StepWinners(Run(s, ops[..|ops| - 1]), ops[|ops| - 1]);
    }
  }

  /** Until the next close what has been paid and what can be claimed never exceed what could be claimed at first. */
  lemma {:induction false} ClaimsCovered(s: State, ops: seq<Op>)
    requires WinnersKept(s) && s.closed && Prudent(s, ops) && forall op | op in ops :: !op.Closing?
    ensures Run(s, ops).closed && Claimable(Run(s, ops)) + Paid(s, ops) <= Claimable(s)
  {
    hide Step, WinnersKept, Claimable, PaidBy, Careful;
    if ops == [] {
    } else {
      var before, op := ops[..|ops| - 1], ops[|ops| - 1];
      assert forall n | 0 <= n < |before| :: before[..n] == ops[..n] && before[n] == ops[n];
      ClaimsCovered(s, before);
      WinnersStay(s, before);
      assert op in ops && Careful(Run(s, before), op);
      StepPays(Run(s, before), op);
    }
  }

  // --- covered means payable in full ---

  /** Claims by these accounts, one after the other. */
  ghost function Afterwards(s: State, claims: seq<Account>): State
    decreases |claims|
  {
    if claims == [] then s else Afterwards(Step(s, Claiming(claims[0])), claims[1..])
  }

  /** An account that has voted, has not claimed, and whose prize can be computed. */
  predicate Entitled(s: State, who: Account) {
    && s.closed && who in s.votes && s.votes[who].selects != [] && !s.votes[who].claimed
    && Prized(s, s.votes[who].selects).Some?
  }

  /** Whoever is entitled is paid, in whatever order claims come. */
  ghost predicate AllPayable(s: State) {
    forall claims: seq<Account>, who: Account | Entitled(Afterwards(s, claims), who) ::
      Claim(Afterwards(s, claims), who).Ok?
  }

  /** No account can overflow with what the treasury holds. */
  ghost predicate Room(s: State) {
    && FreeOf(s.purse, s.treasury) <= U128_MAX
    && forall a: Account | a != s.treasury :: FreeOf(s.purse, a) + FreeOf(s.purse, s.treasury) <= U128_MAX
  }

  lemma ClaimOk(s: State, who: Account)
    requires Covered(s) && Room(s) && s.treasury !in s.votes && Entitled(s, who)
    ensures Claim(s, who).Ok?
  {
    hide Prized;
    SumMember(s.votes, who, Dues(s));
  }

  lemma ClaimRoom(s: State, who: Account)
    requires Room(s) && who != s.treasury && Claim(s, who).Ok?
    ensures Room(Claim(s, who).value)
  {
    hide Prized, Pay;
    var s' := Claim(s, who).value;
    var v := Prized(s, VotesOf(s, who).selects).value;
    PayMoves(s.purse, s.treasury, who, v, s.treasury);
    forall a: Account | a != s.treasury
      ensures FreeOf(s'.purse, a) + FreeOf(s'.purse, s.treasury) <= U128_MAX
    {
      PayMoves(s.purse, s.treasury, who, v, a);
    }
  }

  lemma ClaimStep(s: State, who: Account)
    requires s.treasury !in s.votes
    ensures var s' := Step(s, Claiming(who));
            && s'.treasury == s.treasury && s'.treasury !in s'.votes && s'.closed == s.closed
            && (Room(s) ==> Room(s'))
            && (Covered(s) <==> Covered(s'))
  {
    hide Claim, Room, Claimable;
    if Orderly(s, Claiming(who)) && Claim(s, who).Ok? {
      ClaimFrame(s, who);
      ClaimTakes(s, who);
      if Room(s) {
        ClaimRoom(s, who);
      }
    }
  }

  lemma {:induction false} PaidInAnyOrder(s: State, claims: seq<Account>, who: Account)
    requires Covered(s) && Room(s) && s.treasury !in s.votes && Entitled(Afterwards(s, claims), who)
    ensures Claim(Afterwards(s, claims), who).Ok?
    decreases |claims|
  {
    hide Covered, Room, Claim, Step, Entitled;
    if claims == [] {
      ClaimOk(s, who);
    } else {
      ClaimStep(s, claims[0]);
      PaidInAnyOrder(Step(s, Claiming(claims[0])), claims[1..], who);
    }
  }

  /** If something can be claimed, somebody is entitled to part of it. */
  lemma {:induction false} SumPositive<K, V>(m: map<K, V>, w: (K, V) -> nat) returns (k: K)
    requires Sum(m, w) > 0
    ensures k in m && w(k, m[k]) > 0
    decreases |m|
  {
    k :| k in m;
    if w(k, m[k]) == 0 {
      assert (m - {k}).Keys == m.Keys - {k};
      SumSplit(m, k, w);
      k := SumPositive(m - {k}, w);
    }
  }

  lemma DueEntitled(s: State, who: Account)
    requires s.closed && who in s.votes && DueTo(s, who, s.votes[who]) > 0
    ensures Entitled(s, who) && Prized(s, VotesOf(s, who).selects).value > 0
  {
  }

  /** If more can be claimed than the treasury holds, some order of claims leaves an entitled account unpaid. */
  lemma {:induction false} SomebodyUnpaid(s: State) returns (claims: seq<Account>, who: Account)
    requires s.closed && !Covered(s) && s.treasury !in s.votes
    ensures Entitled(Afterwards(s, claims), who) && Claim(Afterwards(s, claims), who).Err?
    decreases Claimable(s)
  {
    hide Claim, Entitled, Prized, Room, DueTo;
    who := SumPositive(s.votes, Dues(s));
    DueEntitled(s, who);
    claims := [];
    if Claim(s, who).Ok? {
      ClaimStep(s, who);
      ClaimTakes(s, who);
      var s' := Step(s, Claiming(who));
      var later, unpaid := SomebodyUnpaid(s');
      claims := [who] + later;
      assert claims[1..] == later;
      who := unpaid;
    }
  }

  /** In a closed season everybody entitled is paid, in any order, if and only if the treasury covers all claims. */
  lemma CoveredMeansPaid(s: State)
    requires s.closed && Room(s) && s.treasury !in s.votes
    ensures Covered(s) <==> AllPayable(s)
  {
    hide Covered, Room, Claim, Entitled, Afterwards;
    if Covered(s) {
      forall claims: seq<Account>, who: Account | Entitled(Afterwards(s, claims), who)
        ensures Claim(Afterwards(s, claims), who).Ok?
      {
        PaidInAnyOrder(s, claims, who);
      }
    } else {
      var claims, who := SomebodyUnpaid(s);
    }
  }
}
