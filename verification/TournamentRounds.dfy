/** Which seasons can settle the battles that are voted on: those whose first votes are on battles that some settling
    call accepts. */
module TournamentRounds {
  import opened Arith
  import opened Sums
  import opened Wrappers
  import opened Ledgers
  import opened Purses
  import opened Tournament
  import opened TournamentCounts
  import opened TournamentPrize

  /** Battles of these kinds are accepted by neither settling call. */
  predicate Unsettleable(kind: BattleType) {
    kind == SixteenthFinals || kind == EighthFinals
  }

  predicate OpensWell(s: State, picks: seq<Pick>) {
    picks != [] && picks[0].battle in s.battles && s.battles[picks[0].battle].kind == s.first
  }

  /** Each selection of `a` starts with a battle of the opening round. */
  ghost predicate OpeningPicks(s: State, a: Account) {
    forall i | 0 <= i < |VotesOf(s, a).selects| :: OpensWell(s, VotesOf(s, a).selects[i].picks)
  }

  /** No battle of an unsettleable kind is settled. */
  ghost predicate NoneSettled(s: State) {
    forall b | b in s.battles && Unsettleable(s.battles[b].kind) :: s.battles[b].status != Finalized
  }

  ghost predicate KindsKept(s: State, s': State) {
    s'.first == s.first && forall b | b in s.battles :: b in s'.battles && s'.battles[b].kind == s.battles[b].kind
  }

  lemma {:induction false} PlaceFirst(s: State, part: Part, picks: seq<Pick>)
    requires Place(s, part, picks, Initial).Ok? && picks != []
    ensures OpensWell(s, picks)
  {
    if |picks| == 1 {
      assert picks[..0] == [];
    } else {
      PlaceFirst(s, part, picks[..|picks| - 1]);
    }
  }

  // --- the selections of one account after a vote ---

  lemma InitialSelects(s: State, who: Account, tickets: nat, picks: seq<Pick>, a: Account)
    requires InitialVote(s, who, tickets, picks).Ok?
    ensures var had := VotesOf(s, a).selects;
            VotesOf(InitialVote(s, who, tickets, picks).value, a).selects
            == if a == who then had + [Select(tickets, picks)] else had
    ensures OpensWell(s, picks)
  {
    hide Place, Distinct, OpensWell;
    var part := (who, |VotesOf(s, who).selects|);
    PlaceEffect(s, part, picks, Initial, 0, (0, 0));
    PlaceFirst(s, part, picks);
  }

  lemma ExtendSelects(s: State, who: Account, index: nat, picks: seq<Pick>, a: Account)
    requires index < |VotesOf(s, who).selects| && Extend(s, who, index, picks).Ok?
    ensures var had := VotesOf(s, a).selects;
            VotesOf(Extend(s, who, index, picks).value, a).selects
            == if a == who then had[index := had[index].(picks := had[index].picks + picks)] else had
  {
    hide Place;
    PlaceEffect(s, (who, index), picks, Append, 0, (0, 0));
  }

  lemma SplitSelects(s: State, who: Account, index: nat, tickets: nat, picks: seq<Pick>, a: Account)
    requires index < |VotesOf(s, who).selects| && tickets <= VotesOf(s, who).selects[index].tickets
    requires Split(s, who, index, tickets, picks).Ok?
    ensures var had := VotesOf(s, a).selects;
            VotesOf(Split(s, who, index, tickets, picks).value, a).selects
            == if a == who then
                 had[index := had[index].(tickets := had[index].tickets - tickets)]
                 + [Select(tickets, had[index].picks + picks)]
               else had
  {
    hide Place, CheckAll;
    var v := VotesOf(s, who);
    PlaceEffect(s, (who, |v.selects|), v.selects[index].picks + picks, Copy, 0, (0, 0));
  }

  /** After a vote each selection of `a` starts as an old one did, or well by itself. */
  lemma VoteOpens(s: State, op: Op, a: Account)
    requires (op.Voting? || op.Appending?) && Call(s, op).Ok? && OpeningPicks(s, a)
    ensures forall i | 0 <= i < |VotesOf(Call(s, op).value, a).selects| ::
              OpensWell(s, VotesOf(Call(s, op).value, a).selects[i].picks)
  {
    hide InitialVote, Extend, Split, Fresh;
    match op
    case Voting(who, tickets, picks) => InitialSelects(s, who, tickets, picks, a);
    case Appending(who, index, code, tickets, picks) =>
      if VotesOf(s, who).selects[index].tickets == tickets {
        ExtendSelects(s, who, index, picks, a);
      } else {
        SplitSelects(s, who, index, tickets, picks, a);
      }
  }

  // --- steps ---

  lemma SettleKinds(s: State, b: BattleId, league: bool)
    requires Settle(s, b, league).Ok? && NoneSettled(s)
    ensures var s' := Settle(s, b, league).value; KindsKept(s, s') && NoneSettled(s') && s'.votes == s.votes
  {
    hide Scored, Rank;
  }

  lemma OtherKinds(s: State, op: Op)
    requires (op.Scheduling? || op.Starting? || op.Resulting?) && Call(s, op).Ok? && NoneSettled(s)
    ensures var s' := Call(s, op).value; KindsKept(s, s') && NoneSettled(s') && s'.votes == s.votes
  {
    hide InitialVote, AppendVote, Settle, Close, Claim;
  }

  /** The other calls leave battles and selections alone. */
  lemma QuietKinds(s: State, op: Op)
    requires (op.Ticketing? || op.Closing? || op.Claiming? || op.Elsewhere?) && Call(s, op).Ok?
    ensures var s' := Call(s, op).value;
            && s'.battles == s.battles && s'.first == s.first
            && forall a: Account :: VotesOf(s', a).selects == VotesOf(s, a).selects
  {
    hide InitialVote, AppendVote, Settle, SetResult, Close, Claim;
    match op
    case Closing => CloseFrame(s);
    case Claiming(who) => ClaimFrame(s, who);
    case _ =>
  }

  lemma StepOpens(s: State, op: Op, a: Account)
    requires OpeningPicks(s, a) && NoneSettled(s)
    ensures var s' := Step(s, op); OpeningPicks(s', a) && NoneSettled(s') && s'.first == s.first
  {
    hide InitialVote, AppendVote, Settle, SetResult, Close, Claim, OpeningPicks, NoneSettled, KindsKept;
    if Orderly(s, op) && Call(s, op).Ok? {
      var s' := Call(s, op).value;
      match op
      case Voting(_, _, _) => VoteKinds(s, op, a);
      case Appending(_, _, _, _, _) => VoteKinds(s, op, a);
      case Settling(b, league) =>
        SettleKinds(s, b, league);
        OpensFrame(s, s', a);
      case Scheduling(_, _, _, _, _) =>
        OtherKinds(s, op);
        OpensFrame(s, s', a);
      case Starting(_) =>
        OtherKinds(s, op);
        OpensFrame(s, s', a);
      case Resulting(_, _, _) =>
        OtherKinds(s, op);
        OpensFrame(s, s', a);
      case _ =>
        QuietKinds(s, op);
        QuietOpens(s, s', a);
    }
  }

  lemma QuietOpens(s: State, s': State, a: Account)
    requires OpeningPicks(s, a) && NoneSettled(s) && s'.battles == s.battles && s'.first == s.first
    requires VotesOf(s', a).selects == VotesOf(s, a).selects
    ensures OpeningPicks(s', a) && NoneSettled(s')
  {
  }

  lemma VoteKinds(s: State, op: Op, a: Account)
    requires (op.Voting? || op.Appending?) && Call(s, op).Ok? && OpeningPicks(s, a) && NoneSettled(s)
    ensures var s' := Call(s, op).value; OpeningPicks(s', a) && NoneSettled(s') && s'.first == s.first
  {
    hide Call;
    VoteOpens(s, op, a);
    VoteFrame(s, op);
  }

  lemma OpensFrame(s: State, s': State, a: Account)
    requires OpeningPicks(s, a) && KindsKept(s, s') && s'.votes == s.votes
    ensures OpeningPicks(s', a) && s'.first == s.first
  {
    assert VotesOf(s', a) == VotesOf(s, a);
  }

  lemma {:induction false} RunOpens(s: State, ops: seq<Op>, a: Account)
    requires s.battles == map[] && s.votes == map[]
    ensures OpeningPicks(Run(s, ops), a) && NoneSettled(Run(s, ops)) && Run(s, ops).first == s.first
  {
    hide Step;
    if ops == [] {
    } else {
      RunOpens(s, ops[..|ops| - 1], a);
      StepOpens(Run(s, ops[..|ops| - 1]), ops[|ops| - 1], a);
    }
  }

  /** Every battle picked by `a` has been settled. */
  ghost predicate AllSettled(s: State, a: Account) {
    forall i, p | 0 <= i < |VotesOf(s, a).selects| && p in VotesOf(s, a).selects[i].picks :: IsSettled(s, p.battle)
  }

  /** In a season that opens with sixteenth or eighth finals, whoever has voted has picked a battle that is never
      settled. */
  lemma NeverAllSettled(s: State, ops: seq<Op>, a: Account)
    requires s.battles == map[] && s.votes == map[] && Unsettleable(s.first)
    ensures VotesOf(Run(s, ops), a).selects != [] ==> !AllSettled(Run(s, ops), a)
  {
    hide Run;
    RunOpens(s, ops, a);
    var s', selects := Run(s, ops), VotesOf(Run(s, ops), a).selects;
    if selects != [] {
      assert OpensWell(s', selects[0].picks) && selects[0].picks[0] in selects[0].picks;
    }
  }

  /** A battle of the opening round, one vote on it, its result and its settlement. */
  function ShortSeason(first: BattleType): seq<Op> {
    [Scheduling(0, 1, 2, first, true), Ticketing(0, 1), Voting(0, 1, [Pick(0, 1)]), Resulting(0, 1, 0),
     Settling(0, first == League)]
  }

  lemma RunMore(s: State, ops: seq<Op>, op: Op)
    ensures Run(s, ops + [op]) == Step(Run(s, ops), op)
  {
    hide Step;
    assert (ops + [op])[..|ops|] == ops;
  }

  lemma RunFive(s: State, x: Op, y: Op, z: Op, v: Op, w: Op)
    ensures Run(s, [x, y, z, v, w]) == Step(Step(Step(Step(Step(s, x), y), z), v), w)
  {
    hide Step;
    RunMore(s, [], x);
    RunMore(s, [x], y);
    RunMore(s, [x, y], z);
    RunMore(s, [x, y, z], v);
    RunMore(s, [x, y, z, v], w);
    assert [] + [x] == [x] && [x] + [y] == [x, y] && [x, y] + [z] == [x, y, z];
    assert [x, y, z] + [v] == [x, y, z, v] && [x, y, z, v] + [w] == [x, y, z, v, w];
  }

  lemma VoteInShort(s: State, price: nat, capacity: nat, treasury: Account, purse: Purse, first: BattleType)
    requires capacity >= 1
    requires s == Opening(first, price, capacity, treasury, purse).(
                    battles := map[0 := Battle(1, 2, first, true, Running, true, 0, 0)], tickets := map[0 := 1])
    ensures InitialVote(s, 0, 1, [Pick(0, 1)]).Ok?
    ensures var s' := InitialVote(s, 0, 1, [Pick(0, 1)]).value;
            VotesOf(s', 0).selects == [Select(1, [Pick(0, 1)])] && VotedOnly(s, s')
  {
    hide Enter;
    var picks := [Pick(0, 1)];
    assert picks[..0] == [];
    assert Place(s, (0, 0), [], Initial) == Ok(s);
    EnterShort(s);
    assert Place(s, (0, 0), picks, Initial) == Enter(s, (0, 0), Pick(0, 1));
    InitialFrame(s, 0, 1, picks);
  }

  lemma EnterShort(s: State)
    requires s.capacity >= 1 && s.entries == map[]
    ensures Enter(s, (0, 0), Pick(0, 1)).Ok?
  {
  }

  lemma ResultShort(s: State, b: Battle)
    requires s.battles == map[0 := b] && b.ours && b.status == Running
    requires s.winners == map[] && s.capacity >= 1
    ensures var s' := Step(s, Resulting(0, 1, 0));
            s'.votes == s.votes && 0 in s'.battles && s'.battles[0].kind == b.kind && s'.battles[0].status == Completed
  {
    hide InitialVote, AppendVote, Settle;
  }

  lemma SettleShort(s: State, league: bool)
    requires 0 in s.battles && s.battles[0].status == Completed && Settles(s.battles[0].kind, league)
    ensures var s' := Step(s, Settling(0, league));
            s'.votes == s.votes && IsSettled(s', 0)
  {
    hide InitialVote, AppendVote, SetResult, Scored, Rank;
  }

  /** In any other season that has room for a vote, the short season settles it. */
  lemma ShortSettles(price: nat, capacity: nat, treasury: Account, purse: Purse, first: BattleType)
    requires capacity >= 1 && !Unsettleable(first)
    ensures var s' := Run(Opening(first, price, capacity, treasury, purse), ShortSeason(first));
            VotesOf(s', 0).selects != [] && AllSettled(s', 0)
  {
    hide InitialVote, SetResult, Settle, Run;
    var s := Opening(first, price, capacity, treasury, purse);
    var ops := ShortSeason(first);
    RunFive(s, ops[0], ops[1], ops[2], ops[3], ops[4]);
    var s2 := Step(Step(s, ops[0]), ops[1]);
    VoteInShort(s2, price, capacity, treasury, purse, first);
    var s3 := Step(s2, ops[2]);
    ResultShort(s3, s2.battles[0]);
    SettleShort(Step(s3, ops[3]), first == League);
    assert VotesOf(Run(s, ops), 0) == VotesOf(s3, 0);
  }

  /** Voted battles can all be settled exactly in seasons that open with quarter-finals or later, or with the league. */
  lemma SettlingOpenings(price: nat, capacity: nat, treasury: Account, purse: Purse, first: BattleType)
    requires capacity >= 1
    ensures (exists ops, a :: var s' := Run(Opening(first, price, capacity, treasury, purse), ops);
               VotesOf(s', a).selects != [] && AllSettled(s', a))
            <==> first != SixteenthFinals && first != EighthFinals
  {
    hide Run, AllSettled;
    var s := Opening(first, price, capacity, treasury, purse);
    if Unsettleable(first) {
      forall ops, a
        ensures VotesOf(Run(s, ops), a).selects != [] ==> !AllSettled(Run(s, ops), a)
      {
        NeverAllSettled(s, ops, a);
      }
    } else {
      ShortSettles(price, capacity, treasury, purse, first);
    }
  }

  // --- what that means for the prizes ---

  lemma {:induction false} TallyAtMost(s: State, picks: seq<Pick>)
    ensures Tally(s, picks).wins <= |picks|
    ensures picks != [] && !IsSettled(s, picks[0].battle) ==> Tally(s, picks).wins < |picks|
  {
    if picks == [] {
    } else {
      TallyAtMost(s, picks[..|picks| - 1]);
    }
  }

  /** In such a season nobody counts as a champion unless a selection has more picks than the season has battles, so the
      seven eighths set aside for champions stay in the treasury. */
  lemma NoChampions(s: State, ops: seq<Op>)
    requires s.battles == map[] && s.votes == map[] && s.entries == map[] && s.points == map[] && s.winners == map[]
    requires Unsettleable(s.first)
    requires forall a, sel | a in Run(s, ops).votes && sel in Run(s, ops).votes[a].selects ::
               |sel.picks| <= s.first.TotalBattles()
    ensures CountedTickets(Run(s, ops), s.first.TotalBattles()) == 0
  {
    hide Run, Kept, AccountKept, Tally, OpeningPicks;
    var s', total := Run(s, ops), s.first.TotalBattles();
    RunListed(s, ops);
    forall p: Part | p in s'.points
      ensures TicketsWith(s'.votes, total, p, s'.points[p]) == 0
    {
      assert p == (p.0, p.1);
      RunKept(s, ops, p.0);
      RunOpens(s, ops, p.0);
      ChampionMisses(s', p.0, p.1);
    }
    SumZero(s'.points, Reached(s'.votes, total));
  }

  lemma ChampionMisses(s: State, a: Account, i: nat)
    requires AccountKept(s, a) && OpeningPicks(s, a) && NoneSettled(s) && Unsettleable(s.first)
    requires i < |VotesOf(s, a).selects|
    ensures PointsOf(s, (a, i)).wins < |VotesOf(s, a).selects[i].picks|
  {
    hide Tally, Entered, PickOf, Distinct;
    var picks := VotesOf(s, a).selects[i].picks;
    assert Kept(s, a, i) && OpensWell(s, picks);
    TallyAtMost(s, picks);
  }
}
