/** The incrementally kept win counts equal the counts recomputed from the results, through every splitting of votes. */
module TournamentCounts {
  import opened Arith
  import opened Sums
  import opened Wrappers
  import opened Ledgers
  import opened Purses
  import opened Tournament

  // --- closing ---

  /** The tickets that `close_season` counts for a number of wins. */
  ghost function CountedTickets(s: State, wins: nat): nat {
    Sum(s.points, Reached(s.votes, wins))
  }

  ghost function Close(s: State): Attempt<State> {
    CloseWith(s, CountedTickets(s, s.first.TotalBattles()), CountedTickets(s, s.first.TotalBattles() - 1))
  }

  // --- runs, beyond the close of the season ---

  datatype Op =
    | Scheduling(b: BattleId, home: Npc, visiting: Npc, kind: BattleType, ours: bool)
    | Starting(b: BattleId)
    | Ticketing(who: Account, n: nat)
    | Voting(who: Account, tickets: nat, picks: seq<Pick>)
    | Appending(who: Account, index: nat, code: nat, tickets: nat, picks: seq<Pick>)
    | Resulting(b: BattleId, home: nat, visiting: nat)
    | Settling(b: BattleId, league: bool)
    | Closing
    | Claiming(who: Account)
    | Elsewhere(purse: Purse)

  ghost function Call(s: State, op: Op): Attempt<State> {
    match op
    case Scheduling(b, home, visiting, kind, ours) =>
      if b in s.battles then Err(BattleStatusError)
      else Ok(s.(battles := s.battles[b := Battle(home, visiting, kind, ours, Running, true, 0, 0)]))
    case Starting(b) =>
      if b !in s.battles then Err(BattleNotFound)
      else Ok(s.(battles := s.battles[b := s.battles[b].(upcoming := false)]))
    case Ticketing(who, n) => Ok(s.(tickets := s.tickets[who := TicketsOf(s, who) + n]))
    case Voting(who, tickets, picks) => InitialVote(s, who, tickets, picks)
    case Appending(who, index, code, tickets, picks) => AppendVote(s, who, index, code, tickets, picks)
    case Resulting(b, home, visiting) => SetResult(s, b, home, visiting)
    case Settling(b, league) => Settle(s, b, league)
    case Closing => Close(s)
    case Claiming(who) => Claim(s, who)
    case Elsewhere(p) => Ok(s.(purse := p))
  }

  /** Results are not changed once a battle has been settled, and the treasury signs nothing. */
  predicate Orderly(s: State, op: Op) {
    match op
    case Resulting(b, _, _) => b !in s.battles || s.battles[b].status != Finalized
    case Claiming(who) => who != s.treasury
    case _ => true
  }

  ghost function Step(s: State, op: Op): State {
    if Orderly(s, op) && Call(s, op).Ok? then Call(s, op).value else s
  }

  ghost function Run(s: State, ops: seq<Op>): State {
    if ops == [] then s else Step(Run(s, ops[..|ops| - 1]), ops[|ops| - 1])
  }

  function Opening(first: BattleType, price: nat, capacity: nat, treasury: Account, purse: Purse): State {
    State(first, price, capacity, treasury, map[], map[], map[], map[], map[], map[], None, map[], false, [],
      purse)
  }

  // --- one account ---

  function PickOf(picks: seq<Pick>, b: BattleId): Option<Npc> {
    if picks == [] then None
    else if picks[|picks| - 1].battle == b then Some(picks[|picks| - 1].npc)
    else PickOf(picks[..|picks| - 1], b)
  }

  function Entered(s: State, b: BattleId, p: Part): Option<Npc> {
    if p in EntriesOf(s.entries, b) then Some(EntriesOf(s.entries, b)[p]) else None
  }

  predicate IsSettled(s: State, b: BattleId) {
    b in s.battles && s.battles[b].status == Finalized
  }

  /** The points a selection deserves for the battles settled so far. */
  function Tally(s: State, picks: seq<Pick>): Points {
    if picks == [] then Points(0, 0, 0)
    else
      var before, p := Tally(s, picks[..|picks| - 1]), picks[|picks| - 1];
      if IsSettled(s, p.battle) then Score(before, s.battles[p.battle].Winner() == p.npc) else before
  }

  /** Selection `i` of `a`: entered in exactly the battles it picks, and scored for exactly those settled. */
  ghost predicate Kept(s: State, a: Account, i: nat) {
    var selects := VotesOf(s, a).selects;
    if i < |selects| then
      && Distinct(selects[i].picks) && selects[i].picks != []
      && (forall p | p in selects[i].picks :: p.battle in s.battles && s.battles[p.battle].ours)
      && (forall b: BattleId :: Entered(s, b, (a, i)) == PickOf(selects[i].picks, b))
      && PointsOf(s, (a, i)) == Tally(s, selects[i].picks)
      && (PointsOf(s, (a, i)).played > 0 ==> (a, i) in s.points)
    else (a, i) !in s.points && forall b: BattleId :: Entered(s, b, (a, i)) == None
  }

  ghost predicate AccountKept(s: State, a: Account) {
    forall i: nat :: Kept(s, a, i)
  }

  /** Recorded winners are those of the scores, and only known battles have any. */
  ghost predicate WinnersKept(s: State) {
    && (forall b | b in s.battles && s.battles[b].ours && s.battles[b].status != Running ::
          b in s.winners && s.winners[b] == s.battles[b].Winner())
    && (forall b | b in s.winners :: b in s.battles && s.battles[b].status != Running)
  }

  // --- placing picks ---

  lemma EnterEffect(s: State, part: Part, p: Pick, b: BattleId, q: Part)
    requires Enter(s, part, p).Ok?
    ensures Entered(Enter(s, part, p).value, b, q)
            == if b == p.battle && q == part then Some(p.npc) else Entered(s, b, q)
    ensures Enter(s, part, p).value == s.(entries := Enter(s, part, p).value.entries)
  {
  }

  lemma {:induction false} PlaceEffect(s: State, part: Part, picks: seq<Pick>, mode: Mode, b: BattleId, q: Part)
    requires Place(s, part, picks, mode).Ok?
    ensures var s' := Place(s, part, picks, mode).value;
            && s' == s.(entries := s'.entries)
            && Entered(s', b, q)
               == if q == part && PickOf(picks, b).Some? then PickOf(picks, b) else Entered(s, b, q)
  {
    hide Enter, Entered, CheckPick;
    if picks == [] {
    } else {
      var before, p := picks[..|picks| - 1], picks[|picks| - 1];
      PlaceEffect(s, part, before, mode, b, q);
      EnterEffect(Place(s, part, before, mode).value, part, p, b, q);
    }
  }

  /** A battle of the season that still takes votes. */
  predicate IsRunning(s: State, b: BattleId) {
    b in s.battles && s.battles[b].ours && s.battles[b].status == Running
  }

  lemma PickChecks(s: State, p: Pick, initial: bool)
    requires CheckPick(s, p, initial).Ok?
    ensures IsRunning(s, p.battle)
  {
  }

  /** Accepted picks are on running battles of the season. */
  lemma {:induction false} PlaceChecks(s: State, part: Part, picks: seq<Pick>, mode: Mode)
    requires Place(s, part, picks, mode).Ok? && mode != Copy
    ensures forall p | p in picks :: IsRunning(s, p.battle)
  {
    hide Enter, IsRunning, CheckPick;
    if picks == [] {
    } else {
      PlaceChecks(s, part, picks[..|picks| - 1], mode);
      PickChecks(s, picks[|picks| - 1], mode == Initial);
      assert picks == picks[..|picks| - 1] + [picks[|picks| - 1]];
    }
  }

  lemma {:induction false} CheckAllChecks(s: State, picks: seq<Pick>)
    requires CheckAll(s, picks).Ok?
    ensures forall p | p in picks :: IsRunning(s, p.battle)
  {
    hide IsRunning, CheckPick;
    if picks == [] {
    } else {
      CheckAllChecks(s, picks[..|picks| - 1]);
      PickChecks(s, picks[|picks| - 1], false);
      assert picks == picks[..|picks| - 1] + [picks[|picks| - 1]];
    }
  }

  // --- tallies ---

  lemma {:induction false} TallyRunning(s: State, base: seq<Pick>, picks: seq<Pick>)
    requires forall p | p in picks :: IsRunning(s, p.battle)
    ensures Tally(s, base + picks) == Tally(s, base)
  {
    if picks == [] {
      assert base + picks == base;
    } else {
      var before := picks[..|picks| - 1];
      TallyRunning(s, base, before);
      assert (base + picks)[..|base + picks| - 1] == base + before;
      assert picks[|picks| - 1] in picks;
    }
  }

  lemma {:induction false} PickOfAppend(base: seq<Pick>, picks: seq<Pick>, b: BattleId)
    ensures PickOf(base + picks, b) == if PickOf(picks, b).Some? then PickOf(picks, b) else PickOf(base, b)
  {
    if picks == [] {
      assert base + picks == base;
    } else {
      var before := picks[..|picks| - 1];
      PickOfAppend(base, before, b);
      assert (base + picks)[..|base + picks| - 1] == base + before;
    }
  }

  lemma {:induction false} TallySame(s: State, s': State, picks: seq<Pick>)
    requires forall p | p in picks :: IsSettled(s, p.battle) == IsSettled(s', p.battle)
    requires forall p | p in picks && IsSettled(s, p.battle) && IsSettled(s', p.battle) ::
               s.battles[p.battle].Winner() == s'.battles[p.battle].Winner()
    ensures Tally(s, picks) == Tally(s', picks)
  {
    if picks == [] {
    } else {
      assert picks[|picks| - 1] in picks;
      TallySame(s, s', picks[..|picks| - 1]);
    }
  }

  lemma {:induction false} PickOfMember(picks: seq<Pick>, b: BattleId)
    ensures PickOf(picks, b).None? <==> forall p | p in picks :: p.battle != b
  {
    if picks == [] {
    } else {
      PickOfMember(picks[..|picks| - 1], b);
      assert picks == picks[..|picks| - 1] + [picks[|picks| - 1]];
    }
  }

  /** Settling a battle adds its outcome to the tally of those who picked it. */
  lemma {:induction false} TallySettle(s: State, s': State, picks: seq<Pick>, b: BattleId)
    requires Distinct(picks) && b in s.battles && !IsSettled(s, b)
    requires s'.battles == s.battles[b := s.battles[b].(status := Finalized)]
    ensures Tally(s', picks)
            == if PickOf(picks, b).None? then Tally(s, picks)
               else Score(Tally(s, picks), s.battles[b].Winner() == PickOf(picks, b).value)
  {
    if picks == [] {
    } else {
      var before, p := picks[..|picks| - 1], picks[|picks| - 1];
      if p.battle == b {
        PickOfMember(before, b);
        assert PickOf(before, b).None? by {
          forall q | q in before
            ensures q.battle != b
          {
          }
        }
      }
      TallySettle(s, s', before, b);
    }
  }

  // --- steps ---

  /** Battles known to `s` are known to `s'`, equally settled and won by the same side. */
  ghost predicate SameResults(s: State, s': State) {
    && (forall b | b in s.battles :: b in s'.battles && s'.battles[b].ours == s.battles[b].ours)
    && (forall b: BattleId :: IsSettled(s, b) == IsSettled(s', b))
    && (forall b: BattleId | IsSettled(s, b) && IsSettled(s', b) :: s.battles[b].Winner() == s'.battles[b].Winner())
  }

  /** Where nothing about a selection changes its record stays right. */
  lemma KeptFrame(s: State, s': State, a: Account, i: nat)
    requires Kept(s, a, i) && SameResults(s, s')
    requires i < |VotesOf(s, a).selects| <==> i < |VotesOf(s', a).selects|
    requires i < |VotesOf(s, a).selects| ==> VotesOf(s', a).selects[i].picks == VotesOf(s, a).selects[i].picks
    requires forall b: BattleId :: Entered(s', b, (a, i)) == Entered(s, b, (a, i))
    requires PointsOf(s', (a, i)) == PointsOf(s, (a, i)) && ((a, i) in s'.points <==> (a, i) in s.points)
    ensures Kept(s', a, i)
  {
    hide Entered, PickOf, Distinct;
    if i < |VotesOf(s, a).selects| {
      TallySame(s, s', VotesOf(s, a).selects[i].picks);
    }
  }

  /** A new selection, entered for exactly its picks; `base` is what it starts from. */
  lemma KeptNew(s: State, s1: State, s': State, a: Account, base: seq<Pick>, picks: seq<Pick>, i: nat, mode: Mode)
    requires Kept(s, a, i) && i == |VotesOf(s, a).selects|
    requires Place(s, (a, i), base + picks, mode).Ok? && s1 == Place(s, (a, i), base + picks, mode).value
    requires Distinct(base + picks) && base + picks != []
    requires forall p | p in base + picks :: p.battle in s.battles && s.battles[p.battle].ours
    requires forall p | p in picks :: IsRunning(s, p.battle)
    requires s'.battles == s.battles && s'.entries == s1.entries
    requires |VotesOf(s', a).selects| == i + 1 && VotesOf(s', a).selects[i].picks == base + picks
    requires PointsOf(s', (a, i)) == Tally(s, base)
    requires PointsOf(s', (a, i)).played > 0 ==> (a, i) in s'.points
    ensures Kept(s', a, i)
  {
    hide Entered, PickOf, Place, Distinct;
    forall b: BattleId
      ensures Entered(s', b, (a, i)) == PickOf(base + picks, b)
    {
      PlaceEffect(s, (a, i), base + picks, mode, b, (a, i));
      SameEntries(s1, s', b, (a, i));
    }
    TallyRunning(s, base, picks);
    TallySame(s, s', base + picks);
  }

  lemma SameEntries(s: State, s': State, b: BattleId, p: Part)
    requires s.entries == s'.entries
    ensures Entered(s, b, p) == Entered(s', b, p)
  {
  }

  lemma InitialKept(s: State, who: Account, tickets: nat, picks: seq<Pick>, a: Account, i: nat)
    requires InitialVote(s, who, tickets, picks).Ok? && Kept(s, a, i)
    ensures Kept(InitialVote(s, who, tickets, picks).value, a, i)
  {
    hide Entered, PickOf, Place, Distinct, Fresh, Tally, Kept;
    var n, s' := |VotesOf(s, who).selects|, InitialVote(s, who, tickets, picks).value;
    var s1 := Place(s, (who, n), picks, Initial).value;
    forall b: BattleId
      ensures (a, i) != (who, n) ==> Entered(s', b, (a, i)) == Entered(s, b, (a, i))
    {
      PlaceEffect(s, (who, n), picks, Initial, b, (a, i));
      SameEntries(s1, s', b, (a, i));
    }
    PlaceEffect(s, (who, n), picks, Initial, 0, (a, i));
    if (a, i) != (who, n) {
      KeptFrame(s, s', a, i);
    } else {
      PlaceChecks(s, (who, n), picks, Initial);
      assert [] + picks == picks;
      UnseenPoints(s, a, i);
      KeptNew(s, s1, s', a, [], picks, i, Initial);
    }
  }

  lemma UnseenPoints(s: State, a: Account, i: nat)
    requires Kept(s, a, i) && i >= |VotesOf(s, a).selects|
    ensures (a, i) !in s.points && PointsOf(s, (a, i)) == Tally(s, [])
  {
  }

  /** More picks for an existing selection. */
  lemma KeptMore(s: State, s1: State, s': State, a: Account, picks: seq<Pick>, i: nat)
    requires Kept(s, a, i) && i < |VotesOf(s, a).selects|
    requires Place(s, (a, i), picks, Append).Ok? && s1 == Place(s, (a, i), picks, Append).value
    requires Distinct(VotesOf(s, a).selects[i].picks + picks)
    requires s'.battles == s.battles && s'.entries == s1.entries && s'.points == s.points
    requires |VotesOf(s', a).selects| > i
    requires VotesOf(s', a).selects[i].picks == VotesOf(s, a).selects[i].picks + picks
    ensures Kept(s', a, i)
  {
    hide Entered, PickOf, Place, Distinct;
    var base := VotesOf(s, a).selects[i].picks;
    PlaceChecks(s, (a, i), picks, Append);
    forall b: BattleId
      ensures Entered(s', b, (a, i)) == PickOf(base + picks, b)
    {
      PlaceEffect(s, (a, i), picks, Append, b, (a, i));
      PickOfAppend(base, picks, b);
      SameEntries(s1, s', b, (a, i));
    }
    TallyRunning(s, base, picks);
    TallySame(s, s', base + picks);
  }

  lemma DistinctAppend(base: seq<Pick>, picks: seq<Pick>)
    requires Distinct(base) && Fresh(base, picks)
    ensures Distinct(base + picks)
  {
    forall i, j | 0 <= i < j < |base + picks|
      ensures (base + picks)[i].battle != (base + picks)[j].battle
    {
      if i < |base| <= j {
        assert base[i] in base && picks[j - |base|] in picks;
      }
    }
  }

  lemma FullAppendKept(
    s: State, who: Account, index: nat, code: nat, tickets: nat, picks: seq<Pick>, a: Account, i: nat)
    requires AppendVote(s, who, index, code, tickets, picks).Ok? && Kept(s, a, i)
    requires VotesOf(s, who).selects[index].tickets == tickets
    ensures Kept(AppendVote(s, who, index, code, tickets, picks).value, a, i)
  {
    hide Entered, PickOf, Place, Distinct, Fresh, Tally, Kept;
    var s' := AppendVote(s, who, index, code, tickets, picks).value;
    var s1 := Place(s, (who, index), picks, Append).value;
    PlaceEffect(s, (who, index), picks, Append, 0, (a, i));
    if (a, i) != (who, index) {
      forall b: BattleId
        ensures Entered(s', b, (a, i)) == Entered(s, b, (a, i))
      {
        PlaceEffect(s, (who, index), picks, Append, b, (a, i));
        SameEntries(s1, s', b, (a, i));
      }
      KeptFrame(s, s', a, i);
    } else {
      KeptFacts(s, a, i);
      DistinctAppend(VotesOf(s, a).selects[i].picks, picks);
      KeptMore(s, s1, s', a, picks, i);
    }
  }

  lemma SplitKept(s: State, who: Account, index: nat, code: nat, tickets: nat, picks: seq<Pick>, a: Account, i: nat)
    requires AppendVote(s, who, index, code, tickets, picks).Ok? && AccountKept(s, a)
    requires VotesOf(s, who).selects[index].tickets != tickets
    ensures Kept(AppendVote(s, who, index, code, tickets, picks).value, a, i)
  {
    hide Entered, PickOf, Place, Distinct, Fresh, Tally, Kept, CheckAll;
    var n, sel, s' := |VotesOf(s, who).selects|, VotesOf(s, who).selects[index],
                      AppendVote(s, who, index, code, tickets, picks).value;
    var s1 := Place(s, (who, n), sel.picks + picks, Copy).value;
    PlaceEffect(s, (who, n), sel.picks + picks, Copy, 0, (a, i));
    if (a, i) != (who, n) {
      forall b: BattleId
        ensures Entered(s', b, (a, i)) == Entered(s, b, (a, i))
      {
        PlaceEffect(s, (who, n), sel.picks + picks, Copy, b, (a, i));
        SameEntries(s1, s', b, (a, i));
      }
      assert Kept(s, a, i);
      KeptFrame(s, s', a, i);
    } else {
      assert Kept(s, a, i) && Kept(s, a, index);
      KeptFacts(s, a, index);
      DistinctAppend(sel.picks, picks);
      CheckAllChecks(s, picks);
      KeptNew(s, s1, s', a, sel.picks, picks, i, Copy);
    }
  }

  lemma KeptFacts(s: State, a: Account, i: nat)
    requires Kept(s, a, i) && i < |VotesOf(s, a).selects|
    ensures forall p | p in VotesOf(s, a).selects[i].picks :: p.battle in s.battles && s.battles[p.battle].ours
    ensures PointsOf(s, (a, i)) == Tally(s, VotesOf(s, a).selects[i].picks)
    ensures VotesOf(s, a).selects[i].picks != [] && Distinct(VotesOf(s, a).selects[i].picks)
  {
  }

  lemma ScoredAt(s: State, b: BattleId, winner: Npc, p: Part)
    ensures p in Scored(s, b, winner) <==> p in s.points || Entered(s, b, p).Some?
    ensures var e := if p in Scored(s, b, winner) then Scored(s, b, winner)[p] else Points(0, 0, 0);
            e == if Entered(s, b, p).Some? then Score(PointsOf(s, p), Entered(s, b, p).value == winner)
                 else PointsOf(s, p)
  {
  }

  lemma SettleParts(s: State, b: BattleId, league: bool)
    requires Settle(s, b, league).Ok?
    ensures var s' := Settle(s, b, league).value;
            && b in s.battles && !IsSettled(s, b)
            && s'.votes == s.votes && s'.entries == s.entries
            && s'.battles == s.battles[b := s.battles[b].(status := Finalized)]
            && s'.points == if s.battles[b].ours then Scored(s, b, s.battles[b].Winner()) else s.points
  {
    hide Scored, Rank;
  }

  lemma SettleKept(s: State, b: BattleId, league: bool, a: Account, i: nat)
    requires Settle(s, b, league).Ok? && Kept(s, a, i)
    ensures Kept(Settle(s, b, league).value, a, i)
  {
    hide Entered, PickOf, Scored, Tally, Distinct, Settle;
    var s' := Settle(s, b, league).value;
    SettleParts(s, b, league);
    ScoredAt(s, b, s.battles[b].Winner(), (a, i));
    forall c: BattleId
      ensures Entered(s', c, (a, i)) == Entered(s, c, (a, i))
    {
      SameEntries(s, s', c, (a, i));
    }
    if i < |VotesOf(s, a).selects| {
      TallySettle(s, s', VotesOf(s, a).selects[i].picks, b);
      PickOfMember(VotesOf(s, a).selects[i].picks, b);
    }
  }

  lemma ResultFrame(s: State, b: BattleId, home: nat, visiting: nat)
    requires SetResult(s, b, home, visiting).Ok? && !IsSettled(s, b)
    ensures var s' := SetResult(s, b, home, visiting).value;
            SameResults(s, s') && s'.votes == s.votes && s'.entries == s.entries && s'.points == s.points
  {
  }

  lemma ScheduleFrame(s: State, op: Op)
    requires (op.Scheduling? || op.Starting?) && Call(s, op).Ok?
    ensures SameResults(s, Call(s, op).value)
  {
    hide InitialVote, AppendVote, Settle, SetResult, Close, Claim;
  }

  /** Calls that change neither votes nor entries nor points. */
  predicate Quiet(op: Op) {
    !op.Voting? && !op.Appending? && !op.Settling? && !op.Claiming?
  }

  lemma CloseFrame(s: State)
    requires Close(s).Ok?
    ensures Close(s).value == s.(closed := true, prizes := Close(s).value.prizes)
  {
    hide CountedTickets;
  }

  /** A claim marks the record of the claimer. */
  lemma ClaimFrame(s: State, who: Account)
    requires Claim(s, who).Ok?
    ensures s.closed && VotesOf(s, who).selects != [] && !VotesOf(s, who).claimed
    ensures var s' := Claim(s, who).value;
            s' == s.(purse := s'.purse, votes := s.votes[who := VotesOf(s, who).(claimed := true)])
  {
    hide Prized, Pay;
  }

  lemma OtherFrame(s: State, op: Op)
    requires Quiet(op)
    requires Orderly(s, op) && Call(s, op).Ok?
    ensures var s' := Call(s, op).value;
            SameResults(s, s') && s'.votes == s.votes && s'.entries == s.entries && s'.points == s.points
  {
    hide InitialVote, AppendVote, Settle, SetResult, SameResults, Close, Claim;
    var s' := Call(s, op).value;
    match op
    case Closing =>
      CloseFrame(s);
      SameResultsRefl(s, s');
    case Resulting(b, home, visiting) => ResultFrame(s, b, home, visiting);
    case Scheduling(_, _, _, _, _) => ScheduleFrame(s, op);
    case Starting(_) => ScheduleFrame(s, op);
    case _ => SameResultsRefl(s, s');
  }

  lemma SameResultsRefl(s: State, s': State)
    requires s'.battles == s.battles
    ensures SameResults(s, s')
  {
  }

  lemma ClaimKept(s: State, who: Account, a: Account, i: nat)
    requires Claim(s, who).Ok? && Kept(s, a, i)
    ensures Kept(Claim(s, who).value, a, i)
  {
    hide Kept, Claim, Entered, SameResults;
    var s' := Claim(s, who).value;
    ClaimFrame(s, who);
    SameResultsRefl(s, s');
    forall b: BattleId
      ensures Entered(s', b, (a, i)) == Entered(s, b, (a, i))
    {
      SameEntries(s, s', b, (a, i));
    }
    KeptFrame(s, s', a, i);
  }

  lemma OtherKept(s: State, op: Op, a: Account, i: nat)
    requires Quiet(op)
    requires Orderly(s, op) && Call(s, op).Ok? && Kept(s, a, i)
    ensures Kept(Call(s, op).value, a, i)
  {
    hide Kept, Call, Orderly, Entered, SameResults;
    var s' := Call(s, op).value;
    OtherFrame(s, op);
    forall b: BattleId
      ensures Entered(s', b, (a, i)) == Entered(s, b, (a, i))
    {
      SameEntries(s, s', b, (a, i));
    }
    KeptFrame(s, s', a, i);
  }

  lemma StepKept(s: State, op: Op, a: Account, i: nat)
    requires AccountKept(s, a)
    ensures Kept(Step(s, op), a, i)
  {
    hide Kept, InitialVote, AppendVote, Settle, SetResult, Close, Claim, Entered, Tally;
    assert Kept(s, a, i);
    if Orderly(s, op) && Call(s, op).Ok? {
      match op
      case Voting(who, tickets, picks) => InitialKept(s, who, tickets, picks, a, i);
      case Appending(who, index, code, tickets, picks) =>
        AppendBounds(s, who, index, code, tickets, picks);
        if VotesOf(s, who).selects[index].tickets == tickets {
          FullAppendKept(s, who, index, code, tickets, picks, a, i);
        } else {
          SplitKept(s, who, index, code, tickets, picks, a, i);
        }
      case Settling(b, league) => SettleKept(s, b, league, a, i);
      case Claiming(who) => ClaimKept(s, who, a, i);
      case _ => OtherKept(s, op, a, i);
    }
  }

  lemma AppendBounds(s: State, who: Account, index: nat, code: nat, tickets: nat, picks: seq<Pick>)
    requires AppendVote(s, who, index, code, tickets, picks).Ok?
    ensures index < |VotesOf(s, who).selects| && 0 < tickets <= VotesOf(s, who).selects[index].tickets
  {
    hide Place, CheckAll, Distinct, Fresh;
  }

  /** Voting changes entries, votes, tickets and points only. */
  ghost predicate VotedOnly(s: State, s': State) {
    s' == s.(entries := s'.entries, votes := s'.votes, tickets := s'.tickets, points := s'.points)
  }

  lemma InitialFrame(s: State, who: Account, tickets: nat, picks: seq<Pick>)
    requires InitialVote(s, who, tickets, picks).Ok?
    ensures VotedOnly(s, InitialVote(s, who, tickets, picks).value)
  {
    hide Place, Distinct;
    PlaceEffect(s, (who, |VotesOf(s, who).selects|), picks, Initial, 0, (0, 0));
  }

  lemma ExtendFrame(s: State, who: Account, index: nat, picks: seq<Pick>)
    requires index < |VotesOf(s, who).selects| && Extend(s, who, index, picks).Ok?
    ensures VotedOnly(s, Extend(s, who, index, picks).value)
  {
    hide Place;
    PlaceEffect(s, (who, index), picks, Append, 0, (0, 0));
  }

  lemma SplitFrame(s: State, who: Account, index: nat, tickets: nat, picks: seq<Pick>)
    requires index < |VotesOf(s, who).selects| && tickets <= VotesOf(s, who).selects[index].tickets
    requires Split(s, who, index, tickets, picks).Ok?
    ensures VotedOnly(s, Split(s, who, index, tickets, picks).value)
  {
    hide Place, CheckAll;
    var v := VotesOf(s, who);
    PlaceEffect(s, (who, |v.selects|), v.selects[index].picks + picks, Copy, 0, (0, 0));
  }

  lemma VoteFrame(s: State, op: Op)
    requires op.Voting? || op.Appending?
    ensures Call(s, op).Ok? ==> VotedOnly(s, Call(s, op).value)
  {
    hide InitialVote, Extend, Split, Fresh, VotedOnly, Close, Claim;
    if Call(s, op).Ok? {
      match op
      case Voting(who, tickets, picks) => InitialFrame(s, who, tickets, picks);
      case Appending(who, index, code, tickets, picks) =>
        if VotesOf(s, who).selects[index].tickets == tickets {
          ExtendFrame(s, who, index, picks);
        } else {
          SplitFrame(s, who, index, tickets, picks);
        }
    }
  }

  lemma SettleWinners(s: State, b: BattleId, league: bool)
    requires WinnersKept(s) && Settle(s, b, league).Ok?
    ensures WinnersKept(Settle(s, b, league).value)
  {
    hide Scored, Rank;
  }

  lemma OtherWinners(s: State, op: Op)
    requires (op.Scheduling? || op.Starting? || op.Resulting?) && Call(s, op).Ok? && WinnersKept(s)
    ensures WinnersKept(Call(s, op).value)
  {
    hide InitialVote, AppendVote, Settle, Close, Claim;
  }

  /** The other calls change neither battles nor winners. */
  lemma SameBattles(s: State, op: Op)
    requires !op.Scheduling? && !op.Starting? && !op.Resulting? && !op.Settling? && Call(s, op).Ok?
    ensures Call(s, op).value.battles == s.battles && Call(s, op).value.winners == s.winners
  {
    hide InitialVote, AppendVote, Settle, SetResult, Close, Claim;
    match op
    case Voting(_, _, _) => VoteFrame(s, op);
    case Appending(_, _, _, _, _) => VoteFrame(s, op);
    case Closing => CloseFrame(s);
    case Claiming(who) => ClaimFrame(s, who);
    case _ =>
  }

  lemma StepWinners(s: State, op: Op)
    requires WinnersKept(s)
    ensures WinnersKept(Step(s, op))
  {
    hide InitialVote, AppendVote, Settle, SetResult, Close, Claim, WinnersKept;
    if Orderly(s, op) && Call(s, op).Ok? {
      if op.Settling? {
        SettleWinners(s, op.b, op.league);
      } else if op.Scheduling? || op.Starting? || op.Resulting? {
        OtherWinners(s, op);
      } else {
        SameBattles(s, op);
        WinnersFrame(s, Call(s, op).value);
      }
    }
  }

  lemma WinnersFrame(s: State, s': State)
    requires WinnersKept(s) && s'.battles == s.battles && s'.winners == s.winners
    ensures WinnersKept(s')
  {
  }

  /** Over every orderly run each account's selections are entered and scored exactly as they should be. */
  lemma {:induction false} RunKept(s: State, ops: seq<Op>, a: Account)
    requires s.battles == map[] && s.votes == map[] && s.entries == map[] && s.points == map[] && s.winners == map[]
    ensures AccountKept(Run(s, ops), a) && WinnersKept(Run(s, ops))
  {
    hide Step, Kept, WinnersKept;
    if ops == [] {
      OpeningKept(s, a);
    } else {
      var s1 := Run(s, ops[..|ops| - 1]);
      RunKept(s, ops[..|ops| - 1], a);
      StepWinners(s1, ops[|ops| - 1]);
      forall i: nat
        ensures Kept(Run(s, ops), a, i)
      {
        StepKept(s1, ops[|ops| - 1], a, i);
      }
    }
  }

  lemma OpeningKept(s: State, a: Account)
    requires s.battles == map[] && s.votes == map[] && s.entries == map[] && s.points == map[] && s.winners == map[]
    ensures AccountKept(s, a) && WinnersKept(s)
  {
  }

  // --- incremental against recomputed ---

  predicate IsRight(winners: map<BattleId, Npc>, p: Pick) {
    p.battle in winners && winners[p.battle] == p.npc
  }

  /** Right picks on battles that have a result but are not settled. */
  function Unscored(s: State, picks: seq<Pick>): nat {
    if picks == [] then 0
    else
      var p := picks[|picks| - 1];
      Unscored(s, picks[..|picks| - 1]) + if IsRight(s.winners, p) && !IsSettled(s, p.battle) then 1 else 0
  }

  function SettledPicks(s: State, picks: seq<Pick>): nat {
    if picks == [] then 0
    else SettledPicks(s, picks[..|picks| - 1]) + if IsSettled(s, picks[|picks| - 1].battle) then 1 else 0
  }

  lemma {:induction false} UnscoredZero(s: State, picks: seq<Pick>)
    ensures Unscored(s, picks) == 0 <==> forall p | p in picks && IsRight(s.winners, p) :: IsSettled(s, p.battle)
  {
    hide IsRight, IsSettled;
    if picks == [] {
    } else {
      var before := picks[..|picks| - 1];
      UnscoredZero(s, before);
      assert picks == before + [picks[|picks| - 1]];
    }
  }

  /** A tally has the wins of the settled battles; those without settlement are missing. */
  lemma {:induction false} TallyIsRight(s: State, picks: seq<Pick>)
    requires WinnersKept(s) && forall p | p in picks :: p.battle in s.battles && s.battles[p.battle].ours
    ensures Right(s.winners, picks).Some? ==> Right(s.winners, picks).value == Tally(s, picks).wins + Unscored(s, picks)
    ensures Tally(s, picks).played == SettledPicks(s, picks) && Tally(s, picks).score == 3 * Tally(s, picks).wins
  {
    if picks == [] {
    } else {
      assert picks[|picks| - 1] in picks;
      TallyIsRight(s, picks[..|picks| - 1]);
    }
  }

  /** A claim counts the wins kept step by step, and besides them the right picks on battles that nobody has settled:
      the two counts agree exactly if there are none. */
  lemma WinsAgree(s: State, ops: seq<Op>, a: Account, i: nat)
    requires s.battles == map[] && s.votes == map[] && s.entries == map[] && s.points == map[] && s.winners == map[]
    requires i < |VotesOf(Run(s, ops), a).selects|
    ensures var s', picks := Run(s, ops), VotesOf(Run(s, ops), a).selects[i].picks;
            var kept := PointsOf(s', (a, i));
            && (Right(s'.winners, picks).Some? ==> Right(s'.winners, picks).value == kept.wins + Unscored(s', picks))
            && (Right(s'.winners, picks) == Some(kept.wins) <==>
                Right(s'.winners, picks).Some?
                && forall p | p in picks && IsRight(s'.winners, p) :: IsSettled(s', p.battle))
            && kept.played == SettledPicks(s', picks) && kept.score == 3 * kept.wins
  {
    hide Run, Tally, Right, Entered, PickOf, Distinct, WinnersKept, IsRight, IsSettled;
    RunKept(s, ops, a);
    var s' := Run(s, ops);
    assert Kept(s', a, i);
    TallyIsRight(s', VotesOf(s', a).selects[i].picks);
    UnscoredZero(s', VotesOf(s', a).selects[i].picks);
  }

  /** Why runs leave results alone once a battle is settled: a new result lets it be settled, and everyone entered be
      scored, once more. */
  lemma Resettled(s: State, b: BattleId, home: nat, visiting: nat, league: bool, p: Part)
    requires IsSettled(s, b) && s.battles[b].ours && Settles(s.battles[b].kind, league)
    requires SetResult(s, b, home, visiting).Ok? && Entered(s, b, p).Some?
    ensures var s' := SetResult(s, b, home, visiting).value;
            && Settle(s', b, league).Ok?
            && PointsOf(Settle(s', b, league).value, p).played == PointsOf(s, p).played + 1
  {
    hide Entered, Rank, Scored;
    var s' := SetResult(s, b, home, visiting).value;
    SameEntries(s, s', b, p);
    ScoredAt(s', b, s'.battles[b].Winner(), p);
  }

  // --- tickets ---

  /** The tickets behind all selections of an account. */
  function Committed(selects: seq<Select>): nat {
    if selects == [] then 0 else Committed(selects[..|selects| - 1]) + selects[|selects| - 1].tickets
  }

  lemma {:induction false} CommittedSplit(selects: seq<Select>, index: nat, sel: Select)
    requires index < |selects|
    ensures Committed(selects[index := sel]) + selects[index].tickets == Committed(selects) + sel.tickets
  {
    var before := selects[..|selects| - 1];
    if index == |before| {
      assert selects[index := sel][..|selects| - 1] == before;
    } else {
      CommittedSplit(before, index, sel);
      assert selects[index := sel][..|selects| - 1] == before[index := sel];
    }
  }

  lemma CommittedMore(selects: seq<Select>, sel: Select)
    ensures Committed(selects + [sel]) == Committed(selects) + sel.tickets
  {
    assert (selects + [sel])[..|selects|] == selects;
  }

  /** Tickets an account still holds or has put behind a selection. */
  function Owned(s: State, a: Account): nat {
    TicketsOf(s, a) + Committed(VotesOf(s, a).selects)
  }

  lemma InitialTickets(s: State, who: Account, tickets: nat, picks: seq<Pick>, a: Account)
    requires InitialVote(s, who, tickets, picks).Ok?
    ensures Owned(InitialVote(s, who, tickets, picks).value, a) == Owned(s, a)
  {
    hide Place, Distinct, Committed;
    var v := VotesOf(s, who);
    PlaceEffect(s, (who, |v.selects|), picks, Initial, 0, (0, 0));
    CommittedMore(v.selects, Select(tickets, picks));
  }

  lemma ExtendTickets(s: State, who: Account, index: nat, picks: seq<Pick>, a: Account)
    requires index < |VotesOf(s, who).selects| && Extend(s, who, index, picks).Ok?
    ensures Owned(Extend(s, who, index, picks).value, a) == Owned(s, a)
  {
    hide Place, Committed;
    var v := VotesOf(s, who);
    var sel := v.selects[index];
    PlaceEffect(s, (who, index), picks, Append, 0, (0, 0));
    CommittedSplit(v.selects, index, sel.(picks := sel.picks + picks));
  }

  lemma SplitTickets(s: State, who: Account, index: nat, tickets: nat, picks: seq<Pick>, a: Account)
    requires index < |VotesOf(s, who).selects| && tickets <= VotesOf(s, who).selects[index].tickets
    requires Split(s, who, index, tickets, picks).Ok?
    ensures Owned(Split(s, who, index, tickets, picks).value, a) == Owned(s, a)
  {
    hide Place, CheckAll, Committed;
    var v := VotesOf(s, who);
    var sel := v.selects[index];
    PlaceEffect(s, (who, |v.selects|), sel.picks + picks, Copy, 0, (0, 0));
    var left := v.selects[index := sel.(tickets := sel.tickets - tickets)];
    CommittedSplit(v.selects, index, sel.(tickets := sel.tickets - tickets));
    CommittedMore(left, Select(tickets, sel.picks + picks));
  }

  lemma OtherTickets(s: State, op: Op, a: Account)
    requires (Quiet(op) || op.Settling?) && Call(s, op).Ok?
    ensures Owned(Call(s, op).value, a) == Owned(s, a) + if op.Ticketing? && op.who == a then op.n else 0
  {
    hide Committed, InitialVote, AppendVote, Scored, Rank, Close, Claim;
    if op.Closing? {
      CloseFrame(s);
    }
  }

  lemma ClaimTickets(s: State, who: Account, a: Account)
    requires Claim(s, who).Ok?
    ensures Owned(Claim(s, who).value, a) == Owned(s, a)
  {
    hide Committed, Claim;
    ClaimFrame(s, who);
  }

  /** Voting and splitting neither make nor lose tickets. */
  lemma StepTickets(s: State, op: Op, a: Account)
    ensures Owned(Step(s, op), a)
            == Owned(s, a) + if op.Ticketing? && op.who == a then op.n else 0
  {
    hide Fresh, Owned, InitialVote, Extend, Split, Settle, SetResult, Close, Claim;
    if Orderly(s, op) && Call(s, op).Ok? {
      match op
      case Voting(who, tickets, picks) => InitialTickets(s, who, tickets, picks, a);
      case Appending(who, index, code, tickets, picks) =>
        if VotesOf(s, who).selects[index].tickets == tickets {
          ExtendTickets(s, who, index, picks, a);
        } else {
          SplitTickets(s, who, index, tickets, picks, a);
        }
      case Claiming(c) => ClaimTickets(s, c, a);
      case _ => OtherTickets(s, op, a);
    }
  }
}
