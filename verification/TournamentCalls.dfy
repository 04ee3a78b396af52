/** Which votes, results, settlements and claims of a season go through, and what they write and pay. */
module TournamentCalls {
  import opened Arith
  import opened Wrappers
  import opened Ledgers
  import opened Purses
  import opened Tournament
  import opened TournamentCounts
  import opened TournamentPrize

  // --- results ---

  /** The side with the higher score, and on a draw the visiting side. */
  function WinnerOf(x: Battle): Npc {
    if x.visitingScore < x.homeScore then x.home else x.visiting
  }

  function LoserOf(x: Battle): Npc {
    if x.visitingScore < x.homeScore then x.visiting else x.home
  }

  function Lead(x: Battle): nat {
    if x.visitingScore < x.homeScore then x.homeScore - x.visitingScore else x.visitingScore - x.homeScore
  }

  lemma OutcomeIs(x: Battle)
    ensures x.Winner() == WinnerOf(x) && x.Loser() == LoserOf(x) && x.Margin() == Lead(x)
  {
  }

  /** A result can be given to any known battle while the season has room for its winner; it completes the battle and,
      for a battle of the season, records who has won. */
  lemma ResultCall(s: State, b: BattleId, home: nat, visiting: nat)
    ensures var r := SetResult(s, b, home, visiting);
            if b !in s.battles then r == Err(BattleNotFound)
            else if s.battles[b].ours && b !in s.winners && |s.winners| >= s.capacity then r == Err(ParticipantOverflow)
            else
              var x := s.battles[b];
              && r.Ok? && r.value == s.(battles := r.value.battles, winners := r.value.winners)
              && r.value.battles
                 == s.battles[b := Battle(x.home, x.visiting, x.kind, x.ours, Completed, x.upcoming, home, visiting)]
              && r.value.winners
                 == if x.ours then s.winners[b := if visiting < home then x.home else x.visiting] else s.winners
  {
  }

  // --- settlements ---

  /** Everyone entered in a settled battle of the season has played once more, and won once more, for three points, if
      the pick was on the winner. */
  predicate Rated(s: State, b: BattleId, p: Part, was: Points, now: Points)
    requires b in s.battles
  {
    var m := EntriesOf(s.entries, b);
    if p !in m || !s.battles[b].ours then now == was
    else if m[p] == WinnerOf(s.battles[b]) then now == Points(was.played + 1, was.wins + 1, was.score + 3)
    else now == Points(was.played + 1, was.wins, was.score)
  }

  /** The lines of winner and loser, who may be the same character. */
  predicate Ranked(x: Battle, e: Npc, was: Standing, now: Standing) {
    var w, l := if e == WinnerOf(x) then 1 else 0, if e == LoserOf(x) then 1 else 0;
    && now.played == was.played + w + l && now.wins == was.wins + w && now.score == was.score + 3 * w
    && now.diff == was.diff + (w - l) * Lead(x)
  }

  lemma RankIs(table: map<Npc, Standing>, x: Battle, e: Npc)
    ensures Ranked(x, e, StandingOf(table, e), StandingOf(Rank(table, x), e))
  {
    OutcomeIs(x);
  }

  /** A completed battle of the right kind is settled once: league battles by one call, quarter finals, semifinals and
      finals by the other. */
  lemma SettleCall(s: State, b: BattleId, league: bool, p: Part, e: Npc)
    ensures var r := Settle(s, b, league);
            if b !in s.battles then r == Err(BattleNotFound)
            else
              var x := s.battles[b];
              var fits := if league then x.kind.League?
                          else x.kind.QuarterFinals? || x.kind.SemiFinals? || x.kind.Finals?;
              if !fits || x.status != Completed then
                r == Err(if fits || (league && x.status != Completed) then BattleStatusError else BattleTypeError)
              else
                && r.Ok?
                && var s' := r.value;
                && s' == s.(battles := s.battles[b := x.(status := Finalized)], points := s'.points, table := s'.table,
                            champion := s'.champion)
                && Rated(s, b, p, PointsOf(s, p), PointsOf(s', p))
                && (p in s'.points <==> p in s.points || (x.ours && p in EntriesOf(s.entries, b)))
                && (if x.ours && x.kind.League? then Ranked(x, e, StandingOf(s.table, e), StandingOf(s'.table, e))
                    else s'.table == s.table)
                && s'.champion == if x.ours && x.kind.Finals? then Some(WinnerOf(x)) else s.champion
  {
    hide Settle, Rank, StandingOf, Ranked, Rated, Scored, PointsAt, EntriesOf;
    if b in s.battles {
      RankIs(s.table, s.battles[b], e);
      ScoredIs(s, b, p);
    }
    SettleShape(s, b, league);
  }

  lemma SettleShape(s: State, b: BattleId, league: bool)
    ensures var r := Settle(s, b, league);
            if b !in s.battles then r == Err(BattleNotFound)
            else
              var x := s.battles[b];
              var fits := if league then x.kind.League?
                          else x.kind.QuarterFinals? || x.kind.SemiFinals? || x.kind.Finals?;
              if !fits || x.status != Completed then
                r == Err(if fits || (league && x.status != Completed) then BattleStatusError else BattleTypeError)
              else
                r == Ok(s.(battles := s.battles[b := x.(status := Finalized)],
                           points := if x.ours then Scored(s, b, WinnerOf(x)) else s.points,
                           table := if x.ours && x.kind.League? then Rank(s.table, x) else s.table,
                           champion := if x.ours && x.kind.Finals? then Some(WinnerOf(x)) else s.champion))
  {
    hide Rank, Scored;
    if b in s.battles {
      OutcomeIs(s.battles[b]);
    }
  }

  lemma ScoredIs(s: State, b: BattleId, p: Part)
    requires b in s.battles
    ensures var x := s.battles[b];
            var points := if x.ours then Scored(s, b, WinnerOf(x)) else s.points;
            && Rated(s, b, p, PointsAt(s.points, p), PointsAt(points, p))
            && (p in points <==> p in s.points || (x.ours && p in EntriesOf(s.entries, b)))
  {
  }

  // --- votes ---

  /** A pick is accepted on a running battle of the season that has not started, for one of its two sides; a first pick
      must be on the opening round. The order of the checks decides what a refused pick reports. */
  lemma PickCall(s: State, p: Pick, initial: bool)
    ensures var r := CheckPick(s, p, initial);
            if p.battle !in s.battles then r == Err(BattleNotFound)
            else
              var x := s.battles[p.battle];
              var side := p.npc in {x.home, x.visiting};
              if x.status != Running then r == Err(if initial && !side then NpcNotInBattle else BattleStatusError)
              else if !side then r == Err(NpcNotInBattle)
              else if initial && x.kind != s.first then r == Err(BattleTypeError)
              else if !x.ours then r == Err(BattleNotInSeason)
              else if !x.upcoming then r == Err(BettingOverTime)
              else r == Ok(())
  {
  }

  /** Picks of which each may be entered, and each fits into its battle, where the selection may be entered already. */
  predicate Enterable(s: State, part: Part, picks: seq<Pick>, mode: Mode) {
    forall i | 0 <= i < |picks| ::
      && (mode == Copy || CheckPick(s, picks[i], mode == Initial).Ok?)
      && (part in EntriesOf(s.entries, picks[i].battle) || |EntriesOf(s.entries, picks[i].battle)| < s.capacity)
  }

  /** Only the entries of battles among `picks` have changed. */
  ghost predicate EntersOnly(s: State, s': State, picks: seq<Pick>) {
    && s' == s.(entries := s'.entries)
    && forall b: BattleId | (forall i | 0 <= i < |picks| :: picks[i].battle != b) ::
         EntriesOf(s'.entries, b) == EntriesOf(s.entries, b)
  }

  /** Entering picks on different battles goes through exactly if each can be entered. */
  lemma {:induction false} PlaceCall(s: State, part: Part, picks: seq<Pick>, mode: Mode)
    requires Distinct(picks)
    ensures Place(s, part, picks, mode).Ok? <==> Enterable(s, part, picks, mode)
    ensures Place(s, part, picks, mode).Ok? ==> EntersOnly(s, Place(s, part, picks, mode).value, picks)
  {
    hide CheckPick, Enter, Distinct, Enterable, EntersOnly, EntriesOf;
    if picks == [] {
      NothingEntered(s, part, mode);
    } else {
      var before, p := picks[..|picks| - 1], picks[|picks| - 1];
      assert picks == before + [p];
      DistinctMore(before, p);
      PlaceCall(s, part, before, mode);
      EnterableMore(s, part, before, p, mode);
      if Place(s, part, before, mode).Ok? {
        EnterOne(s, Place(s, part, before, mode).value, part, before, p);
      }
    }
  }

  lemma NothingEntered(s: State, part: Part, mode: Mode)
    ensures Enterable(s, part, [], mode) && EntersOnly(s, s, [])
  {
  }

  lemma DistinctMore(before: seq<Pick>, p: Pick)
    requires Distinct(before + [p])
    ensures Distinct(before) && forall i | 0 <= i < |before| :: before[i].battle != p.battle
  {
    var picks := before + [p];
    assert picks[|before|] == p && forall i | 0 <= i < |before| :: picks[i] == before[i];
  }

  lemma EnterOne(s: State, s1: State, part: Part, before: seq<Pick>, p: Pick)
    requires EntersOnly(s, s1, before) && forall i | 0 <= i < |before| :: before[i].battle != p.battle
    ensures Enter(s1, part, p).Ok? <==>
            part in EntriesOf(s.entries, p.battle) || |EntriesOf(s.entries, p.battle)| < s.capacity
    ensures Enter(s1, part, p).Ok? ==> EntersOnly(s, Enter(s1, part, p).value, before + [p])
  {
    if Enter(s1, part, p).Ok? {
      var s2, picks := Enter(s1, part, p).value, before + [p];
      forall b: BattleId | forall i | 0 <= i < |picks| :: picks[i].battle != b
        ensures EntriesOf(s2.entries, b) == EntriesOf(s.entries, b)
      {
        assert picks[|before|] == p && forall i | 0 <= i < |before| :: picks[i] == before[i];
      }
    }
  }

  lemma EnterableMore(s: State, part: Part, before: seq<Pick>, p: Pick, mode: Mode)
    ensures Enterable(s, part, before + [p], mode) <==>
            && Enterable(s, part, before, mode)
            && (mode == Copy || CheckPick(s, p, mode == Initial).Ok?)
            && (part in EntriesOf(s.entries, p.battle) || |EntriesOf(s.entries, p.battle)| < s.capacity)
  {
    hide CheckPick;
    var picks := before + [p];
    assert picks[|before|] == p && forall i | 0 <= i < |before| :: picks[i] == before[i];
  }

  /** No battle is picked twice. */
  predicate Single(picks: seq<Pick>) {
    forall i, j | 0 <= i < j < |picks| :: picks[i].battle != picks[j].battle
  }

  lemma SingleIs(picks: seq<Pick>)
    ensures Single(picks) <==> Distinct(picks)
  {
  }

  /** The first pick that cannot be entered decides what is reported. */
  lemma {:induction false} PlaceRefused(s: State, part: Part, picks: seq<Pick>, mode: Mode, i: nat)
    requires Distinct(picks) && i < |picks| && Enterable(s, part, picks[..i], mode)
    requires !Enterable(s, part, picks[..i + 1], mode)
    ensures var checked := mode != Copy && CheckPick(s, picks[i], mode == Initial).Err?;
            Place(s, part, picks, mode)
            == Err(if checked then CheckPick(s, picks[i], mode == Initial).error else ParticipantOverflow)
  {
    hide CheckPick, Distinct, Enterable, EntersOnly, EntriesOf;
    var n := |picks| - 1;
    var before := picks[..n];
    assert picks == before + [picks[n]];
    DistinctMore(before, picks[n]);
    if i < n {
      assert before[..i] == picks[..i] && before[..i + 1] == picks[..i + 1];
      PlaceRefused(s, part, before, mode, i);
    } else {
      assert picks[..i + 1] == picks;
      PlaceCall(s, part, before, mode);
      EnterableMore(s, part, before, picks[n], mode);
      EnterOne(s, Place(s, part, before, mode).value, part, before, picks[n]);
    }
  }

  /** The tickets of an account. */
  function Has(s: State, who: Account): nat {
    if who in s.tickets then s.tickets[who] else 0
  }

  /** The selections of an account, and whether it has claimed; none and no without a record. */
  function Record(s: State, who: Account): Votes {
    if who in s.votes then s.votes[who] else Votes([], false)
  }

  lemma RecordIs(s: State, who: Account)
    ensures Record(s, who) == VotesOf(s, who) && Has(s, who) == TicketsOf(s, who)
  {
  }

  /** A first vote needs picks, at least one ticket and no more than the account has, and battles of which none is
      picked twice; it opens a new selection with the tickets it takes. */
  lemma VoteCall(s: State, who: Account, tickets: nat, picks: seq<Pick>)
    ensures InitialVote(s, who, tickets, picks).Ok? <==>
            && picks != [] && 0 < tickets <= Has(s, who) && Single(picks)
            && Enterable(s, (who, |Record(s, who).selects|), picks, Initial)
    ensures InitialVote(s, who, tickets, picks).Ok? ==>
              var s', v := InitialVote(s, who, tickets, picks).value, Record(s, who);
              && s' == s.(entries := s'.entries, votes := s'.votes, tickets := s'.tickets)
              && s'.votes == s.votes[who := Votes(v.selects + [Select(tickets, picks)], v.claimed)]
              && (forall a: Account :: Has(s', a) == Has(s, a) - if a == who then tickets else 0)
              && (forall b: BattleId, q: Part ::
                    Entered(s', b, q)
                    == if q == (who, |v.selects|) && PickOf(picks, b).Some? then PickOf(picks, b) else Entered(s, b, q))
  {
    hide Place, Distinct, Single, Enterable, Entered, PickOf;
    SingleIs(picks);
    RecordIs(s, who);
    var part := (who, |VotesOf(s, who).selects|);
    if Distinct(picks) {
      PlaceCall(s, part, picks, Initial);
    }
    if InitialVote(s, who, tickets, picks).Ok? {
      var s' := InitialVote(s, who, tickets, picks).value;
      PlaceEffect(s, part, picks, Initial, 0, part);
      forall b: BattleId, q: Part
        ensures Entered(s', b, q)
                == if q == part && PickOf(picks, b).Some? then PickOf(picks, b) else Entered(s, b, q)
      {
        PlaceEffect(s, part, picks, Initial, b, q);
        SameEntries(Place(s, part, picks, Initial).value, s', b, q);
      }
    }
  }

  /** The codes of the rounds. */
  function RoundCode(kind: BattleType): nat {
    match kind
    case SixteenthFinals => 16
    case EighthFinals => 8
    case QuarterFinals => 4
    case SemiFinals => 2
    case Finals => 1
    case League => 255
  }

  /** More picks for tickets of a selection: the round named must come after the opening round, and no battle of the
      selection may be picked again. */
  predicate Appendable(s: State, who: Account, index: nat, code: nat, tickets: nat, picks: seq<Pick>) {
    var selects := Record(s, who).selects;
    && picks != [] && code < RoundCode(s.first) && code in {1, 2, 4, 8, 16, 255}
    && index < |selects| && 0 < tickets <= selects[index].tickets
    && Single(picks) && (forall p, q | p in selects[index].picks && q in picks :: p.battle != q.battle)
    && (forall i | 0 <= i < |picks| :: CheckPick(s, picks[i], false).Ok?)
  }

  /** With all of its tickets a selection takes the new picks itself. */
  lemma ExtendCall(s: State, who: Account, index: nat, code: nat, tickets: nat, picks: seq<Pick>)
    requires index < |VotesOf(s, who).selects| && VotesOf(s, who).selects[index].tickets == tickets
    ensures var r, v := AppendVote(s, who, index, code, tickets, picks), VotesOf(s, who);
            && (r.Ok? <==>
                  Appendable(s, who, index, code, tickets, picks) && Enterable(s, (who, index), picks, Append))
            && (r.Ok? ==>
                  && r.value == s.(entries := r.value.entries, votes := r.value.votes)
                  && r.value.votes
                     == s.votes[who := Votes(v.selects[index := Select(tickets, v.selects[index].picks + picks)],
                                             v.claimed)]
                  && forall b: BattleId, q: Part ::
                       Entered(r.value, b, q)
                       == if q == (who, index) && PickOf(picks, b).Some? then PickOf(picks, b) else Entered(s, b, q))
  {
    hide Place, Distinct, Single, Enterable, Entered, PickOf, CheckPick;
    SingleIs(picks);
    if Distinct(picks) {
      PlaceCall(s, (who, index), picks, Append);
      if Enterable(s, (who, index), picks, Append) {
        EnterableChecked(s, (who, index), picks);
      }
    }
    var r := AppendVote(s, who, index, code, tickets, picks);
    if r.Ok? {
      PlaceEffect(s, (who, index), picks, Append, 0, (who, index));
      forall b: BattleId, q: Part
        ensures Entered(r.value, b, q)
                == if q == (who, index) && PickOf(picks, b).Some? then PickOf(picks, b) else Entered(s, b, q)
      {
        PlaceEffect(s, (who, index), picks, Append, b, q);
        SameEntries(Place(s, (who, index), picks, Append).value, r.value, b, q);
      }
    }
  }

  lemma EnterableChecked(s: State, part: Part, picks: seq<Pick>)
    requires Enterable(s, part, picks, Append)
    ensures forall i | 0 <= i < |picks| :: CheckPick(s, picks[i], false).Ok?
  {
    hide CheckPick;
  }

  lemma {:induction false} CheckedAll(s: State, picks: seq<Pick>)
    ensures CheckAll(s, picks).Ok? <==> forall i | 0 <= i < |picks| :: CheckPick(s, picks[i], false).Ok?
  {
    hide CheckPick;
    if picks == [] {
    } else {
      CheckedAll(s, picks[..|picks| - 1]);
    }
  }

  lemma JoinDistinct(had: seq<Pick>, picks: seq<Pick>)
    requires Distinct(had) && Fresh(had, picks)
    ensures Distinct(had + picks)
  {
    var all := had + picks;
    forall i, j | 0 <= i < j < |all|
      ensures all[i].battle != all[j].battle
    {
      if i < |had| <= j {
        assert all[i] in had && all[j] in picks;
      }
    }
  }

  /** With some of its tickets a selection is split: they leave with its picks, the new picks and a copy of its points,
      and become a selection of their own. */
  lemma SplitCall(s: State, who: Account, index: nat, code: nat, tickets: nat, picks: seq<Pick>)
    requires index < |VotesOf(s, who).selects| && tickets < VotesOf(s, who).selects[index].tickets
    requires Single(VotesOf(s, who).selects[index].picks)
    ensures var r, v := AppendVote(s, who, index, code, tickets, picks), VotesOf(s, who);
            var sel, n := v.selects[index], |v.selects|;
            && (r.Ok? <==>
                  Appendable(s, who, index, code, tickets, picks) && Enterable(s, (who, n), sel.picks + picks, Copy))
            && (r.Ok? ==>
                  && r.value == s.(entries := r.value.entries, votes := r.value.votes, points := r.value.points)
                  && r.value.votes
                     == s.votes[who := Votes(v.selects[index := Select(sel.tickets - tickets, sel.picks)]
                                             + [Select(tickets, sel.picks + picks)], v.claimed)]
                  && r.value.points == s.points[(who, n) := PointsOf(s, (who, index))])
  {
    hide Place, Distinct, Single, Enterable, Entered, PickOf, CheckPick, CheckAll;
    SingleIs(picks);
    SingleIs(VotesOf(s, who).selects[index].picks);
    var sel, n := VotesOf(s, who).selects[index], |VotesOf(s, who).selects|;
    CheckedAll(s, picks);
    if Fresh(sel.picks, picks) {
      JoinDistinct(sel.picks, picks);
      PlaceCall(s, (who, n), sel.picks + picks, Copy);
    }
    if Place(s, (who, n), sel.picks + picks, Copy).Ok? {
      PlaceEffect(s, (who, n), sel.picks + picks, Copy, 0, (who, n));
    }
  }

  lemma SplitEnters(
    s: State, who: Account, index: nat, code: nat, tickets: nat, picks: seq<Pick>, b: BattleId, q: Part)
    requires index < |VotesOf(s, who).selects| && tickets < VotesOf(s, who).selects[index].tickets
    requires AppendVote(s, who, index, code, tickets, picks).Ok?
    ensures var v := VotesOf(s, who);
            var all := v.selects[index].picks + picks;
            Entered(AppendVote(s, who, index, code, tickets, picks).value, b, q)
            == if q == (who, |v.selects|) && PickOf(all, b).Some? then PickOf(all, b) else Entered(s, b, q)
  {
    hide Place, Distinct, Entered, PickOf, CheckPick, CheckAll;
    var v := VotesOf(s, who);
    var all, part := v.selects[index].picks + picks, (who, |v.selects|);
    PlaceEffect(s, part, all, Copy, b, q);
    SameEntries(Place(s, part, all, Copy).value, AppendVote(s, who, index, code, tickets, picks).value, b, q);
  }

  // --- prizes ---

  /** The wins that make a champion: the number of battles of a season that opens with the given round. */
  function BattlesFrom(first: BattleType): nat {
    match first
    case SixteenthFinals => 31
    case EighthFinals => 15
    case QuarterFinals => 7
    case SemiFinals => 3
    case Finals => 1
    case League => 35
  }

  /** A close gives seven eighths of the treasury, rounded down, to those with a win in every battle, and the rest to
      those with one less; it fails only if a number overflows. */
  lemma CloseCall(s: State)
    ensures var r, n, held := Close(s), BattlesFrom(s.first), FreeOf(s.purse, s.treasury);
            && (r.Ok? <==>
                  && CountedTickets(s, n) <= U32_MAX && CountedTickets(s, n - 1) <= U32_MAX && held * 7 <= U128_MAX)
            && (r.Ok? ==>
                  && r.value == s.(closed := true, prizes := r.value.prizes) && |r.value.prizes| == 2
                  && var first, second := r.value.prizes[0], r.value.prizes[1];
                  && first.wins == n && second.wins == n - 1
                  && first.tickets == CountedTickets(s, n) && second.tickets == CountedTickets(s, n - 1)
                  && 8 * first.bonus <= 7 * held < 8 * first.bonus + 8 && first.bonus + second.bonus == held)
  {
    hide CountedTickets, FreeOf;
  }

  /** The picks on winners. */
  ghost function Hits(winners: map<BattleId, Npc>, picks: seq<Pick>): set<nat> {
    set i: nat | 0 <= i < |picks| && picks[i].battle in winners && winners[picks[i].battle] == picks[i].npc
  }

  /** A selection is counted once all its battles have a result, and then by its picks on winners. */
  lemma {:induction false} RightIs(winners: map<BattleId, Npc>, picks: seq<Pick>)
    ensures Right(winners, picks)
            == if forall i | 0 <= i < |picks| :: picks[i].battle in winners then Some(|Hits(winners, picks)|) else None
  {
    if picks == [] {
      assert Hits(winners, picks) == {};
    } else {
      var n := |picks| - 1;
      var before, p := picks[..n], picks[n];
      RightIs(winners, before);
      assert forall i | 0 <= i < n :: before[i] == picks[i];
      if p.battle in winners && winners[p.battle] == p.npc {
        assert Hits(winners, picks) == Hits(winners, before) + {n};
      } else {
        assert Hits(winners, picks) == Hits(winners, before);
      }
    }
  }

  /** What one ticket of a class gets: a hundred ticket prices or, if that is less, the bonus divided by the tickets,
      rounded down. */
  lemma RateIs(p: Prize, price: nat)
    requires p.tickets > 0 && price * 100 <= U128_MAX
    ensures var rate := Rate(p, price);
            && rate <= 100 * price && rate * p.tickets <= p.bonus
            && (rate == 100 * price || p.bonus < (rate + 1) * p.tickets)
  {
    var q := p.bonus / p.tickets;
    FloorBounds(p.bonus, p.tickets);
    assert (q + 1) * p.tickets == q * p.tickets + p.tickets;
    if q > 100 * price {
      MulMono(100 * price, q, p.tickets);
    }
  }

  /** A closed season pays each account once, out of the treasury, what its selections have won. */
  lemma PrizeClaimCall(s: State, who: Account)
    ensures var r, v, prize := Claim(s, who), Record(s, who), Prized(s, Record(s, who).selects);
            if !s.closed then r == Err(SeasonStatusError)
            else if v.selects == [] || v.claimed then r == Err(HaveNoBonus)
            else if prize.None? || prize.value > U128_MAX then r == Err(Arithmetic)
            else if who != s.treasury && FreeOf(s.purse, s.treasury) < prize.value then
              r == Err(Payment(InsufficientBalance))
            else if prize.value > 0 && who != s.treasury && FreeOf(s.purse, who) + prize.value > U128_MAX then
              r == Err(Payment(PayError.Overflow))
            else
              && r.Ok?
              && r.value == s.(purse := r.value.purse, votes := s.votes[who := Votes(v.selects, true)])
              && Moves(s.purse, r.value.purse, s.treasury, who, prize.value)
  {
    hide Prized, Pay, FreeOf;
    if Prized(s, VotesOf(s, who).selects).Some? {
      PayCases(s.purse, s.treasury, who, Prized(s, VotesOf(s, who).selects).value);
    }
  }
}
