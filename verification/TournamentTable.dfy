/** The league table and the champion, kept settlement by settlement, are what the settled battles say. */
module TournamentTable {
  import opened Arith
  import opened Sums
  import opened Wrappers
  import opened Ledgers
  import opened Purses
  import opened Tournament
  import opened TournamentCounts

  /** What a battle contributes to a character's line. */
  datatype Column = Wins | Losses | Gained | Dropped

  /** Settled league battles of this season count. */
  function Cell(c: Column, e: Npc, x: Battle): nat {
    if !x.ours || x.kind != League || x.status != Finalized then 0
    else match c
      case Wins => if x.Winner() == e then 1 else 0
      case Losses => if x.Loser() == e then 1 else 0
      case Gained => if x.Winner() == e then x.Margin() else 0
      case Dropped => if x.Loser() == e then x.Margin() else 0
  }

  function CellAt(c: Column, e: Npc, b: BattleId, x: Battle): nat {
    Cell(c, e, x)
  }

  function Cells(c: Column, e: Npc): (BattleId, Battle) -> nat {
    (b: BattleId, x: Battle) => CellAt(c, e, b, x)
  }

  /** A column recounted from the battles. */
  ghost function Recount(s: State, c: Column, e: Npc): nat {
    Sum(s.battles, Cells(c, e))
  }

  lemma RecountPut(s: State, s': State, b: BattleId, x: Battle, c: Column, e: Npc)
    requires s'.battles == s.battles[b := x]
    ensures Recount(s', c, e) + (if b in s.battles then Cell(c, e, s.battles[b]) else 0)
            == Recount(s, c, e) + Cell(c, e, x)
  {
    hide Cell;
    SumPut(s.battles, b, x, Cells(c, e));
  }

  /** The line of `e` agrees with the recount in all columns. */
  ghost predicate LineRight(s: State, e: Npc) {
    var line := StandingOf(s.table, e);
    && line.wins == Recount(s, Wins, e)
    && line.played == Recount(s, Wins, e) + Recount(s, Losses, e)
    && line.score == 3 * Recount(s, Wins, e)
    && line.diff == Recount(s, Gained, e) - Recount(s, Dropped, e)
  }

  /** What a league battle does to the line of `e`. */
  lemma RankEffect(table: map<Npc, Standing>, x: Battle, e: Npc)
    requires x.ours && x.kind == League && x.status == Finalized
    ensures var was, now := StandingOf(table, e), StandingOf(Rank(table, x), e);
            && now.wins == was.wins + Cell(Wins, e, x)
            && now.played == was.played + Cell(Wins, e, x) + Cell(Losses, e, x)
            && now.score == was.score + 3 * Cell(Wins, e, x)
            && now.diff == was.diff + Cell(Gained, e, x) - Cell(Dropped, e, x)
  {
  }

  lemma SettleTable(s: State, b: BattleId, league: bool)
    requires Settle(s, b, league).Ok?
    ensures var s' := Settle(s, b, league).value;
            var x := s.battles[b];
            && b in s.battles && x.status == Completed && Settles(x.kind, league)
            && s'.battles == s.battles[b := x.(status := Finalized)]
            && s'.table == (if x.ours && x.kind == League then Rank(s.table, x.(status := Finalized)) else s.table)
            && s'.champion == if x.ours && x.kind == Finals then Some(x.Winner()) else s.champion
  {
    hide Scored;
  }

  lemma SettleLine(s: State, b: BattleId, league: bool, e: Npc)
    requires Settle(s, b, league).Ok? && LineRight(s, e)
    ensures LineRight(Settle(s, b, league).value, e)
  {
    hide Settle, Rank, Recount, StandingOf;
    SettleTable(s, b, league);
    var s', x := Settle(s, b, league).value, s.battles[b].(status := Finalized);
    RecountPut(s, s', b, x, Wins, e);
    RecountPut(s, s', b, x, Losses, e);
    RecountPut(s, s', b, x, Gained, e);
    RecountPut(s, s', b, x, Dropped, e);
    if x.ours && x.kind == League {
      RankEffect(s.table, x, e);
    }
  }

  /** Other calls leave settled battles, the table and the champion alone. */
  lemma OtherTable(s: State, op: Op, c: Column, e: Npc)
    requires !op.Settling? && Orderly(s, op) && Call(s, op).Ok?
    ensures var s' := Call(s, op).value;
            && s'.table == s.table && s'.champion == s.champion && Recount(s', c, e) == Recount(s, c, e)
            && forall b: BattleId :: IsSettled(s', b) == IsSettled(s, b)
                                     && (IsSettled(s, b) && IsSettled(s', b) ==>
                                           SameOutcome(s.battles[b], s'.battles[b]))
  {
    hide InitialVote, AppendVote, Settle, Close, Claim, Recount;
    var s' := Call(s, op).value;
    match op
    case Closing =>
      CloseFrame(s);
      RecountSame(s, s', c, e);
    case Claiming(who) =>
      ClaimFrame(s, who);
      RecountSame(s, s', c, e);
    case Scheduling(b, _, _, _, _) => RecountPut(s, s', b, s'.battles[b], c, e);
    case Starting(b) => RecountPut(s, s', b, s'.battles[b], c, e);
    case Resulting(b, home, visiting) => RecountPut(s, s', b, s'.battles[b], c, e);
    case Voting(_, _, _) =>
      VoteFrame(s, op);
      RecountSame(s, s', c, e);
    case Appending(_, _, _, _, _) =>
      VoteFrame(s, op);
      RecountSame(s, s', c, e);
    case _ => RecountSame(s, s', c, e);
  }

  lemma RecountSame(s: State, s': State, c: Column, e: Npc)
    requires s'.battles == s.battles
    ensures Recount(s', c, e) == Recount(s, c, e)
  {
  }

  predicate SameOutcome(x: Battle, y: Battle) {
    x.ours == y.ours && x.kind == y.kind && x.Winner() == y.Winner()
  }

  lemma StepLine(s: State, op: Op, e: Npc)
    requires LineRight(s, e)
    ensures LineRight(Step(s, op), e)
  {
    hide Call, Orderly, Recount, StandingOf;
    if Orderly(s, op) && Call(s, op).Ok? {
      if op.Settling? {
        CallSettles(s, op);
        SettleLine(s, op.b, op.league, e);
      } else {
        OtherTable(s, op, Wins, e);
        OtherTable(s, op, Losses, e);
        OtherTable(s, op, Gained, e);
        OtherTable(s, op, Dropped, e);
      }
    }
  }

  lemma CallSettles(s: State, op: Op)
    requires op.Settling?
    ensures Call(s, op) == Settle(s, op.b, op.league)
  {
    hide Settle;
  }

  /** In every run the line of each character holds the wins, battles, three points a win and score difference that a
      recount of the settled league battles gives. */
  lemma {:induction false} LeagueTable(s: State, ops: seq<Op>, e: Npc)
    requires s.battles == map[] && s.table == map[]
    ensures LineRight(Run(s, ops), e)
  {
    hide Step, LineRight;
    if ops == [] {
      LineEmpty(s, e);
    } else {
      LeagueTable(s, ops[..|ops| - 1], e);
      StepLine(Run(s, ops[..|ops| - 1]), ops[|ops| - 1], e);
    }
  }

  lemma LineEmpty(s: State, e: Npc)
    requires s.battles == map[] && s.table == map[]
    ensures LineRight(s, e)
  {
  }

  // --- the champion ---

  predicate IsFinal(s: State, b: BattleId) {
    IsSettled(s, b) && s.battles[b].ours && s.battles[b].kind == Finals
  }

  /** There is a champion exactly when a final has been settled, and it is the winner of one. */
  ghost predicate ChampionRight(s: State) {
    && (s.champion.None? ==> forall b: BattleId :: !IsFinal(s, b))
    && (s.champion.Some? ==> exists b: BattleId :: IsFinal(s, b) && s.battles[b].Winner() == s.champion.value)
  }

  lemma SettleChampion(s: State, b: BattleId, league: bool)
    requires Settle(s, b, league).Ok? && ChampionRight(s)
    ensures ChampionRight(Settle(s, b, league).value)
  {
    hide Settle, Rank;
    var s' := Settle(s, b, league).value;
    SettleTable(s, b, league);
    if s'.champion.None? {
      forall c: BattleId
        ensures !IsFinal(s', c)
      {
        assert !IsFinal(s, c);
      }
    } else if s.battles[b].ours && s.battles[b].kind == Finals {
      assert IsFinal(s', b);
    } else {
      var c: BattleId :| IsFinal(s, c) && s.battles[c].Winner() == s.champion.value;
      assert IsFinal(s', c);
    }
  }

  lemma OtherChampion(s: State, op: Op)
    requires !op.Settling? && Orderly(s, op) && Call(s, op).Ok? && ChampionRight(s)
    ensures ChampionRight(Call(s, op).value)
  {
    hide Call, Orderly, Recount;
    var s' := Call(s, op).value;
    OtherTable(s, op, Wins, 0);
    if s.champion.None? {
      forall c: BattleId
        ensures !IsFinal(s', c)
      {
        assert !IsFinal(s, c);
      }
    } else {
      var c: BattleId :| IsFinal(s, c) && s.battles[c].Winner() == s.champion.value;
      assert IsFinal(s', c);
    }
  }

  /** In every run the champion is the winner of a settled final, and is there as soon as one is settled. */
  lemma {:induction false} RunChampion(s: State, ops: seq<Op>)
    requires s.battles == map[] && s.champion == None
    ensures ChampionRight(Run(s, ops))
  {
    hide Call, Orderly, ChampionRight;
    if ops == [] {
      NoFinals(s);
    } else {
      var s1, op := Run(s, ops[..|ops| - 1]), ops[|ops| - 1];
      RunChampion(s, ops[..|ops| - 1]);
      if Orderly(s1, op) && Call(s1, op).Ok? {
        if op.Settling? {
          CallSettles(s1, op);
          SettleChampion(s1, op.b, op.league);
        } else {
          OtherChampion(s1, op);
        }
      }
    }
  }

  lemma NoFinals(s: State)
    requires s.battles == map[] && s.champion == None
    ensures ChampionRight(s)
  {
  }
}
