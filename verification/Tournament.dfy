/** One season of the tournament: votes on battles, results, settlement, closing and prize claims. */
module Tournament {
  import opened Arith
  import opened Wrappers
  import opened Ledgers
  import opened Purses

  type BattleId = nat
  type Npc = nat
  /** A participant is an account together with one of its selections. */
  type Part = (Account, nat)

  datatype Error =
    | BattleNotFound | NpcNotInBattle | BattleTypeError | BattleStatusError | BattleNotInSeason | BettingOverTime
    | ParticipantOverflow | VoteSelectZero | TicketAmountError | DuplicateBetting | SelectIndexOverflow
    | SeasonStatusError | HaveNoBonus | Arithmetic | Payment(error: PayError)

  type Attempt<+T> = Result<T, Error>

  datatype BattleType = SixteenthFinals | EighthFinals | QuarterFinals | SemiFinals | Finals | League {
    function Code(): nat {
      match this
      case SixteenthFinals => 16
      case EighthFinals => 8
      case QuarterFinals => 4
      case SemiFinals => 2
      case Finals => 1
      case League => 255
    }

    /** The number of battles of a season that starts with this type. */
    function TotalBattles(): (n: nat)
      ensures n >= 1
    {
      match this
      case SixteenthFinals => 31
      case EighthFinals => 15
      case QuarterFinals => 7
      case SemiFinals => 3
      case Finals => 1
      case League => 35
    }
  }

  datatype BattleStatus = Running | Completed | Finalized

  /** `ours`: the battle belongs to this season; `upcoming`: it has not started yet. */
  datatype Battle = Battle(
    home: Npc, visiting: Npc, kind: BattleType, ours: bool, status: BattleStatus, upcoming: bool, homeScore: nat,
    visitingScore: nat)
  {
    /** A draw goes to the visiting side. */
    function Winner(): Npc { if homeScore > visitingScore then home else visiting }

    function Loser(): Npc { if homeScore > visitingScore then visiting else home }

    function Margin(): nat {
      if homeScore > visitingScore then homeScore - visitingScore else visitingScore - homeScore
    }
  }

  datatype Pick = Pick(battle: BattleId, npc: Npc)

  datatype Select = Select(tickets: nat, picks: seq<Pick>)

  datatype Votes = Votes(selects: seq<Select>, claimed: bool)

  datatype Points = Points(played: nat, wins: nat, score: nat)

  /** A line of the league table; `diff` is what was scored minus what was conceded. */
  datatype Standing = Standing(played: nat, wins: nat, score: nat, diff: int)

  /** A prize class: wins needed, tickets that reached it, and the bonus they share. */
  datatype Prize = Prize(wins: nat, tickets: nat, bonus: nat)

  datatype State = State(
    first: BattleType, price: nat, capacity: nat, treasury: Account,
    battles: map<BattleId, Battle>, tickets: map<Account, nat>, votes: map<Account, Votes>,
    entries: map<BattleId, map<Part, Npc>>, points: map<Part, Points>, winners: map<BattleId, Npc>,
    champion: Option<Npc>, table: map<Npc, Standing>, closed: bool, prizes: seq<Prize>, purse: Purse)

  function VotesOf(s: State, a: Account): Votes {
    if a in s.votes then s.votes[a] else Votes([], false)
  }

  function PointsOf(s: State, p: Part): Points {
    PointsAt(s.points, p)
  }

  function EntriesOf(entries: map<BattleId, map<Part, Npc>>, b: BattleId): map<Part, Npc> {
    if b in entries then entries[b] else map[]
  }

  // --- voting ---

  /** The checks on a single pick; a first vote is for the opening round only. */
  function CheckPick(s: State, p: Pick, initial: bool): Attempt<()> {
    if p.battle !in s.battles then Err(BattleNotFound)
    else
      var b := s.battles[p.battle];
      if initial && p.npc != b.home && p.npc != b.visiting then Err(NpcNotInBattle)
      else if b.status != Running then Err(BattleStatusError)
      else if p.npc != b.home && p.npc != b.visiting then Err(NpcNotInBattle)
      else if initial && b.kind != s.first then Err(BattleTypeError)
      else if !b.ours then Err(BattleNotInSeason)
      else if !b.upcoming then Err(BettingOverTime)
      else Ok(())
  }

  /** `try_insert` into the bounded map of a battle. */
  function Enter(s: State, part: Part, p: Pick): Attempt<State> {
    var m := EntriesOf(s.entries, p.battle);
    if part !in m && |m| >= s.capacity then Err(ParticipantOverflow)
    else Ok(s.(entries := s.entries[p.battle := m[part := p.npc]]))
  }

  datatype Mode = Initial | Append | Copy

  /** Checks and enters the picks one after the other. */
  function Place(s: State, part: Part, picks: seq<Pick>, mode: Mode): Attempt<State> {
    if picks == [] then Ok(s)
    else
      var s1 :- Place(s, part, picks[..|picks| - 1], mode);
      var p := picks[|picks| - 1];
      if mode != Copy && CheckPick(s, p, mode == Initial).Err? then Err(CheckPick(s, p, mode == Initial).error)
      else Enter(s1, part, p)
  }

  function CheckAll(s: State, picks: seq<Pick>): Attempt<()> {
    if picks == [] then Ok(())
    else
      var _ :- CheckAll(s, picks[..|picks| - 1]);
      CheckPick(s, picks[|picks| - 1], false)
  }

  /** No battle is picked twice. */
  predicate Distinct(picks: seq<Pick>) {
    forall i, j | 0 <= i < j < |picks| :: picks[i].battle != picks[j].battle
  }

  /** No new pick repeats a battle, be it of the old picks or of the new ones. */
  predicate Fresh(had: seq<Pick>, picks: seq<Pick>) {
    Distinct(picks) && forall p, q | p in had && q in picks :: p.battle != q.battle
  }

  function TicketsOf(s: State, a: Account): nat {
    if a in s.tickets then s.tickets[a] else 0
  }

  function InitialVote(s: State, who: Account, tickets: nat, picks: seq<Pick>): Attempt<State> {
    if picks == [] then Err(VoteSelectZero)
    else if TicketsOf(s, who) < tickets || tickets == 0 then Err(TicketAmountError)
    else
      var v := VotesOf(s, who);
      var s1 :- Place(s, (who, |v.selects|), picks, Initial);
      if !Distinct(picks) then Err(DuplicateBetting)
      else
        Ok(s1.(votes := s.votes[who := v.(selects := v.selects + [Select(tickets, picks)])],
               tickets := s.tickets[who := TicketsOf(s, who) - tickets]))
  }

  predicate ValidCode(code: nat) {
    code in {255, 16, 8, 4, 2, 1}
  }

  /** The whole selection takes the new picks. */
  function Extend(s: State, who: Account, index: nat, picks: seq<Pick>): Attempt<State>
    requires index < |VotesOf(s, who).selects|
  {
    var v := VotesOf(s, who);
    var sel := v.selects[index];
    var s1 :- Place(s, (who, index), picks, Append);
    Ok(s1.(votes := s.votes[who := v.(selects := v.selects[index := sel.(picks := sel.picks + picks)])]))
  }

  /** Some tickets leave a selection with its picks and its points, and take the new picks. */
  function Split(s: State, who: Account, index: nat, tickets: nat, picks: seq<Pick>): Attempt<State>
    requires index < |VotesOf(s, who).selects| && tickets <= VotesOf(s, who).selects[index].tickets
  {
    var v := VotesOf(s, who);
    var sel := v.selects[index];
    var _ :- CheckAll(s, picks);
    var s1 :- Place(s, (who, |v.selects|), sel.picks + picks, Copy);
    Ok(s1.(votes := s.votes[who := v.(selects :=
               v.selects[index := sel.(tickets := sel.tickets - tickets)] + [Select(tickets, sel.picks + picks)])],
           points := s.points[(who, |v.selects|) := PointsOf(s, (who, index))]))
  }

  /** More picks for a selection; when only some of its tickets follow, they become a selection of their own that starts
      with the old picks and the points earned so far. */
  function AppendVote(s: State, who: Account, index: nat, code: nat, tickets: nat, picks: seq<Pick>): Attempt<State> {
    var v := VotesOf(s, who);
    if picks == [] then Err(VoteSelectZero)
    else if s.first.Code() <= code || !ValidCode(code) then Err(BattleTypeError)
    else if |v.selects| <= index then Err(SelectIndexOverflow)
    else if v.selects[index].tickets < tickets || tickets == 0 then Err(TicketAmountError)
    else if !Fresh(v.selects[index].picks, picks) then Err(DuplicateBetting)
    else
      if v.selects[index].tickets == tickets then Extend(s, who, index, picks)
      else Split(s, who, index, tickets, picks)
  }

  // --- results ---

  /** The result of a battle of another season is recorded with that season. */
  function SetResult(s: State, b: BattleId, home: nat, visiting: nat): Attempt<State> {
    if b !in s.battles then Err(BattleNotFound)
    else if s.battles[b].ours && b !in s.winners && |s.winners| >= s.capacity then Err(ParticipantOverflow)
    else
      var battle := s.battles[b].(homeScore := home, visitingScore := visiting, status := Completed);
      Ok(s.(battles := s.battles[b := battle],
            winners := if battle.ours then s.winners[b := battle.Winner()] else s.winners))
  }

  function Score(p: Points, won: bool): Points {
    if won then Points(p.played + 1, p.wins + 1, p.score + 3) else p.(played := p.played + 1)
  }

  function PointsAt(points: map<Part, Points>, p: Part): Points {
    if p in points then points[p] else Points(0, 0, 0)
  }

  function ScoreAll(points: map<Part, Points>, m: map<Part, Npc>, winner: Npc): map<Part, Points> {
    points + map k | k in m :: Score(PointsAt(points, k), m[k] == winner)
  }

  /** `update_participant_point`: everyone entered in the battle is scored. */
  function Scored(s: State, b: BattleId, winner: Npc): map<Part, Points> {
    ScoreAll(s.points, EntriesOf(s.entries, b), winner)
  }

  function StandingOf(table: map<Npc, Standing>, e: Npc): Standing {
    if e in table then table[e] else Standing(0, 0, 0, 0)
  }

  /** `update_npc_league_point`: first the winner's line, then the loser's. */
  function Rank(table: map<Npc, Standing>, battle: Battle): map<Npc, Standing> {
    var w := StandingOf(table, battle.Winner());
    var won := table[battle.Winner() := Standing(w.played + 1, w.wins + 1, w.score + 3, w.diff + battle.Margin())];
    var l := StandingOf(won, battle.Loser());
    won[battle.Loser() := l.(played := l.played + 1, diff := l.diff - battle.Margin())]
  }

  /** The battles that `league_settle` and `finals_settle` accept. */
  predicate Settles(kind: BattleType, league: bool) {
    if league then kind == League else kind == QuarterFinals || kind == SemiFinals || kind == Finals
  }

  /** What a settled battle adds to the season it belongs to. */
  function Counted(s: State, b: BattleId, battle: Battle): State {
    s.(points := Scored(s, b, battle.Winner()),
       table := if battle.kind == League then Rank(s.table, battle) else s.table,
       champion := if battle.kind == Finals then Some(battle.Winner()) else s.champion)
  }

  /** `league_settle` and `finals_settle`, which check status and kind in opposite order. */
  function Settle(s: State, b: BattleId, league: bool): Attempt<State> {
    if b !in s.battles then Err(BattleNotFound)
    else
      var battle := s.battles[b];
      if league && battle.status != Completed then Err(BattleStatusError)
      else if !Settles(battle.kind, league) then Err(BattleTypeError)
      else if battle.status != Completed then Err(BattleStatusError)
      else
        var counted := if battle.ours then Counted(s, b, battle) else s;
        Ok(counted.(battles := s.battles[b := battle.(status := Finalized)]))
  }

  // --- closing ---

  /** The tickets behind a participant. */
  function Behind(votes: map<Account, Votes>, p: Part): nat {
    if p.0 in votes && p.1 < |votes[p.0].selects| then votes[p.0].selects[p.1].tickets else 0
  }

  function TicketsWith(votes: map<Account, Votes>, wins: nat, p: Part, e: Points): nat {
    if e.wins == wins then Behind(votes, p) else 0
  }

  function Reached(votes: map<Account, Votes>, wins: nat): (Part, Points) -> nat {
    (p: Part, e: Points) => TicketsWith(votes, wins, p, e)
  }

  /** Seven eighths of the treasury for the champions, the rest for the runners-up. */
  function PrizesFor(total: nat, champions: nat, runners: nat, treasury: nat): seq<Prize>
    requires total >= 1
  {
    [Prize(total, champions, treasury * 7 / 8), Prize(total - 1, runners, treasury - treasury * 7 / 8)]
  }

  /** `close_season`, given the ticket counts its loop has found. */
  function CloseWith(s: State, champions: nat, runners: nat): Attempt<State> {
    var treasury := FreeOf(s.purse, s.treasury);
    if champions > U32_MAX || runners > U32_MAX || treasury * 7 > U128_MAX then Err(Arithmetic)
    else Ok(s.(closed := true, prizes := PrizesFor(s.first.TotalBattles(), champions, runners, treasury)))
  }

  // --- claiming ---

  /** Picks whose battle was won by the chosen side; `None` when a battle has no result. */
  function Right(winners: map<BattleId, Npc>, picks: seq<Pick>): Option<nat> {
    if picks == [] then Some(0)
    else
      var before, p := Right(winners, picks[..|picks| - 1]), picks[|picks| - 1];
      if before.None? || p.battle !in winners then None
      else Some(before.value + if winners[p.battle] == p.npc then 1 else 0)
  }

  /** The bonus of one ticket is capped at a hundred times its price. */
  function PerTicket(p: Prize, price: nat): nat
    requires p.tickets > 0
  {
    if p.bonus / p.tickets > price * 100 then price * 100 else p.bonus / p.tickets
  }

  /** The first prize class reached pays; `None` when the cap leaves 128 bits. */
  function Earns(prizes: seq<Prize>, price: nat, wins: nat, tickets: nat): Option<nat> {
    if prizes == [] then Some(0)
    else if prizes[0].wins == wins && prizes[0].tickets > 0 then
      if price * 100 > U128_MAX then None else Some(Times(PerTicket(prizes[0], price), tickets))
    else Earns(prizes[1..], price, wins, tickets)
  }

  /** The sum over an account's selections; `None` when a result is missing or the cap overflows. */
  function Prized(s: State, selects: seq<Select>): Option<nat> {
    if selects == [] then Some(0)
    else
      var before, sel := Prized(s, selects[..|selects| - 1]), selects[|selects| - 1];
      var wins := Right(s.winners, sel.picks);
      if before.None? || wins.None? then None
      else
        var prize := Earns(s.prizes, s.price, wins.value, sel.tickets);
        if prize.None? then None else Some(before.value + prize.value)
  }

  function Claim(s: State, who: Account): Attempt<State> {
    var v := VotesOf(s, who);
    if !s.closed then Err(SeasonStatusError)
    else if v.selects == [] || v.claimed then Err(HaveNoBonus)
    else
      var amount := Prized(s, v.selects);
      if amount.None? || amount.value > U128_MAX then Err(Arithmetic)
      else
        var paid := Pay(s.purse, s.treasury, who, amount.value);
        if paid.Err? then Err(Payment(paid.error))
        else Ok(s.(purse := paid.value, votes := s.votes[who := v.(claimed := true)]))
  }
}
