/** One season as an object: votes, points and prizes updated step by step. */
module TournamentPallet {
  import opened Arith
  import opened Sums
  import opened Wrappers
  import opened Ledgers
  import opened Purses
  import T = Tournament
  import Counts = TournamentCounts

  type Outcome = Result<Done, T.Error>

  // --- one round of each loop ---

  lemma {:induction false} PlaceStops(s: T.State, part: T.Part, picks: seq<T.Pick>, mode: T.Mode, k: nat)
    requires k <= |picks| && T.Place(s, part, picks[..k], mode).Err?
    ensures T.Place(s, part, picks, mode) == T.Place(s, part, picks[..k], mode)
  {
    hide T.Enter, T.CheckPick;
    if k == |picks| {
      assert picks[..k] == picks;
    } else {
      assert picks[..|picks| - 1][..k] == picks[..k];
      PlaceStops(s, part, picks[..|picks| - 1], mode, k);
    }
  }

  lemma {:induction false} ChecksStop(s: T.State, picks: seq<T.Pick>, k: nat)
    requires k <= |picks| && T.CheckAll(s, picks[..k]).Err?
    ensures T.CheckAll(s, picks) == T.CheckAll(s, picks[..k])
  {
    hide T.CheckPick;
    if k == |picks| {
      assert picks[..k] == picks;
    } else {
      assert picks[..|picks| - 1][..k] == picks[..k];
      ChecksStop(s, picks[..|picks| - 1], k);
    }
  }

  lemma PlaceFrame(s: T.State, part: T.Part, picks: seq<T.Pick>, mode: T.Mode)
    requires T.Place(s, part, picks, mode).Ok?
    ensures var s' := T.Place(s, part, picks, mode).value; s' == s.(entries := s'.entries)
  {
    hide T.Place;
    Counts.PlaceEffect(s, part, picks, mode, 0, part);
  }

  lemma Prefix<A>(xs: seq<A>, k: nat)
    requires k < |xs|
    ensures xs[..k + 1][..k] == xs[..k] && xs[..k + 1][k] == xs[k] && |xs[..k + 1]| == k + 1
  {
  }

  /** The entries of `m` outside `rest`. */
  function Seen(m: map<T.Part, T.Npc>, rest: set<T.Part>): map<T.Part, T.Npc> {
    map k | k in m && k !in rest :: m[k]
  }

  lemma SeenEnds(m: map<T.Part, T.Npc>, points: map<T.Part, T.Points>, winner: T.Npc)
    ensures T.ScoreAll(points, Seen(m, m.Keys), winner) == points && Seen(m, {}) == m
  {
    assert Seen(m, m.Keys) == map[];
  }

  lemma ScoreAllAt(points: map<T.Part, T.Points>, m: map<T.Part, T.Npc>, winner: T.Npc, p: T.Part)
    ensures p in T.ScoreAll(points, m, winner) <==> p in points || p in m
    ensures T.PointsAt(T.ScoreAll(points, m, winner), p)
            == if p in m then T.Score(T.PointsAt(points, p), m[p] == winner) else T.PointsAt(points, p)
  {
  }

  /** Scoring one more participant. */
  lemma ScoreOne(points: map<T.Part, T.Points>, m: map<T.Part, T.Npc>, rest: set<T.Part>, winner: T.Npc, k: T.Part)
    requires k in rest && k in m
    ensures var now := T.ScoreAll(points, Seen(m, rest), winner);
            T.ScoreAll(points, Seen(m, rest - {k}), winner) == now[k := T.Score(T.PointsAt(now, k), m[k] == winner)]
  {
    hide T.ScoreAll, T.Score;
    var now, next := T.ScoreAll(points, Seen(m, rest), winner), T.ScoreAll(points, Seen(m, rest - {k}), winner);
    ScoreAllAt(points, Seen(m, rest), winner, k);
    forall p: T.Part
      ensures p in next <==> p in now[k := T.Score(T.PointsAt(now, k), m[k] == winner)]
      ensures p in next ==> next[p] == now[k := T.Score(T.PointsAt(now, k), m[k] == winner)][p]
    {
      ScoreAllAt(points, Seen(m, rest), winner, p);
      ScoreAllAt(points, Seen(m, rest - {k}), winner, p);
    }
  }

  lemma {:induction false} RightStops(winners: map<T.BattleId, T.Npc>, picks: seq<T.Pick>, k: nat)
    requires k <= |picks| && T.Right(winners, picks[..k]).None?
    ensures T.Right(winners, picks).None?
  {
    if k == |picks| {
      assert picks[..k] == picks;
    } else {
      assert picks[..|picks| - 1][..k] == picks[..k];
      RightStops(winners, picks[..|picks| - 1], k);
    }
  }

  lemma {:induction false} PrizedStops(s: T.State, selects: seq<T.Select>, k: nat)
    requires k <= |selects| && T.Prized(s, selects[..k]).None?
    ensures T.Prized(s, selects).None?
  {
    hide T.Right, T.Earns;
    if k == |selects| {
      assert selects[..k] == selects;
    } else {
      assert selects[..|selects| - 1][..k] == selects[..k];
      PrizedStops(s, selects[..|selects| - 1], k);
    }
  }

  lemma {:induction false} PrizedGrows(s: T.State, selects: seq<T.Select>, k: nat)
    requires k <= |selects| && T.Prized(s, selects).Some?
    ensures T.Prized(s, selects[..k]).Some? && T.Prized(s, selects[..k]).value <= T.Prized(s, selects).value
  {
    hide T.Right, T.Earns;
    if k == |selects| {
      assert selects[..k] == selects;
    } else {
      assert selects[..|selects| - 1][..k] == selects[..k];
      PrizedGrows(s, selects[..|selects| - 1], k);
    }
  }

  lemma {:induction false} EarnsFrom(prizes: seq<T.Prize>, price: nat, wins: nat, tickets: nat, k: nat)
    requires k <= |prizes| && forall j | 0 <= j < k :: prizes[j].wins != wins || prizes[j].tickets == 0
    ensures T.Earns(prizes, price, wins, tickets) == T.Earns(prizes[k..], price, wins, tickets)
  {
    if k > 0 {
      EarnsFrom(prizes[1..], price, wins, tickets, k - 1);
      assert prizes[1..][k - 1..] == prizes[k..];
    } else {
      assert prizes[0..] == prizes;
    }
  }

  lemma CountRound(rest: map<T.Part, T.Points>, p: T.Part, votes: map<Account, T.Votes>, wins: nat)
    requires p in rest
    ensures Sum(rest, T.Reached(votes, wins))
            == T.TicketsWith(votes, wins, p, rest[p]) + Sum(rest - {p}, T.Reached(votes, wins))
    ensures (rest - {p}).Keys == rest.Keys - {p} && |rest - {p}| < |rest|
  {
    assert (rest - {p}).Keys == rest.Keys - {p};
    SumSplit(rest, p, T.Reached(votes, wins));
  }

  /** A selection that takes more picks, once those have been entered. */
  lemma ExtendIs(s: T.State, who: Account, index: nat, picks: seq<T.Pick>)
    requires index < |T.VotesOf(s, who).selects|
    ensures var placed, r := T.Place(s, (who, index), picks, T.Append), T.Extend(s, who, index, picks);
            var v := T.VotesOf(s, who);
            if placed.Err? then r == Err(placed.error)
            else
              r == Ok(s.(entries := placed.value.entries,
                         votes := s.votes[who := v.(selects := v.selects[index :=
                           v.selects[index].(picks := v.selects[index].picks + picks)])]))
  {
    hide T.Place;
    if T.Place(s, (who, index), picks, T.Append).Ok? {
      PlaceFrame(s, (who, index), picks, T.Append);
    }
  }

  /** The two selections of a split, once the new one has been entered. */
  function Halves(v: T.Votes, index: nat, amount: nat, picks: seq<T.Pick>): T.Votes
    requires index < |v.selects| && amount <= v.selects[index].tickets
  {
    var sel := v.selects[index];
    v.(selects := v.selects[index := sel.(tickets := sel.tickets - amount)] + [T.Select(amount, sel.picks + picks)])
  }

  lemma SplitIs(s: T.State, who: Account, index: nat, amount: nat, picks: seq<T.Pick>)
    requires index < |T.VotesOf(s, who).selects| && amount <= T.VotesOf(s, who).selects[index].tickets
    ensures var v, r := T.VotesOf(s, who), T.Split(s, who, index, amount, picks);
            var placed := T.Place(s, (who, |v.selects|), v.selects[index].picks + picks, T.Copy);
            if T.CheckAll(s, picks).Err? then r == Err(T.CheckAll(s, picks).error)
            else if placed.Err? then r == Err(placed.error)
            else
              r == Ok(s.(entries := placed.value.entries,
                         votes := s.votes[who := Halves(v, index, amount, picks)],
                         points := s.points[(who, |v.selects|) := T.PointsAt(s.points, (who, index))]))
  {
    hide T.Place, T.CheckAll;
    var v := T.VotesOf(s, who);
    if T.Place(s, (who, |v.selects|), v.selects[index].picks + picks, T.Copy).Ok? {
      PlaceFrame(s, (who, |v.selects|), v.selects[index].picks + picks, T.Copy);
    }
  }

  function Battles(picks: seq<T.Pick>): (bs: seq<T.BattleId>)
    ensures |bs| == |picks| && forall i | 0 <= i < |picks| :: bs[i] == picks[i].battle
  {
    if picks == [] then [] else Battles(picks[..|picks| - 1]) + [picks[|picks| - 1].battle]
  }

  lemma FreshStart(had: seq<T.Pick>, picks: seq<T.Pick>)
    ensures T.Fresh(had, picks[..0])
  {
  }

  /** One more new pick repeats nothing exactly if its battle is not among those seen; a repetition is one for good. */
  lemma FreshMore(had: seq<T.Pick>, picks: seq<T.Pick>, i: nat)
    requires i < |picks| && T.Fresh(had, picks[..i])
    ensures picks[i].battle !in Battles(had + picks[..i]) ==> T.Fresh(had, picks[..i + 1])
    ensures picks[i].battle in Battles(had + picks[..i]) ==> !T.Fresh(had, picks)
  {
    var b, seen := picks[i].battle, had + picks[..i];
    if b in Battles(seen) {
      var j :| 0 <= j < |seen| && seen[j].battle == b;
      if j < |had| {
        assert had[j] in had && picks[i] in picks;
      } else {
        assert picks[j - |had|].battle == picks[i].battle;
      }
    } else {
      forall j | 0 <= j < |seen|
        ensures seen[j].battle != b
      {
        assert Battles(seen)[j] == seen[j].battle;
      }
      FreshKept(had, picks, i);
    }
  }

  lemma FreshKept(had: seq<T.Pick>, picks: seq<T.Pick>, i: nat)
    requires i < |picks| && T.Fresh(had, picks[..i])
    requires forall j | 0 <= j < |had + picks[..i]| :: (had + picks[..i])[j].battle != picks[i].battle
    ensures T.Fresh(had, picks[..i + 1])
  {
    var all := picks[..i + 1];
    assert all == picks[..i] + [picks[i]];
    forall j, k | 0 <= j < k < |all|
      ensures all[j].battle != all[k].battle
    {
      if k == i {
        assert (had + picks[..i])[|had| + j] == all[j];
      } else {
        assert picks[..i][j] == all[j] && picks[..i][k] == all[k];
      }
    }
    forall p, q | p in had && q in all
      ensures p.battle != q.battle
    {
      if q == picks[i] {
        var j :| 0 <= j < |had| && had[j] == p;
        assert (had + picks[..i])[j] == p;
      } else {
        assert q in picks[..i];
      }
    }
  }

  class Season {
    const first: T.BattleType
    const price: nat
    const capacity: nat
    const treasury: Account
    var battles: map<T.BattleId, T.Battle>
    var tickets: map<Account, nat>
    var votes: map<Account, T.Votes>
    var entries: map<T.BattleId, map<T.Part, T.Npc>>
    var points: map<T.Part, T.Points>
    var winners: map<T.BattleId, T.Npc>
    var champion: Option<T.Npc>
    var table: map<T.Npc, T.Standing>
    var closed: bool
    var prizes: seq<T.Prize>
    var purse: Purse

    function Abs(): T.State
      reads this
    {
      T.State(first, price, capacity, treasury, battles, tickets, votes, entries, points, winners, champion, table,
              closed, prizes, purse)
    }

    constructor (f: T.BattleType, p: nat, c: nat, t: Account, m: Purse)
      ensures Abs() == Counts.Opening(f, p, c, t, m)
    {
      first, price, capacity, treasury := f, p, c, t;
      battles, tickets, votes, entries, points := map[], map[], map[], map[], map[];
      winners, champion, table, closed, prizes, purse := map[], None, map[], false, [], m;
    }

    /** `duplicate`: some battle is picked twice. */
    method Duplicate(picks: seq<T.Pick>) returns (dup: bool)
      ensures dup == !T.Distinct(picks)
    {
      for i := 0 to |picks|
        invariant forall j, k | 0 <= j < i && j < k < |picks| :: picks[j].battle != picks[k].battle
      {
        for j := i + 1 to |picks|
          invariant forall k | i < k < j :: picks[i].battle != picks[k].battle
        {
          if picks[i].battle == picks[j].battle {
            return true;
          }
        }
      }
      dup := false;
    }

    /** `append_vote_check_duplicate`: collects the battles already picked while looking at the new picks. */
    method AppendDuplicate(had: seq<T.Pick>, picks: seq<T.Pick>) returns (dup: bool)
      ensures dup == !T.Fresh(had, picks)
    {
      hide T.Fresh;
      var seen: seq<T.BattleId> := [];
      for i := 0 to |had|
        invariant seen == Battles(had[..i])
      {
        Prefix(had, i);
        seen := seen + [had[i].battle];
      }
      assert had[..|had|] == had && had + picks[..0] == had;
      FreshStart(had, picks);
      for i := 0 to |picks|
        invariant seen == Battles(had + picks[..i]) && T.Fresh(had, picks[..i])
      {
        Prefix(picks, i);
        FreshMore(had, picks, i);
        if picks[i].battle in seen {
          return true;
        }
        assert (had + picks[..i + 1])[..|had| + i] == had + picks[..i];
        seen := seen + [picks[i].battle];
      }
      assert picks[..|picks|] == picks;
      dup := false;
    }

    method Enter(part: T.Part, p: T.Pick) returns (r: Outcome)
      modifies this`entries
      ensures Did(old(Abs()), T.Enter(old(Abs()), part, p), Abs(), r)
    {
      var m := T.EntriesOf(entries, p.battle);
      if part !in m && |m| >= capacity {
        return Err(T.ParticipantOverflow);
      }
      entries := entries[p.battle := m[part := p.npc]];
      r := Ok(Done);
    }

    /** Checks each pick and enters it in its battle. */
    method Place(part: T.Part, picks: seq<T.Pick>, mode: T.Mode) returns (r: Outcome)
      modifies this`entries
      ensures Tried(T.Place(old(Abs()), part, picks, mode), Abs(), r)
    {
      hide T.Enter, T.CheckPick;
      ghost var s := Abs();
      for k := 0 to |picks|
        invariant T.Place(s, part, picks[..k], mode) == Ok(Abs())
      {
        Prefix(picks, k);
        var ok := T.CheckPick(Abs(), picks[k], mode == T.Initial);
        CheckSame(s, Abs(), picks[k], mode == T.Initial);
        if mode != T.Copy && ok.Err? {
          PlaceStops(s, part, picks, mode, k + 1);
          return Err(ok.error);
        }
        r := Enter(part, picks[k]);
        if r.Err? {
          PlaceStops(s, part, picks, mode, k + 1);
          return;
        }
      }
      assert picks[..|picks|] == picks;
      r := Ok(Done);
    }

    method CheckAll(picks: seq<T.Pick>) returns (r: Outcome)
      ensures r == if T.CheckAll(Abs(), picks).Ok? then Ok(Done) else Err(T.CheckAll(Abs(), picks).error)
    {
      hide T.CheckPick;
      for k := 0 to |picks|
        invariant T.CheckAll(Abs(), picks[..k]).Ok?
      {
        Prefix(picks, k);
        var ok := T.CheckPick(Abs(), picks[k], false);
        if ok.Err? {
          ChecksStop(Abs(), picks, k + 1);
          return Err(ok.error);
        }
      }
      assert picks[..|picks|] == picks;
      r := Ok(Done);
    }

    method InitialVote(who: Account, amount: nat, picks: seq<T.Pick>) returns (r: Outcome)
      modifies this
      ensures Did(old(Abs()), T.InitialVote(old(Abs()), who, amount, picks), Abs(), r)
    {
      hide T.Place, T.Distinct;
      if picks == [] {
        return Err(T.VoteSelectZero);
      }
      if T.TicketsOf(Abs(), who) < amount || amount == 0 {
        return Err(T.TicketAmountError);
      }
      var before, v := entries, T.VotesOf(Abs(), who);
      r := Place((who, |v.selects|), picks, T.Initial);
      if r.Err? {
        entries := before;
        return;
      }
      var dup := Duplicate(picks);
      if dup {
        entries := before;
        return Err(T.DuplicateBetting);
      }
      PlaceFrame(old(Abs()), (who, |v.selects|), picks, T.Initial);
      tickets := tickets[who := T.TicketsOf(Abs(), who) - amount];
      votes := votes[who := v.(selects := v.selects + [T.Select(amount, picks)])];
    }

    /** Appends picks to a selection, splitting it when only part of its tickets follow. */
    method AppendVote(who: Account, index: nat, code: nat, amount: nat, picks: seq<T.Pick>) returns (r: Outcome)
      modifies this
      ensures Did(old(Abs()), T.AppendVote(old(Abs()), who, index, code, amount, picks), Abs(), r)
    {
      hide T.Fresh, T.Extend, T.Split;
      var v := T.VotesOf(Abs(), who);
      if picks == [] {
        return Err(T.VoteSelectZero);
      }
      if first.Code() <= code || !T.ValidCode(code) {
        return Err(T.BattleTypeError);
      }
      if |v.selects| <= index {
        return Err(T.SelectIndexOverflow);
      }
      var sel := v.selects[index];
      if sel.tickets < amount || amount == 0 {
        return Err(T.TicketAmountError);
      }
      var dup := AppendDuplicate(sel.picks, picks);
      if dup {
        return Err(T.DuplicateBetting);
      }
      if sel.tickets == amount {
        r := Extend(who, index, picks);
      } else {
        r := Split(who, index, amount, picks);
      }
    }

    method Extend(who: Account, index: nat, picks: seq<T.Pick>) returns (r: Outcome)
      requires index < |T.VotesOf(Abs(), who).selects|
      modifies this`entries, this`votes
      ensures Did(old(Abs()), T.Extend(old(Abs()), who, index, picks), Abs(), r)
    {
      hide T.Place, T.Extend;
      var before, v := entries, T.VotesOf(Abs(), who);
      ExtendIs(Abs(), who, index, picks);
      r := Place((who, index), picks, T.Append);
      if r.Err? {
        entries := before;
        return;
      }
      var sel := v.selects[index];
      votes := votes[who := v.(selects := v.selects[index := sel.(picks := sel.picks + picks)])];
    }

    method Split(who: Account, index: nat, amount: nat, picks: seq<T.Pick>) returns (r: Outcome)
      requires index < |T.VotesOf(Abs(), who).selects| && amount <= T.VotesOf(Abs(), who).selects[index].tickets
      modifies this`entries, this`votes, this`points
      ensures Did(old(Abs()), T.Split(old(Abs()), who, index, amount, picks), Abs(), r)
    {
      hide T.Place, T.CheckAll, T.Split;
      var before, v := entries, T.VotesOf(Abs(), who);
      var sel := v.selects[index];
      SplitIs(Abs(), who, index, amount, picks);
      r := CheckAll(picks);
      if r.Err? {
        return;
      }
      r := Place((who, |v.selects|), sel.picks + picks, T.Copy);
      if r.Err? {
        entries := before;
        return;
      }
      var left := v.selects[index := sel.(tickets := sel.tickets - amount)];
      votes := votes[who := v.(selects := left + [T.Select(amount, sel.picks + picks)])];
      points := points[(who, |v.selects|) := T.PointsAt(points, (who, index))];
    }

    method SetResult(b: T.BattleId, home: nat, visiting: nat) returns (r: Outcome)
      modifies this`battles, this`winners
      ensures Did(old(Abs()), T.SetResult(old(Abs()), b, home, visiting), Abs(), r)
    {
      if b !in battles {
        return Err(T.BattleNotFound);
      }
      var battle := battles[b];
      if battle.ours {
        if b !in winners && |winners| >= capacity {
          return Err(T.ParticipantOverflow);
        }
        winners := winners[b := if home > visiting then battle.home else battle.visiting];
      }
      battles := battles[b := battle.(homeScore := home, visitingScore := visiting, status := T.Completed)];
      r := Ok(Done);
    }

    /** Scores everyone entered in a battle. */
    method UpdatePoints(b: T.BattleId, winner: T.Npc)
      modifies this`points
      ensures points == T.ScoreAll(old(points), T.EntriesOf(entries, b), winner)
    {
      hide T.ScoreAll, T.Score, Seen;
      ghost var was := points;
      var m := T.EntriesOf(entries, b);
      var rest := m.Keys;
      SeenEnds(m, points, winner);
      while rest != {}
        invariant rest <= m.Keys && points == T.ScoreAll(was, Seen(m, rest), winner)
        decreases |rest|
      {
        var k: T.Part :| k in rest;
        ScoreOne(was, m, rest, winner, k);
        points := points[k := T.Score(T.PointsAt(points, k), m[k] == winner)];
        rest := rest - {k};
      }
    }

    /** The winner's line of the league table first, then the loser's. */
    method UpdateTable(winner: T.Npc, loser: T.Npc, margin: nat, ghost battle: T.Battle)
      requires winner == battle.Winner() && loser == battle.Loser() && margin == battle.Margin()
      modifies this`table
      ensures table == T.Rank(old(table), battle)
    {
      var w := T.StandingOf(table, winner);
      table := table[winner := T.Standing(w.played + 1, w.wins + 1, w.score + 3, w.diff + margin)];
      var l := T.StandingOf(table, loser);
      table := table[loser := l.(played := l.played + 1, diff := l.diff - margin)];
    }

    /** `league_settle`. */
    method SettleLeague(b: T.BattleId) returns (r: Outcome)
      modifies this`points, this`battles, this`table
      ensures Did(old(Abs()), T.Settle(old(Abs()), b, true), Abs(), r)
    {
      hide T.ScoreAll, T.Rank;
      if b !in battles {
        return Err(T.BattleNotFound);
      }
      var battle := battles[b];
      if battle.status != T.Completed {
        return Err(T.BattleStatusError);
      }
      if battle.kind != T.League {
        return Err(T.BattleTypeError);
      }
      if battle.ours {
        UpdateTable(battle.Winner(), battle.Loser(), battle.Margin(), battle);
        UpdatePoints(b, battle.Winner());
      }
      battles := battles[b := battle.(status := T.Finalized)];
      r := Ok(Done);
    }

    /** `finals_settle`. */
    method SettleFinals(b: T.BattleId) returns (r: Outcome)
      modifies this`points, this`battles, this`champion
      ensures Did(old(Abs()), T.Settle(old(Abs()), b, false), Abs(), r)
    {
      hide T.ScoreAll, T.Rank;
      if b !in battles {
        return Err(T.BattleNotFound);
      }
      var battle := battles[b];
      if battle.kind != T.QuarterFinals && battle.kind != T.SemiFinals && battle.kind != T.Finals {
        return Err(T.BattleTypeError);
      }
      if battle.status != T.Completed {
        return Err(T.BattleStatusError);
      }
      if battle.ours {
        UpdatePoints(b, battle.Winner());
        if battle.kind == T.Finals {
          champion := Some(battle.Winner());
        }
      }
      battles := battles[b := battle.(status := T.Finalized)];
      r := Ok(Done);
    }

    /** The tickets of both prize classes, counted over all points. */
    method CountTickets(total: nat) returns (champions: nat, runners: nat)
      requires total >= 1
      ensures champions == Sum(points, T.Reached(votes, total))
      ensures runners == Sum(points, T.Reached(votes, total - 1))
    {
      hide T.Reached, T.TicketsWith;
      champions, runners := 0, 0;
      var rest := points;
      while rest != map[]
        invariant rest.Keys <= points.Keys && forall p | p in rest :: rest[p] == points[p]
        invariant champions + Sum(rest, T.Reached(votes, total)) == Sum(points, T.Reached(votes, total))
        invariant runners + Sum(rest, T.Reached(votes, total - 1)) == Sum(points, T.Reached(votes, total - 1))
        decreases |rest|
      {
        var p: T.Part :| p in rest;
        CountRound(rest, p, votes, total);
        CountRound(rest, p, votes, total - 1);
        champions := champions + T.TicketsWith(votes, total, p, rest[p]);
        runners := runners + T.TicketsWith(votes, total - 1, p, rest[p]);
        rest := rest - {p};
      }
    }

    /** Counts the winning tickets and fixes the two bonuses. */
    method CloseSeason() returns (r: Outcome)
      modifies this`closed, this`prizes
      ensures Did(old(Abs()), Counts.Close(old(Abs())), Abs(), r)
    {
      var total := first.TotalBattles();
      var champions, runners := CountTickets(total);
      var funds := FreeOf(purse, treasury);
      if champions > U32_MAX || runners > U32_MAX || funds * 7 > U128_MAX {
        return Err(T.Arithmetic);
      }
      var bonus := funds * 7 / 8;
      prizes := [T.Prize(total, champions, bonus), T.Prize(total - 1, runners, funds - bonus)];
      closed := true;
      r := Ok(Done);
    }

    /** The number of right picks; `None` when a battle has no result. */
    method CountRight(picks: seq<T.Pick>) returns (n: Option<nat>)
      ensures n == T.Right(winners, picks)
    {
      var sum := 0;
      for k := 0 to |picks|
        invariant T.Right(winners, picks[..k]) == Some(sum)
      {
        Prefix(picks, k);
        if picks[k].battle !in winners {
          RightStops(winners, picks, k + 1);
          return None;
        }
        if winners[picks[k].battle] == picks[k].npc {
          sum := sum + 1;
        }
      }
      assert picks[..|picks|] == picks;
      n := Some(sum);
    }

    /** The first prize class that fits pays. */
    method PrizeFor(wins: nat, amount: nat) returns (v: Option<nat>)
      ensures v == T.Earns(prizes, price, wins, amount)
    {
      hide Times;
      for k := 0 to |prizes|
        invariant forall j | 0 <= j < k :: prizes[j].wins != wins || prizes[j].tickets == 0
      {
        if prizes[k].wins == wins && prizes[k].tickets > 0 {
          EarnsFrom(prizes, price, wins, amount, k);
          if price * 100 > U128_MAX {
            return None;
          }
          var perTicket := prizes[k].bonus / prizes[k].tickets;
          if perTicket > price * 100 {
            perTicket := price * 100;
          }
          return Some(Times(perTicket, amount));
        }
      }
      EarnsFrom(prizes, price, wins, amount, |prizes|);
      v := Some(0);
    }

    method Claim(who: Account) returns (r: Outcome)
      modifies this`votes, this`purse
      ensures Did(old(Abs()), T.Claim(old(Abs()), who), Abs(), r)
    {
      hide T.Prized, Pay;
      if !closed {
        return Err(T.SeasonStatusError);
      }
      var v := T.VotesOf(Abs(), who);
      if v.selects == [] || v.claimed {
        return Err(T.HaveNoBonus);
      }
      var total := SumPrizes(v.selects);
      if total.None? || total.value > U128_MAX {
        return Err(T.Arithmetic);
      }
      var paid := Pay(purse, treasury, who, total.value);
      if paid.Err? {
        return Err(T.Payment(paid.error));
      }
      purse := paid.value;
      votes := votes[who := v.(claimed := true)];
      r := Ok(Done);
    }

    method SumPrizes(selects: seq<T.Select>) returns (total: Option<nat>)
      ensures total == T.Prized(Abs(), selects)
    {
      hide T.Right, T.Earns;
      var sum := 0;
      for k := 0 to |selects|
        invariant T.Prized(Abs(), selects[..k]) == Some(sum)
      {
        Prefix(selects, k);
        var wins := CountRight(selects[k].picks);
        if wins.None? {
          PrizedStops(Abs(), selects, k + 1);
          return None;
        }
        var v := PrizeFor(wins.value, selects[k].tickets);
        if v.None? {
          PrizedStops(Abs(), selects, k + 1);
          return None;
        }
        sum := sum + v.value;
      }
      assert selects[..|selects|] == selects;
      total := Some(sum);
    }
  }

  lemma CheckSame(s: T.State, s': T.State, p: T.Pick, initial: bool)
    requires s'.battles == s.battles && s'.first == s.first
    ensures T.CheckPick(s', p, initial) == T.CheckPick(s, p, initial)
  {
  }
}
