/** The prize pool: what can be claimed from the treasury, and whether the close covers it. */
module TournamentPrize {
  import opened Arith
  import opened Sums
  import opened Wrappers
  import opened Ledgers
  import opened Purses
  import opened Tournament
  import opened TournamentCounts

  // --- tickets recomputed from the results ---

  /** The tickets of those selections whose picks were right `wins` times. */
  function RightTickets(winners: map<BattleId, Npc>, wins: nat, selects: seq<Select>): nat {
    if selects == [] then 0
    else
      var sel := selects[|selects| - 1];
      RightTickets(winners, wins, selects[..|selects| - 1])
      + if Right(winners, sel.picks) == Some(wins) then sel.tickets else 0
  }

  function AccountRight(winners: map<BattleId, Npc>, wins: nat, a: Account, v: Votes): nat {
    RightTickets(winners, wins, v.selects)
  }

  function ByAccount(winners: map<BattleId, Npc>, wins: nat): (Account, Votes) -> nat {
    (a: Account, v: Votes) => AccountRight(winners, wins, a, v)
  }

  // --- tickets counted over points, account by account ---

  predicate HasWins(points: map<Part, Points>, wins: nat, p: Part) {
    p in points && points[p].wins == wins
  }

  /** The tickets of those selections of `a` whose points have `wins`. */
  function ScoredTickets(points: map<Part, Points>, wins: nat, a: Account, selects: seq<Select>): nat {
    if selects == [] then 0
    else
      var n := |selects| - 1;
      ScoredTickets(points, wins, a, selects[..n]) + if HasWins(points, wins, (a, n)) then selects[n].tickets else 0
  }

  function AccountScored(points: map<Part, Points>, wins: nat, a: Account, v: Votes): nat {
    ScoredTickets(points, wins, a, v.selects)
  }

  function ByScore(points: map<Part, Points>, wins: nat): (Account, Votes) -> nat {
    (a: Account, v: Votes) => AccountScored(points, wins, a, v)
  }

  /** Points belong to selections. */
  ghost predicate Listed(points: map<Part, Points>, votes: map<Account, Votes>) {
    forall p: Part | p in points :: p.0 in votes && p.1 < |votes[p.0].selects|
  }

  /** `points` without the first `n` selections of `a`. */
  function Without(points: map<Part, Points>, a: Account, n: nat): map<Part, Points> {
    map p | p in points && !(p.0 == a && p.1 < n) :: points[p]
  }

  lemma WithoutOne(points: map<Part, Points>, a: Account, n: nat)
    ensures Without(points, a, 0) == points
    ensures Without(points, a, n + 1) == Without(points, a, n) - {(a, n)}
  {
    assert forall p: Part | p in points :: p == (p.0, p.1);
  }

  /** The counted tickets of one account, selection by selection; `all` has the same points for `a`. */
  lemma {:induction false} Column(
    points: map<Part, Points>, all: map<Part, Points>, votes: map<Account, Votes>, wins: nat, a: Account, n: nat)
    requires a in votes && n <= |votes[a].selects|
    requires forall p | p in points :: p in all && all[p] == points[p]
    requires forall i: nat | (a, i) in all :: (a, i) in points
    ensures Sum(points, Reached(votes, wins))
            == Sum(Without(points, a, n), Reached(votes, wins)) + ScoredTickets(all, wins, a, votes[a].selects[..n])
  {
    if n == 0 {
      WithoutOne(points, a, 0);
    } else {
      var k: Part := (a, n - 1);
      Column(points, all, votes, wins, a, n - 1);
      WithoutOne(points, a, n - 1);
      SumDrop(Without(points, a, n - 1), k, Reached(votes, wins));
      assert k in Without(points, a, n - 1) <==> k in all;
      assert votes[a].selects[..n][..n - 1] == votes[a].selects[..n - 1];
    }
  }

  /** Counting tickets over points is counting them over accounts. */
  lemma {:induction false} Rows(
    points: map<Part, Points>, all: map<Part, Points>, votes: map<Account, Votes>, rest: map<Account, Votes>, wins: nat)
    requires forall e | e in rest :: e in votes && votes[e] == rest[e]
    requires Listed(points, rest)
    requires forall p | p in points :: p in all && all[p] == points[p]
    requires forall p: Part | p in all && p.0 in rest :: p in points
    ensures Sum(points, Reached(votes, wins)) == Sum(rest, ByScore(all, wins))
    decreases |rest|
  {
    hide ScoredTickets;
    if rest == map[] {
      assert points == map[];
      SumZero(rest, ByScore(all, wins));
      SumZero(points, Reached(votes, wins));
    } else {
      var a :| a in rest;
      var n := |rest[a].selects|;
      Column(points, all, votes, wins, a, n);
      assert rest[a].selects[..n] == rest[a].selects;
      assert (rest - {a}).Keys == rest.Keys - {a};
      Rows(Without(points, a, n), all, votes, rest - {a}, wins);
      SumSplit(rest, a, ByScore(all, wins));
    }
  }

  /** Selections of `a` that the results make right `wins` times also have `wins` points. */
  ghost predicate Credited(s: State, wins: nat, a: Account) {
    forall i | 0 <= i < |VotesOf(s, a).selects| ::
      Right(s.winners, VotesOf(s, a).selects[i].picks) == Some(wins) ==> HasWins(s.points, wins, (a, i))
  }

  /** And no others have. */
  ghost predicate Deserved(s: State, wins: nat, a: Account) {
    forall i | 0 <= i < |VotesOf(s, a).selects| ::
      HasWins(s.points, wins, (a, i)) ==> Right(s.winners, VotesOf(s, a).selects[i].picks) == Some(wins)
  }

  lemma {:induction false} RightScored(s: State, wins: nat, a: Account, n: nat)
    requires n <= |VotesOf(s, a).selects|
    ensures var had := VotesOf(s, a).selects[..n];
            && (Credited(s, wins, a) ==>
                  RightTickets(s.winners, wins, had) <= ScoredTickets(s.points, wins, a, had))
            && (Deserved(s, wins, a) ==>
                  ScoredTickets(s.points, wins, a, had) <= RightTickets(s.winners, wins, had))
  {
    hide Right, HasWins;
    if n == 0 {
    } else {
      RightScored(s, wins, a, n - 1);
      assert VotesOf(s, a).selects[..n][..n - 1] == VotesOf(s, a).selects[..n - 1];
    }
  }

  lemma SumMono<K, V>(m: map<K, V>, w: (K, V) -> nat, w': (K, V) -> nat)
    requires forall k | k in m :: w(k, m[k]) <= w'(k, m[k])
    ensures Sum(m, w) <= Sum(m, w')
  {
    SumBound(m, w, 1, w', 1, 0);
  }

  /** The tickets counted at the close include those that the results make right, and are those if nothing else has
      scored as much. */
  lemma CountsAreRight(s: State, wins: nat)
    requires Listed(s.points, s.votes)
    ensures (forall a | a in s.votes :: Credited(s, wins, a)) ==>
              Sum(s.votes, ByAccount(s.winners, wins)) <= CountedTickets(s, wins)
    ensures (forall a | a in s.votes :: Credited(s, wins, a) && Deserved(s, wins, a)) ==>
              CountedTickets(s, wins) == Sum(s.votes, ByAccount(s.winners, wins))
  {
    hide Credited, Deserved, RightTickets, ScoredTickets;
    Rows(s.points, s.points, s.votes, s.votes, wins);
    forall a | a in s.votes
      ensures Credited(s, wins, a) ==>
                AccountRight(s.winners, wins, a, s.votes[a]) <= AccountScored(s.points, wins, a, s.votes[a])
      ensures Deserved(s, wins, a) ==>
                AccountScored(s.points, wins, a, s.votes[a]) <= AccountRight(s.winners, wins, a, s.votes[a])
    {
      var n := |s.votes[a].selects|;
      RightScored(s, wins, a, n);
      assert s.votes[a].selects[..n] == s.votes[a].selects;
    }
    if forall a | a in s.votes :: Credited(s, wins, a) {
      SumMono(s.votes, ByAccount(s.winners, wins), ByScore(s.points, wins));
    }
    if forall a | a in s.votes :: Credited(s, wins, a) && Deserved(s, wins, a) {
      SumMono(s.votes, ByScore(s.points, wins), ByAccount(s.winners, wins));
    }
  }

  // --- what claims add up to ---

  /** What an account can still claim. */
  function ClaimOf(s: State, v: Votes): nat {
    if v.claimed || Prized(s, v.selects).None? then 0 else Prized(s, v.selects).value
  }

  function DueTo(s: State, a: Account, v: Votes): nat {
    ClaimOf(s, v)
  }

  function Dues(s: State): (Account, Votes) -> nat {
    (a: Account, v: Votes) => DueTo(s, a, v)
  }

  ghost function Claimable(s: State): nat {
    Sum(s.votes, Dues(s))
  }

  /** The prize of one ticket of a class, nothing if nobody reached it or the cap leaves 128 bits. */
  function Rate(p: Prize, price: nat): nat {
    if p.tickets > 0 && price * 100 <= U128_MAX then PerTicket(p, price) else 0
  }

  lemma RateBound(p: Prize, price: nat)
    ensures Times(Rate(p, price), p.tickets) <= p.bonus
  {
    if p.tickets > 0 && price * 100 <= U128_MAX {
      MulMono(Rate(p, price), p.bonus / p.tickets, p.tickets);
      assert p.bonus / p.tickets * p.tickets <= p.bonus;
    }
  }

  /** The two classes of a closed season. */
  ghost predicate TwoPrizes(s: State) {
    |s.prizes| == 2 && s.prizes[0].wins == s.prizes[1].wins + 1
  }

  lemma EarnsIs(s: State, wins: nat, tickets: nat)
    requires TwoPrizes(s)
    ensures var prize := Earns(s.prizes, s.price, wins, tickets);
            && (s.price * 100 <= U128_MAX ==> prize.Some?)
            && (prize.Some? ==>
                  prize.value
                  == (if wins == s.prizes[0].wins then Times(Rate(s.prizes[0], s.price), tickets) else 0)
                     + (if wins == s.prizes[1].wins then Times(Rate(s.prizes[1], s.price), tickets) else 0))
  {
    hide PerTicket;
    var second := s.prizes[1..];
    assert second[0] == s.prizes[1] && second[1..] == [];
    assert Earns(second[1..], s.price, wins, tickets) == Some(0);
    var later := Earns(second, s.price, wins, tickets);
    assert later.None? || later.value
        == if wins == s.prizes[1].wins then Times(Rate(s.prizes[1], s.price), tickets) else 0;
  }

  /** An account's prize is linear in its right tickets; it can be computed once all results are there, unless the cap
      overflows. */
  lemma {:induction false} PrizedIs(s: State, selects: seq<Select>)
    requires TwoPrizes(s)
    ensures Prized(s, selects).Some? ==>
              Prized(s, selects).value
              == Times(Rate(s.prizes[0], s.price), RightTickets(s.winners, s.prizes[0].wins, selects))
                 + Times(Rate(s.prizes[1], s.price), RightTickets(s.winners, s.prizes[1].wins, selects))
    ensures s.price * 100 <= U128_MAX && (forall sel | sel in selects :: Right(s.winners, sel.picks).Some?) ==>
              Prized(s, selects).Some?
  {
    hide Right, Rate, Earns;
    if selects == [] {
    } else {
      var before, sel := selects[..|selects| - 1], selects[|selects| - 1];
      assert sel in selects;
      PrizedIs(s, before);
      if Right(s.winners, sel.picks).Some? {
        EarnsIs(s, Right(s.winners, sel.picks).value, sel.tickets);
      }
      Distribute(Rate(s.prizes[0], s.price), RightTickets(s.winners, s.prizes[0].wins, before), sel.tickets);
      Distribute(Rate(s.prizes[1], s.price), RightTickets(s.winners, s.prizes[1].wins, before), sel.tickets);
    }
  }

  lemma Distribute(p: nat, a: nat, b: nat)
    ensures Times(p, a + b) == Times(p, a) + Times(p, b)
  {
  }

  lemma Nothing<K, V>(m: map<K, V>, w: (K, V) -> nat)
    requires m == map[]
    ensures Sum(m, w) == 0
  {
  }

  /** Linearity carried over to the sum of all accounts. */
  lemma {:induction false} SumLinear<K, V>(
    m: map<K, V>, w: (K, V) -> nat, p: nat, f: (K, V) -> nat, q: nat, g: (K, V) -> nat)
    requires forall k | k in m :: w(k, m[k]) == Times(p, f(k, m[k])) + Times(q, g(k, m[k]))
    ensures Sum(m, w) == Times(p, Sum(m, f)) + Times(q, Sum(m, g))
    decreases |m|
  {
    hide Times, Sum;
    if m == map[] {
      Nothing(m, w);
      Nothing(m, f);
      Nothing(m, g);
      Distribute(p, 0, 0);
      Distribute(q, 0, 0);
    } else {
      var k :| k in m;
      assert (m - {k}).Keys == m.Keys - {k};
      SumSplit(m, k, w);
      SumSplit(m, k, f);
      SumSplit(m, k, g);
      SumLinear(m - {k}, w, p, f, q, g);
      Distribute(p, f(k, m[k]), Sum(m - {k}, f));
      Distribute(q, g(k, m[k]), Sum(m - {k}, g));
    }
  }

  // --- what is owed, from tickets alone ---

  /** All results that the selections of an account need are there. */
  predicate Decided(winners: map<BattleId, Npc>, selects: seq<Select>) {
    forall sel | sel in selects :: Right(winners, sel.picks).Some?
  }

  /** The right tickets of an account that can still claim. */
  function OpenTickets(winners: map<BattleId, Npc>, wins: nat, a: Account, v: Votes): nat {
    if v.claimed || !Decided(winners, v.selects) then 0 else RightTickets(winners, wins, v.selects)
  }

  function OpenBy(winners: map<BattleId, Npc>, wins: nat): (Account, Votes) -> nat {
    (a: Account, v: Votes) => OpenTickets(winners, wins, a, v)
  }

  /** The right tickets of a class that can still be claimed. */
  ghost function Open(winners: map<BattleId, Npc>, wins: nat, votes: map<Account, Votes>): nat {
    Sum(votes, OpenBy(winners, wins))
  }

  /** What two classes owe: the rate of each times its right tickets. */
  ghost function Owing(s: State, winners: map<BattleId, Npc>, prizes: seq<Prize>): nat
    requires |prizes| == 2
  {
    Times(Rate(prizes[0], s.price), Open(winners, prizes[0].wins, s.votes))
    + Times(Rate(prizes[1], s.price), Open(winners, prizes[1].wins, s.votes))
  }

  lemma {:induction false} PrizedDecided(s: State, selects: seq<Select>)
    ensures Prized(s, selects).Some? ==> Decided(s.winners, selects)
  {
    hide Right, Earns;
    if selects == [] {
    } else {
      PrizedDecided(s, selects[..|selects| - 1]);
      assert selects == selects[..|selects| - 1] + [selects[|selects| - 1]];
    }
  }

  /** What one account can claim is the prize of its open tickets. */
  lemma DueIs(s: State, a: Account, v: Votes)
    requires TwoPrizes(s)
    ensures DueTo(s, a, v)
            == Times(Rate(s.prizes[0], s.price), OpenTickets(s.winners, s.prizes[0].wins, a, v))
               + Times(Rate(s.prizes[1], s.price), OpenTickets(s.winners, s.prizes[1].wins, a, v))
  {
    hide Right, PerTicket, Prized, RightTickets;
    PrizedIs(s, v.selects);
    PrizedDecided(s, v.selects);
  }

  /** In every closed state all claims together are exactly the rates times the open tickets. */
  lemma ClaimableIs(s: State)
    requires TwoPrizes(s)
    ensures Claimable(s) == Owing(s, s.winners, s.prizes)
  {
    hide Rate, DueTo, OpenTickets;
    var p, q := Rate(s.prizes[0], s.price), Rate(s.prizes[1], s.price);
    forall a | a in s.votes
      ensures DueTo(s, a, s.votes[a])
              == Times(p, OpenTickets(s.winners, s.prizes[0].wins, a, s.votes[a]))
                 + Times(q, OpenTickets(s.winners, s.prizes[1].wins, a, s.votes[a]))
    {
      DueIs(s, a, s.votes[a]);
    }
    SumLinear(s.votes, Dues(s), p, OpenBy(s.winners, s.prizes[0].wins), q, OpenBy(s.winners, s.prizes[1].wins));
  }

  // --- the close ---

  ghost predicate Covered(s: State) {
    Claimable(s) <= FreeOf(s.purse, s.treasury)
  }

  /** What a close would make claimable, from the tickets it counts and the right tickets there are. */
  ghost function OwedAtClose(s: State): nat {
    var total, funds := s.first.TotalBattles(), FreeOf(s.purse, s.treasury);
    Times(Rate(Prize(total, CountedTickets(s, total), funds * 7 / 8), s.price), Open(s.winners, total, s.votes))
    + Times(Rate(Prize(total - 1, CountedTickets(s, total - 1), funds - funds * 7 / 8), s.price),
            Open(s.winners, total - 1, s.votes))
  }

  lemma CloseIs(s: State)
    requires Close(s).Ok?
    ensures var closed, total, funds := Close(s).value, s.first.TotalBattles(), FreeOf(s.purse, s.treasury);
            && closed == s.(closed := true, prizes := closed.prizes)
            && closed.prizes == [Prize(total, CountedTickets(s, total), funds * 7 / 8),
                                 Prize(total - 1, CountedTickets(s, total - 1), funds - funds * 7 / 8)]
  {
    hide CountedTickets;
  }

  /** A close covers everything that can be claimed if and only if that sum is within the treasury. */
  lemma CoveredExactly(s: State)
    requires Close(s).Ok?
    ensures TwoPrizes(Close(s).value) && Claimable(Close(s).value) == OwedAtClose(s)
    ensures Covered(Close(s).value) <==> OwedAtClose(s) <= FreeOf(s.purse, s.treasury)
  {
    hide CountedTickets, Close, Rate, Claimable, Open;
    CloseIs(s);
    ClaimableIs(Close(s).value);
  }

  /** For either class: nobody is counted, or everybody who can claim it is. */
  ghost predicate FairlyCounted(s: State) {
    forall wins | wins in {s.first.TotalBattles(), s.first.TotalBattles() - 1} ::
      CountedTickets(s, wins) == 0 || Open(s.winners, wins, s.votes) <= CountedTickets(s, wins)
  }

  lemma ClassWithin(p: Prize, price: nat, open: nat)
    requires p.tickets == 0 || open <= p.tickets
    ensures Times(Rate(p, price), open) <= p.bonus
  {
    hide PerTicket;
    RateBound(p, price);
    if p.tickets == 0 {
    } else {
      MulMono(open, p.tickets, Rate(p, price));
    }
  }

  /** The close covers all claims in any season counted fairly. */
  lemma CloseCovers(s: State)
    requires FairlyCounted(s)
    ensures OwedAtClose(s) <= FreeOf(s.purse, s.treasury)
    ensures Close(s).Ok? ==> Covered(Close(s).value)
  {
    hide CountedTickets, Rate, Open, Close, Covered;
    var total, funds := s.first.TotalBattles(), FreeOf(s.purse, s.treasury);
    assert total in {total, total - 1} && total - 1 in {total, total - 1};
    ClassWithin(Prize(total, CountedTickets(s, total), funds * 7 / 8), s.price, Open(s.winners, total, s.votes));
    ClassWithin(Prize(total - 1, CountedTickets(s, total - 1), funds - funds * 7 / 8), s.price,
                Open(s.winners, total - 1, s.votes));
    if Close(s).Ok? {
      CoveredExactly(s);
    }
  }

  // --- when a season is counted fairly ---

  /** Right picks of `a` are on settled battles, and where no win at all is a class of its own, `a` has points. */
  ghost predicate RightSettled(s: State, a: Account) {
    forall i | 0 <= i < |VotesOf(s, a).selects| && Right(s.winners, VotesOf(s, a).selects[i].picks).Some? ::
      && (forall p | p in VotesOf(s, a).selects[i].picks && IsRight(s.winners, p) :: IsSettled(s, p.battle))
      && (s.first.TotalBattles() == 1 ==> (a, i) in s.points)
  }

  lemma Unlisted(s: State, a: Account, i: nat)
    requires Kept(s, a, i) && i >= |VotesOf(s, a).selects|
    ensures (a, i) !in s.points
  {
  }

  /** In every run points belong to selections. */
  lemma RunListed(s: State, ops: seq<Op>)
    requires s.battles == map[] && s.votes == map[] && s.entries == map[] && s.points == map[] && s.winners == map[]
    ensures Listed(Run(s, ops).points, Run(s, ops).votes)
  {
    hide Run, Kept;
    var s' := Run(s, ops);
    forall p: Part | p in s'.points
      ensures p.0 in s'.votes && p.1 < |s'.votes[p.0].selects|
    {
      assert p == (p.0, p.1);
      RunKept(s, ops, p.0);
      assert Kept(s', p.0, p.1);
      if p.1 >= |VotesOf(s', p.0).selects| {
        Unlisted(s', p.0, p.1);
      }
    }
  }

  lemma RunCredited(s: State, ops: seq<Op>, wins: nat, a: Account)
    requires s.battles == map[] && s.votes == map[] && s.entries == map[] && s.points == map[] && s.winners == map[]
    requires RightSettled(Run(s, ops), a) && (wins > 0 || Run(s, ops).first.TotalBattles() == 1)
    ensures Credited(Run(s, ops), wins, a)
  {
    hide Run, Right, IsRight, IsSettled, Kept;
    var s' := Run(s, ops);
    forall i | 0 <= i < |VotesOf(s', a).selects| && Right(s'.winners, VotesOf(s', a).selects[i].picks) == Some(wins)
      ensures HasWins(s'.points, wins, (a, i))
    {
      WinsAgree(s, ops, a, i);
    }
  }

  lemma OpenAtMost(s: State, wins: nat)
    ensures Open(s.winners, wins, s.votes) <= Sum(s.votes, ByAccount(s.winners, wins))
  {
    hide RightTickets;
    SumMono(s.votes, OpenBy(s.winners, wins), ByAccount(s.winners, wins));
  }

  /** If all right picks are settled, the season is counted fairly; wrong picks and missing results do no harm. */
  lemma SettledIsFair(s: State, ops: seq<Op>)
    requires s.battles == map[] && s.votes == map[] && s.entries == map[] && s.points == map[] && s.winners == map[]
    requires forall a | a in Run(s, ops).votes :: RightSettled(Run(s, ops), a)
    ensures FairlyCounted(Run(s, ops))
  {
    hide Run, RightSettled, CountedTickets, Credited, Deserved, Open;
    var s' := Run(s, ops);
    RunListed(s, ops);
    forall wins | wins in {s'.first.TotalBattles(), s'.first.TotalBattles() - 1}
      ensures Open(s'.winners, wins, s'.votes) <= CountedTickets(s', wins)
    {
      forall a | a in s'.votes
        ensures Credited(s', wins, a)
      {
        RunCredited(s, ops, wins, a);
      }
      CountsAreRight(s', wins);
      OpenAtMost(s', wins);
    }
  }
}
