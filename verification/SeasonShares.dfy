/** What a claim is worth, in terms of stake, staked total and profit alone. */
module SeasonShares {
  import opened Arith
  import opened Ledgers
  import opened Ratios
  import opened Wrappers
  import opened VerifierTypes
  import opened VerifierState
  import opened VerifierRuns
  import opened Seasons
  import opened Payouts

  // --- one season, one token ---

  /** What one season credits to `stake` in token `t`: its portion of the profit. */
  ghost predicate Credited(c: nat, stake: nat, b: Bonus, t: Token) {
    if b.staked == 0 || t !in b.profit then c == 0 else Portion(c, stake, b.staked, b.profit[t])
  }

  lemma ShareCredits(stake: nat, b: Bonus, t: Token)
    ensures Credited(Share(stake, b, t), stake, b, t)
  {
    hide MulNearest, FromRational, Portion;
    if b.staked != 0 && t in b.profit {
      PortionIs(stake, b.staked, b.profit[t]);
    }
  }

  // --- many seasons ---

  function Total(credits: seq<nat>): nat {
    if credits == [] then 0 else Total(credits[..|credits| - 1]) + credits[|credits| - 1]
  }

  /** One credit for each of the seasons `from..until`. */
  ghost predicate CreditedFor(
    credits: seq<nat>, bonuses: Bonuses, d: Account, from: Season, until: Season, stake: nat, t: Token)
  {
    && |credits| == (if until <= from then 0 else until - from)
    && forall i | 0 <= i < |credits| :: Credited(credits[i], stake, BonusAt(bonuses, d, from + i), t)
  }

  lemma {:induction false} DueCredits(
    bonuses: Bonuses, d: Account, from: Season, until: Season, stake: nat, t: Token) returns (credits: seq<nat>)
    ensures CreditedFor(credits, bonuses, d, from, until, stake, t)
    ensures Due(bonuses, d, from, until, stake, t) == Total(credits)
    decreases until
  {
    hide CreditedFor, Credited, Share, AddShares, Due, BonusAt;
    if until <= from {
      NoneDue(bonuses, d, from, until, stake, t);
      credits := [];
    } else {
      var before := DueCredits(bonuses, d, from, until - 1, stake, t);
      var c := Share(stake, BonusAt(bonuses, d, until - 1), t);
      credits := before + [c];
      DueStep(bonuses, d, from, until, stake, t);
      ShareCredits(stake, BonusAt(bonuses, d, until - 1), t);
      OneMore(before, c, bonuses, d, from, until, stake, t);
      assert credits[..|credits| - 1] == before;
    }
  }

  lemma NoneDue(bonuses: Bonuses, d: Account, from: Season, until: Season, stake: nat, t: Token)
    requires until <= from
    ensures CreditedFor([], bonuses, d, from, until, stake, t) && Due(bonuses, d, from, until, stake, t) == 0
  {
  }

  lemma OneMore(
    before: seq<nat>, c: nat, bonuses: Bonuses, d: Account, from: Season, until: Season, stake: nat, t: Token)
    requires from < until && CreditedFor(before, bonuses, d, from, until - 1, stake, t)
    requires Credited(c, stake, BonusAt(bonuses, d, until - 1), t)
    ensures CreditedFor(before + [c], bonuses, d, from, until, stake, t)
  {
    hide Credited, BonusAt;
  }

  /** The season at block `now` of a dominator that started at `start`: whole durations since then. */
  lemma SeasonIs(cfg: Config, now: Block, start: Block)
    ensures var k := CurrentSeason(cfg, now, start);
            if cfg.duration == 0 || now <= start then k == 0
            else k * cfg.duration <= now - start < (k + 1) * cfg.duration
  {
    if cfg.duration > 0 && now > start {
      WholeDurations(now - start, cfg.duration);
    }
  }

  lemma WholeDurations(n: nat, g: nat)
    requires g > 0
    ensures n / g * g <= n < (n / g + 1) * g
  {
    FloorBounds(n, g);
    assert (n / g + 1) * g == n / g * g + g;
  }

  /** A claim credits the staker, in every token and for every season since the last claim, the nearest unit to the
      share of the stake in that season's profit; nobody else gets anything and nothing is reserved or released. */
  lemma ClaimCredits(s: State, x: Account, d: Account, t: Token, a: Account) returns (credits: seq<nat>)
    requires ClaimShares(s, x, d).Ok?
    ensures (d, x) in s.stakings
    ensures var was := s.stakings[(d, x)];
            CreditedFor(credits, s.bonuses, d, was.fromSeason, SeasonOf(s, d), was.amount, t)
    ensures BalanceAt(ClaimShares(s, x, d).value.ledger, t, a)
            == Balance(BalanceAt(s.ledger, t, a).free + (if a == x then Total(credits) else 0),
                       BalanceAt(s.ledger, t, a).reserved)
  {
    hide ClaimShares, Due, CreditedFor, Total, CurrentSeason;
    ClaimEffect(s, x, d);
    var was := s.stakings[(d, x)];
    credits := DueCredits(s.bonuses, d, was.fromSeason, SeasonOf(s, d), was.amount, t);
    ClaimPays(s, x, d, t, a);
  }

  /** Unstaking pays for the stake as it was before. */
  lemma UnstakeCredits(s: State, x: Account, d: Account, v: nat, t: Token, a: Account) returns (credits: seq<nat>)
    requires UnstakeFrom(s, x, d, v).Ok?
    ensures (d, x) in s.stakings
    ensures var was := s.stakings[(d, x)];
            CreditedFor(credits, s.bonuses, d, was.fromSeason, SeasonOf(s, d), was.amount, t)
    ensures BalanceAt(UnstakeFrom(s, x, d, v).value.ledger, t, a)
            == Balance(BalanceAt(s.ledger, t, a).free + (if a == x then Total(credits) else 0),
                       BalanceAt(s.ledger, t, a).reserved)
  {
    hide UnstakeFrom, Due, CreditedFor, Total, CurrentSeason, UnlockAt, StatusFor;
    UnstakeEffect(s, x, d, v);
    var was := s.stakings[(d, x)];
    credits := DueCredits(s.bonuses, d, was.fromSeason, SeasonOf(s, d), was.amount, t);
    UnstakePays(s, x, d, v, t, a);
  }

  /** Staking more reserves the amount and pays for the stake as it was before; a first stake is paid nothing. */
  lemma StakeCredits(s: State, x: Account, d: Account, v: nat, t: Token, a: Account) returns (credits: seq<nat>)
    requires StakeOn(s, x, d, v).Ok?
    ensures var was := StakingAt(s, d, x);
            if was.amount == 0 then credits == []
            else CreditedFor(credits, s.bonuses, d, was.fromSeason, SeasonOf(s, d), was.amount, t)
    ensures var moved := if a == x && t == s.cfg.native then v else 0;
            && BalanceAt(StakeOn(s, x, d, v).value.ledger, t, a).free + moved
               == BalanceAt(s.ledger, t, a).free + (if a == x then Total(credits) else 0)
            && BalanceAt(StakeOn(s, x, d, v).value.ledger, t, a).reserved == BalanceAt(s.ledger, t, a).reserved + moved
  {
    hide StakeOn, Due, CreditedFor, CurrentSeason, StatusFor;
    var was := StakingAt(s, d, x);
    StakePays(s, x, d, v, t, a);
    if was.amount == 0 {
      credits := [];
      NothingDueYet(s.bonuses, t);
    } else {
      credits := DueCredits(s.bonuses, d, was.fromSeason, SeasonOf(s, d), was.amount, t);
    }
  }
}
