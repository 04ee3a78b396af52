/** Season accounting: every closed season's snapshot is split between claims made and claims still open. */
module Seasons {
  import opened Arith
  import opened Sums
  import opened Ledgers
  import opened Wrappers
  import opened VerifierTypes
  import opened VerifierState
  import opened VerifierRuns
  import opened Custody
  import opened StakeLedger

  /** The claim of staker `x` on season `k` of dominator `d`. */
  datatype ClaimKey = ClaimKey(d: Account, k: Season, x: Account)

  /** Which stake every claim made so far was made with. */
  type History = map<ClaimKey, nat>

  /** A payment for the seasons `from..to`. */
  datatype Claim = Claim(d: Account, x: Account, from: Season, to: Season, stake: nat)

  const NO_CLAIM: Claim := Claim(0, 0, 0, 0, 0)

  function ClaimFor(s: State, d: Account, x: Account): Claim {
    Claim(d, x, StakingAt(s, d, x).fromSeason, SeasonOf(s, d), StakingAt(s, d, x).amount)
  }

  /** The shares a step takes: staking more, unstaking and claiming pay out what is due. */
  function ClaimOf(s: State, op: Op): Claim {
    match op
    case Staking(x, d, v) =>
      if StakeOn(s, x, d, v).Ok? && StakingAt(s, d, x).amount != 0 then ClaimFor(s, d, x) else NO_CLAIM
    case Unstaking(x, d, v) => if UnstakeFrom(s, x, d, v).Ok? then ClaimFor(s, d, x) else NO_CLAIM
    case Claiming(x, d) => if ClaimShares(s, x, d).Ok? then ClaimFor(s, d, x) else NO_CLAIM
    case _ => NO_CLAIM
  }

  function AddClaims(h: History, c: Claim): History
    decreases c.to
  {
    if c.to <= c.from then h
    else AddClaims(h, c.(to := c.to - 1))[ClaimKey(c.d, c.to - 1, c.x) := c.stake]
  }

  ghost function RunClaims(s: State, ops: seq<Op>): History
    requires s.cfg.grace > 0
  {
    if ops == [] then map[]
    else
      var before := ops[..|ops| - 1];
      AddClaims(RunClaims(s, before), ClaimOf(Run(s, before), ops[|ops| - 1]))
  }

  function ClaimWeight(d: Account, k: Season, c: ClaimKey, v: nat): nat {
    if c.d == d && c.k == k then v else 0
  }

  function ClaimOn(d: Account, k: Season): (ClaimKey, nat) -> nat {
    (c: ClaimKey, v: nat) => ClaimWeight(d, k, c, v)
  }

  /** Stake already claimed for season `k`. */
  ghost function ClaimedSum(h: History, d: Account, k: Season): nat {
    Sum(h, ClaimOn(d, k))
  }

  function EntitledWeight(d: Account, k: Season, key: (Account, Account), v: Stake): nat {
    if key.0 == d && v.fromSeason <= k then v.amount else 0
  }

  function EntitledTo(d: Account, k: Season): ((Account, Account), Stake) -> nat {
    (key: (Account, Account), v: Stake) => EntitledWeight(d, k, key, v)
  }

  /** Stake still entitled to claim season `k`. */
  ghost function EntitledSum(m: Stakes, d: Account, k: Season): nat {
    Sum(m, EntitledTo(d, k))
  }

  ghost predicate StartsAligned(s: State)
    requires s.cfg.grace > 0
  {
    forall d | d in s.dominators ::
      0 < s.dominators[d].startFrom <= s.now && s.dominators[d].startFrom % s.cfg.grace == 0
  }

  ghost predicate StakesStarted(s: State) {
    forall d: Account, x: Account | (d, x) in s.stakings ::
      d in s.dominators && s.stakings[(d, x)].fromSeason <= SeasonOf(s, d)
  }

  /** Claims are about closed seasons, and a staker is past every season claimed. */
  ghost predicate ClaimsPast(s: State, h: History) {
    forall c | c in h ::
      && c.d in s.dominators && c.k < SeasonOf(s, c.d)
      && ((c.d, c.x) in s.stakings ==> c.k < s.stakings[(c.d, c.x)].fromSeason)
  }

  /** Claimed plus entitled stake is the snapshot of every closed season. */
  ghost predicate SnapshotsSplit(s: State, h: History) {
    forall d: Account, k: Season | d in s.dominators && k < SeasonOf(s, d) ::
      ClaimedSum(h, d, k) + EntitledSum(s.stakings, d, k) == BonusAt(s.bonuses, d, k).staked
  }

  ghost predicate SeasonInv(s: State, h: History) {
    && ConfigOk(s.cfg) && StartsAligned(s) && StakesStarted(s) && ClaimsPast(s, h) && SnapshotsSplit(s, h)
  }

  // --- claims ---

  lemma {:induction false} AddClaimsKeys(h: History, c: Claim, key: ClaimKey)
    ensures key in AddClaims(h, c) <==> key in h || (key.d == c.d && key.x == c.x && c.from <= key.k < c.to)
    ensures key in AddClaims(h, c) ==>
              AddClaims(h, c)[key] == if key.d == c.d && key.x == c.x && c.from <= key.k < c.to then c.stake else h[key]
    decreases c.to
  {
    if c.to <= c.from {
    } else {
      AddClaimsKeys(h, c.(to := c.to - 1), key);
    }
  }

  lemma {:induction false} AddClaimsSum(h: History, c: Claim, e: Account, k: Season)
    requires forall j | c.from <= j < c.to :: ClaimKey(c.d, j, c.x) !in h
    ensures ClaimedSum(AddClaims(h, c), e, k)
            == ClaimedSum(h, e, k) + if e == c.d && c.from <= k < c.to then c.stake else 0
    decreases c.to
  {
    if c.to <= c.from {
    } else {
      var c', key := c.(to := c.to - 1), ClaimKey(c.d, c.to - 1, c.x);
      AddClaimsSum(h, c', e, k);
      AddClaimsKeys(h, c', key);
      SumPut(AddClaims(h, c'), key, c.stake, ClaimOn(e, k));
    }
  }

  lemma EntitledPut(m: Stakes, d: Account, x: Account, v: Stake, e: Account, k: Season)
    ensures EntitledSum(m[(d, x) := v], e, k) + (if (d, x) in m then EntitledWeight(e, k, (d, x), m[(d, x)]) else 0)
            == EntitledSum(m, e, k) + EntitledWeight(e, k, (d, x), v)
  {
    SumPut(m, (d, x), v, EntitledTo(e, k));
  }

  lemma EntitledDrop(m: Stakes, d: Account, x: Account, e: Account, k: Season)
    ensures EntitledSum(m - {(d, x)}, e, k) + (if (d, x) in m then EntitledWeight(e, k, (d, x), m[(d, x)]) else 0)
            == EntitledSum(m, e, k)
  {
    SumDrop(m, (d, x), EntitledTo(e, k));
  }

  /** `s'` differs from `s` in the staking of `x`, who is now in the running season or gone. */
  ghost predicate MovesOn(s: State, s': State, d: Account, x: Account) {
    && d in s.dominators
    && s'.cfg == s.cfg && s'.now == s.now && s'.bonuses == s.bonuses && s'.dominators.Keys == s.dominators.Keys
    && (forall e | e in s.dominators :: s'.dominators[e].startFrom == s.dominators[e].startFrom)
    && (s'.stakings == s.stakings - {(d, x)} ||
        s'.stakings == s.stakings[(d, x) := Stake(SeasonOf(s, d), StakingAt(s', d, x).amount)])
  }

  /** Taking what is due for past seasons; nothing is due to a newcomer. */
  predicate TakesDue(s: State, d: Account, x: Account, c: Claim) {
    (c == ClaimFor(s, d, x) && (d, x) in s.stakings) || (c.to <= c.from && StakingAt(s, d, x).amount == 0)
  }

  /** Every claim is on a season its staker has not claimed before. */
  lemma ClaimsFresh(s: State, h: History, d: Account, x: Account, c: Claim)
    requires ClaimsPast(s, h) && TakesDue(s, d, x, c)
    ensures forall j | c.from <= j < c.to :: ClaimKey(c.d, j, c.x) !in h
  {
  }

  lemma MovingKeepsClaims(s: State, h: History, s': State, d: Account, x: Account, c: Claim)
    requires ClaimsPast(s, h) && StakesStarted(s) && MovesOn(s, s', d, x) && TakesDue(s, d, x, c)
    ensures ClaimsPast(s', AddClaims(h, c)) && StakesStarted(s')
  {
    var h' := AddClaims(h, c);
    forall key | key in h'
      ensures key.d in s'.dominators && key.k < SeasonOf(s', key.d)
      ensures (key.d, key.x) in s'.stakings ==> key.k < s'.stakings[(key.d, key.x)].fromSeason
    {
      AddClaimsKeys(h, c, key);
    }
  }

  lemma MovingKeepsSplitAt(s: State, h: History, s': State, d: Account, x: Account, c: Claim, e: Account, k: Season)
    requires ClaimsPast(s, h) && StakesStarted(s) && MovesOn(s, s', d, x) && TakesDue(s, d, x, c)
    requires e in s.dominators && k < SeasonOf(s, e)
    ensures ClaimedSum(AddClaims(h, c), e, k) + EntitledSum(s'.stakings, e, k)
            == ClaimedSum(h, e, k) + EntitledSum(s.stakings, e, k)
  {
    hide ClaimedSum, EntitledSum, StakesStarted, ClaimsPast, AddClaims;
    ClaimsFresh(s, h, d, x, c);
    AddClaimsSum(h, c, e, k);
    if s'.stakings == s.stakings - {(d, x)} {
      EntitledDrop(s.stakings, d, x, e, k);
    } else {
      EntitledPut(s.stakings, d, x, s'.stakings[(d, x)], e, k);
    }
  }

  /** A staker who takes what is due moves on to the running season: the split of closed seasons stays exact. */
  lemma MovingKeepsSeasons(s: State, h: History, s': State, d: Account, x: Account, c: Claim)
    requires SeasonInv(s, h) && MovesOn(s, s', d, x) && TakesDue(s, d, x, c)
    ensures SeasonInv(s', AddClaims(h, c))
  {
    hide ClaimedSum, EntitledSum, StakesStarted, ClaimsPast, AddClaims, TakesDue;
    MovingKeepsClaims(s, h, s', d, x, c);
    forall e: Account, k: Season | e in s'.dominators && k < SeasonOf(s', e)
      ensures ClaimedSum(AddClaims(h, c), e, k) + EntitledSum(s'.stakings, e, k) == BonusAt(s'.bonuses, e, k).staked
    {
      MovingKeepsSplitAt(s, h, s', d, x, c, e, k);
      assert ClaimedSum(h, e, k) + EntitledSum(s.stakings, e, k) == BonusAt(s.bonuses, e, k).staked;
    }
  }

  /** Steps that touch neither stakes nor the snapshot of a closed season. */
  lemma QuietKeepsSeasons(s: State, h: History, s': State)
    requires SeasonInv(s, h)
    requires s'.cfg == s.cfg && s'.now == s.now && s'.stakings == s.stakings && s.dominators.Keys <= s'.dominators.Keys
    requires forall d | d in s.dominators :: s'.dominators[d].startFrom == s.dominators[d].startFrom
    requires forall d | d in s'.dominators && d !in s.dominators ::
               && SeasonOf(s', d) == 0 && 0 < s'.dominators[d].startFrom <= s.now
               && s'.dominators[d].startFrom % s.cfg.grace == 0
    requires forall d: Account, k: Season | d in s.dominators && k < SeasonOf(s, d) ::
               BonusAt(s'.bonuses, d, k).staked == BonusAt(s.bonuses, d, k).staked
    ensures SeasonInv(s', h)
  {
    hide ClaimedSum, EntitledSum;
  }

  // --- the end of a season ---

  /** Seasons advance one at a time, exactly at the blocks where they end. */
  lemma SeasonAdvance(cfg: Config, now: Block, start: Block)
    requires ConfigOk(cfg) && start <= now
    ensures CurrentSeason(cfg, now + 1, start)
            == CurrentSeason(cfg, now, start) + if SeasonEnds(cfg, now + 1, start) then 1 else 0
  {
    var n, g := now - start, cfg.duration;
    var q, r := n / g, n % g;
    assert n == q * g + r;
    ModBelow(n, g);
    if r + 1 < g {
      DivModUnique(n + 1, g, q, r + 1);
    } else {
      assert (q + 1) * g == q * g + g;
      DivModUnique(n + 1, g, q + 1, 0);
    }
    if n == 0 {
      SmallDiv(n, g);
    }
  }

  /** Seasons of an aligned dominator end only at blocks the hook serves. */
  lemma EndsServed(cfg: Config, at: Block, start: Block)
    requires ConfigOk(cfg) && start % cfg.grace == 0 && SeasonEnds(cfg, at, start)
    ensures at % cfg.grace == 0
  {
    var g, m, c, e := cfg.grace, (at - start) / cfg.duration, cfg.duration / cfg.grace, start / cfg.grace;
    assert at - start == m * cfg.duration && cfg.duration == c * g && start == e * g;
    assert at == (m * c + e) * g by {
      assert m * (c * g) == (m * c) * g;
      assert (m * c + e) * g == (m * c) * g + e * g;
    }
    MultipleMod(m * c + e, g);
  }

  lemma SnapshotAt(s: State, at: Block, d: Account, k: Season)
    requires d in s.dominators
    ensures BonusAt(Snapshot(s, at), d, k)
            == if SeasonEnds(s.cfg, at, s.dominators[d].startFrom)
                  && k == SeasonEnding(s.cfg, at, s.dominators[d].startFrom)
               then BonusAt(s.bonuses, d, k).(staked := s.dominators[d].staked) else BonusAt(s.bonuses, d, k)
  {
    var ending := Snapshots(s.cfg, at, s.dominators);
    assert (d, k) in ending <==>
           SeasonEnds(s.cfg, at, s.dominators[d].startFrom) && k == SeasonEnding(s.cfg, at, s.dominators[d].startFrom);
  }

  /** Nobody has claimed the season that is ending, and every staker is entitled to it. */
  lemma EndingSplit(s: State, h: History, d: Account)
    requires SeasonInv(s, h) && TotalsAgree(s) && d in s.dominators
    ensures ClaimedSum(h, d, SeasonOf(s, d)) == 0
    ensures EntitledSum(s.stakings, d, SeasonOf(s, d)) == s.dominators[d].staked
  {
    hide SnapshotsSplit, StartsAligned;
    var k := SeasonOf(s, d);
    SumZero(h, ClaimOn(d, k));
    forall key | key in s.stakings ensures EntitledTo(d, k)(key, s.stakings[key]) == StakeOf(d)(key, s.stakings[key]) {
      assert key == (key.0, key.1);
    }
    SumCong(s.stakings, EntitledTo(d, k), StakeOf(d));
  }

  /** The hook writes the running season's snapshot when it ends and touches no closed season. */
  lemma HookBonus(s: State, order: seq<Account>, d: Account, k: Season)
    requires ConfigOk(s.cfg) && StartsAligned(s) && d in s.dominators
    ensures var s', ends := NextBlock(s, order), SeasonEnds(s.cfg, s.now + 1, s.dominators[d].startFrom);
            && SeasonOf(s', d) == SeasonOf(s, d) + (if ends then 1 else 0)
            && BonusAt(s'.bonuses, d, k)
               == if ends && k == SeasonOf(s, d) then BonusAt(s.bonuses, d, k).(staked := s.dominators[d].staked)
                  else BonusAt(s.bonuses, d, k)
  {
    hide Release, SeasonEnds, CurrentSeason, Snapshot;
    var start, at := s.dominators[d].startFrom, s.now + 1;
    SeasonAdvance(s.cfg, s.now, start);
    BlockEffect(s, order);
    if SeasonEnds(s.cfg, at, start) {
      EndsServed(s.cfg, at, start);
    }
    SnapshotAt(s, at, d, k);
    ReleaseFrame(s.(now := at), at, order);
  }

  lemma BlockKeepsSeasons(s: State, h: History, order: seq<Account>)
    requires SeasonInv(s, h) && TotalsAgree(s)
    ensures SeasonInv(NextBlock(s, order), h)
  {
    hide NextBlock, ClaimedSum, EntitledSum, SeasonEnds, CurrentSeason, TotalsAgree;
    BlockEffect(s, order);
    var s' := NextBlock(s, order);
    forall d | d in s.dominators ensures SeasonOf(s', d) >= SeasonOf(s, d) {
      HookBonus(s, order, d, 0);
    }
    forall d: Account, k: Season | d in s'.dominators && k < SeasonOf(s', d)
      ensures ClaimedSum(h, d, k) + EntitledSum(s'.stakings, d, k) == BonusAt(s'.bonuses, d, k).staked
    {
      HookBonus(s, order, d, k);
      if k == SeasonOf(s, d) {
        EndingSplit(s, h, d);
      } else {
        assert ClaimedSum(h, d, k) + EntitledSum(s.stakings, d, k) == BonusAt(s.bonuses, d, k).staked;
      }
    }
  }
}
