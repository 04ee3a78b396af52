/** Which registrations, stakes, unstakes and claims go through, why the others fail, and what they write. */
module StakingCalls {
  import opened Arith
  import opened Ledgers
  import opened Wrappers
  import opened VerifierTypes
  import opened ProofChecks
  import opened VerifierState
  import opened VerifierRuns
  import opened Custody
  import opened StakeLedger
  import opened Seasons
  import opened Payouts
  import opened ProofCommands

  // --- the register ---

  /** Two to thirty-two ASCII characters that no dominator uses yet. */
  predicate NameFree(s: State, name: Name) {
    2 <= |name| <= 32 && (forall i | 0 <= i < |name| :: name[i] < 128)
    && forall e | e in s.dominators :: s.dominators[e].name != name
  }

  /** An account becomes a dominator once, under a free name, after the first grace period; it starts without stake
      and with an empty tree, at the last whole grace period. */
  lemma RegisterCall(s: State, d: Account, name: Name)
    ensures Register(s, d, name).Ok? <==>
            NameFree(s, name) && 0 < s.cfg.grace <= s.now && d !in s.dominators
    ensures Register(s, d, name).Ok? ==>
              var s' := Register(s, d, name).value;
              && d in s'.dominators && s' == s.(dominators := s.dominators[d := s'.dominators[d]])
              && (var dom := s'.dominators[d];
                  && dom == Dominator(0, map[], dom.startFrom, (0, s.now), Registered, name)
                  && dom.startFrom <= s.now < dom.startFrom + s.cfg.grace && dom.startFrom % s.cfg.grace == 0)
  {
    CharsNarrow(name);
    if s.cfg.grace > 0 {
      FloorMultiple(s.now, s.cfg.grace);
      ModBelow(s.now, s.cfg.grace);
    }
  }

  lemma CharsNarrow(name: Name)
    ensures (forall c | c in name :: c < 128) <==> forall i | 0 <= i < |name| :: name[i] < 128
  {
    assert forall i | 0 <= i < |name| :: name[i] in name;
  }

  /** Which of the failed checks a refused registration reports. */
  lemma RegisterRefused(s: State, d: Account, name: Name)
    requires Register(s, d, name).Err?
    ensures var spelt := 2 <= |name| <= 32 && forall i | 0 <= i < |name| :: name[i] < 128;
            Register(s, d, name).error
            == if !spelt then InvalidName
               else if s.cfg.grace == 0 || s.now < s.cfg.grace then TooEarlyToRegister
               else if d in s.dominators then DominatorAlreadyExists
               else InvalidName
  {
    CharsNarrow(name);
  }

  /** Only the status of `d` has changed. */
  ghost predicate StatusSet(s: State, s': State, d: Account, status: Status) {
    && d in s.dominators && s' == s.(dominators := s'.dominators) && s'.dominators.Keys == s.dominators.Keys
    && forall e | e in s.dominators ::
         s'.dominators[e] == if e == d then s.dominators[e].(status := status) else s.dominators[e]
  }

  /** Launching takes a registered dominator to inactive, evicting takes any dominator to evicted. */
  lemma StatusCalls(s: State, d: Account)
    ensures Launch(s, d).Ok? <==> d in s.dominators && s.dominators[d].status == Registered
    ensures Launch(s, d).Ok? ==> StatusSet(s, Launch(s, d).value, d, Inactive)
    ensures Launch(s, d).Err? ==>
              Launch(s, d).error == if d in s.dominators then DominatorStatusInvalid else DominatorNotFound
    ensures Evict(s, d).Ok? <==> d in s.dominators
    ensures Evict(s, d).Ok? ==> StatusSet(s, Evict(s, d).value, d, Evicted)
    ensures Evict(s, d).Err? ==> Evict(s, d).error == DominatorNotFound
  {
  }

  // --- shares ---

  /** The free balance of `x` can hold, in every token, what the seasons `from..until` pay. */
  ghost predicate DueFits(s: State, x: Account, d: Account, from: Season, until: Season, stake: nat) {
    forall t: Token :: Due(s.bonuses, d, from, until, stake, t) > 0 ==>
                         BalanceAt(s.ledger, t, x).free + Due(s.bonuses, d, from, until, stake, t) <= U128_MAX
  }

  /** Balances are 128 bits wide. */
  ghost predicate Narrow(l: Ledger) {
    forall t: Token, a: Account :: BalanceAt(l, t, a).free <= U128_MAX && BalanceAt(l, t, a).reserved <= U128_MAX
  }

  lemma TakingFits(s: State, x: Account, d: Account, from: Season, until: Season, stake: nat)
    requires Narrow(s.ledger)
    ensures TakeShares(s, x, d, from, until, stake).Ok? <==> DueFits(s, x, d, from, until, stake)
    ensures TakeShares(s, x, d, from, until, stake).Err? ==>
              TakeShares(s, x, d, from, until, stake).error == Overflow
  {
    hide Shares, BalanceAt;
    var m := Shares(s.bonuses, d, from, until, stake);
    assert forall t: Token :: Due(s.bonuses, d, from, until, stake, t) == Get(m, t);
    assert forall t: Token :: BalanceAt(s.ledger, t, x).free <= U128_MAX;
  }

  /** A claim goes through for a staker of a launched dominator who can hold what is due. */
  lemma ClaimCall(s: State, x: Account, d: Account)
    requires Narrow(s.ledger)
    ensures var r := ClaimShares(s, x, d);
            if d !in s.dominators then r == Err(DominatorNotFound)
            else if s.dominators[d].status == Registered then r == Err(DominatorStatusInvalid)
            else if (d, x) !in s.stakings then r == Err(InvalidStaking)
            else
              var was := s.stakings[(d, x)];
              if DueFits(s, x, d, was.fromSeason, SeasonOf(s, d), was.amount) then
                && r.Ok?
                && r.value == s.(ledger := r.value.ledger,
                                 stakings := s.stakings[(d, x) := Stake(SeasonOf(s, d), was.amount)])
              else r == Err(Overflow)
  {
    hide TakeShares, CurrentSeason, DueFits, Narrow;
    if d in s.dominators && (d, x) in s.stakings {
      var was := s.stakings[(d, x)];
      TakingFits(s, x, d, was.fromSeason, SeasonOf(s, d), was.amount);
      if TakeShares(s, x, d, was.fromSeason, SeasonOf(s, d), was.amount).Ok? {
        TakeSharesEffect(s, x, d, was.fromSeason, SeasonOf(s, d), was.amount);
      }
    }
  }

  // --- staking ---

  /** Nothing that a stake of `v` adds to leaves 128 bits. */
  ghost predicate StakeFits(s: State, x: Account, d: Account, v: nat)
    requires d in s.dominators
  {
    var was, n := StakingAt(s, d, x), s.cfg.native;
    && (v > 0 ==> BalanceAt(s.ledger, n, x).reserved + v <= U128_MAX && Held(s, ForStaking, x, n, d) + v <= U128_MAX)
    && was.amount + v <= U128_MAX && s.dominators[d].staked + v <= U128_MAX
    && (was.amount > 0 ==>
          forall t: Token ::
            var due := Due(s.bonuses, d, was.fromSeason, SeasonOf(s, d), was.amount, t);
            due > 0 ==> BalanceAt(s.ledger, t, x).free - (if t == n then v else 0) + due <= U128_MAX)
  }

  lemma DueAfter(s: State, s1: State, x: Account, d: Account, v: nat, from: Season, until: Season, stake: nat)
    requires s1.bonuses == s.bonuses && s1.cfg == s.cfg
    requires forall t: Token :: BalanceAt(s1.ledger, t, x).free
                                == BalanceAt(s.ledger, t, x).free - if t == s.cfg.native then v else 0
    ensures DueFits(s1, x, d, from, until, stake) <==>
            forall t: Token ::
              var due := Due(s.bonuses, d, from, until, stake, t);
              due > 0 ==> BalanceAt(s.ledger, t, x).free - (if t == s.cfg.native then v else 0) + due <= U128_MAX
  {
    hide BalanceAt, Due;
  }

  /** A stake of at least the minimum, on a launched dominator that is not evicted, goes through if the staker has it
      and everything fits. */
  lemma StakeCall(s: State, x: Account, d: Account, v: nat)
    requires Narrow(s.ledger)
    ensures var r := StakeOn(s, x, d, v);
            if v < s.cfg.minimalStake then r == Err(LittleStakingAmount)
            else if d !in s.dominators then r == Err(DominatorNotFound)
            else if s.dominators[d].status == Registered || s.dominators[d].status == Evicted then
              r == Err(DominatorStatusInvalid)
            else if BalanceAt(s.ledger, s.cfg.native, x).free < v then r == Err(InsufficientBalance)
            else if !StakeFits(s, x, d, v) then r == Err(Overflow)
            else r.Ok?
  {
    hide TakeShares, CurrentSeason, DueFits, Narrow, Reserve, ReserveAt, BalanceAt, Due, StatusFor;
    if d in s.dominators && v >= s.cfg.minimalStake {
      var was := StakingAt(s, d, x);
      ReserveCall(s, ForStaking, x, s.cfg.native, v, d);
      if Reserve(s, ForStaking, x, s.cfg.native, v, d).Ok? {
        var s1 := Reserve(s, ForStaking, x, s.cfg.native, v, d).value;
        ReserveEffect(s, ForStaking, x, s.cfg.native, v, d);
        ReserveNarrow(s, ForStaking, x, s.cfg.native, v, d);
        forall t: Token
          ensures BalanceAt(s1.ledger, t, x).free
                  == BalanceAt(s.ledger, t, x).free - if t == s.cfg.native then v else 0
        {
          ReserveBalance(s, ForStaking, x, s.cfg.native, v, d, t, x);
        }
        DueAfter(s, s1, x, d, v, was.fromSeason, SeasonOf(s, d), was.amount);
        TakingFits(s1, x, d, was.fromSeason, SeasonOf(s, d), was.amount);
      }
    }
  }

  lemma ReserveCall(s: State, b: Bucket, u: Account, t: Token, v: nat, recipient: Account)
    ensures var r, bal := Reserve(s, b, u, t, v, recipient), BalanceAt(s.ledger, t, u);
            if v == 0 then r == Ok(s)
            else if bal.free < v then r == Err(InsufficientBalance)
            else if bal.reserved + v > U128_MAX || Held(s, b, u, t, recipient) + v > U128_MAX then r == Err(Overflow)
            else r.Ok?
  {
  }

  lemma ReserveNarrow(s: State, b: Bucket, u: Account, t: Token, v: nat, recipient: Account)
    requires Narrow(s.ledger) && Reserve(s, b, u, t, v, recipient).Ok?
    ensures Narrow(Reserve(s, b, u, t, v, recipient).value.ledger)
  {
    hide BalanceAt;
    var s1 := Reserve(s, b, u, t, v, recipient).value;
    ReserveCall(s, b, u, t, v, recipient);
    hide Reserve, Narrow;
    forall c: Token, a: Account
      ensures BalanceAt(s1.ledger, c, a).free <= U128_MAX && BalanceAt(s1.ledger, c, a).reserved <= U128_MAX
    {
      NarrowAt(s.ledger, c, a);
      ReserveBalance(s, b, u, t, v, recipient, c, a);
    }
    NarrowAll(s1.ledger);
  }

  lemma NarrowAt(l: Ledger, t: Token, a: Account)
    requires Narrow(l)
    ensures BalanceAt(l, t, a).free <= U128_MAX && BalanceAt(l, t, a).reserved <= U128_MAX
  {
  }

  lemma NarrowAll(l: Ledger)
    requires forall t: Token, a: Account ::
               BalanceAt(l, t, a).free <= U128_MAX && BalanceAt(l, t, a).reserved <= U128_MAX
    ensures Narrow(l)
  {
  }

  /** An accepted stake is added to that of the account and of the dominator, counts from the running season on, and
      makes the dominator active exactly if its total reaches the threshold. */
  lemma StakeWrites(s: State, x: Account, d: Account, v: nat)
    requires StakeOn(s, x, d, v).Ok?
    ensures d in s.dominators
    ensures var s', dom := StakeOn(s, x, d, v).value, s.dominators[d];
            && s' == s.(ledger := s'.ledger, reserves := s'.reserves, stakings := s'.stakings,
                        dominators := s'.dominators)
            && s'.stakings == s.stakings[(d, x) := Stake(SeasonOf(s, d), StakingAt(s, d, x).amount + v)]
            && s'.dominators
               == s.dominators[d := dom.(staked := dom.staked + v,
                                         status := if s.cfg.threshold <= dom.staked + v then Active else Inactive)]
            && (forall k: RKey ::
                  ReserveAt(s'.reserves, k)
                  == ReserveAt(s.reserves, k) + if k == RKey(ForStaking, x, s.cfg.native, d) then v else 0)
  {
    hide StakeOn, ReserveAt, CurrentSeason;
    StakeEffect(s, x, d, v);
  }

  // --- unstaking ---

  /** For a staker who can hold what is due an unstake goes through exactly if the stake suffices and what remains is
      nothing or at least the minimum. */
  lemma UnstakeCall(s: State, x: Account, d: Account, v: nat)
    requires StakeInv(s) && CustodyInv(s) && Narrow(s.ledger)
    ensures var r := UnstakeFrom(s, x, d, v);
            if d !in s.dominators then r == Err(DominatorNotFound)
            else if s.dominators[d].status == Registered then r == Err(DominatorStatusInvalid)
            else if s.dominators[d].staked < v then r == Err(InsufficientBalance)
            else if (d, x) !in s.stakings then r == Err(InvalidStaking)
            else
              var was := s.stakings[(d, x)];
              if was.amount < v then r == Err(InsufficientBalance)
              else if 0 < was.amount - v < s.cfg.minimalStake then r == Err(LittleStakingAmount)
              else if (v > 0 && Held(s, ForPendingUnstake, x, s.cfg.native, s.cfg.system) + v > U128_MAX)
                      || !DueFits(s, x, d, was.fromSeason, SeasonOf(s, d), was.amount)
              then r == Err(Overflow)
              else r.Ok?
  {
    hide StakeInv, CustodyInv, Narrow, DueFits, CurrentSeason, Unreserve, Reserve, TakeShares, Held, UnlockAt,
         StatusFor;
    StakeInvParts(s);
    if d in s.dominators && (d, x) in s.stakings && v <= s.stakings[(d, x)].amount {
      UnstakeRoom(s, x, d, v);
      var s1 := Unreserve(s, ForStaking, x, s.cfg.native, v, d).value;
      UnreserveEffect(s, ForStaking, x, s.cfg.native, v, d);
      var r := Reserve(s1, ForPendingUnstake, x, s.cfg.native, v, s.cfg.system);
      if r.Ok? {
        var was, k := s.stakings[(d, x)], SeasonOf(s, d);
        ReserveEffect(s1, ForPendingUnstake, x, s.cfg.native, v, s.cfg.system);
        SameBalances(s, x, d, v);
        SameNarrow(s.ledger, r.value.ledger);
        TakingFits(r.value, x, d, was.fromSeason, k, was.amount);
        SameDue(s, r.value, x, d, was.fromSeason, k, was.amount);
      }
    }
  }

  /** The stake can be released, and queued unless the pending reserve overflows. */
  lemma UnstakeRoom(s: State, x: Account, d: Account, v: nat)
    requires StakeInv(s) && CustodyInv(s) && Narrow(s.ledger) && (d, x) in s.stakings && v <= s.stakings[(d, x)].amount
    ensures Unreserve(s, ForStaking, x, s.cfg.native, v, d).Ok?
    ensures var s1, full := Unreserve(s, ForStaking, x, s.cfg.native, v, d).value,
                            v > 0 && Held(s, ForPendingUnstake, x, s.cfg.native, s.cfg.system) + v > U128_MAX;
            && Reserve(s1, ForPendingUnstake, x, s.cfg.native, v, s.cfg.system).Ok? == !full
            && (full ==> Reserve(s1, ForPendingUnstake, x, s.cfg.native, v, s.cfg.system).error == Overflow)
    ensures forall at: Block ::
              QueueAt(s, at, x) + v <= U128_MAX
              || (v > 0 && Held(s, ForPendingUnstake, x, s.cfg.native, s.cfg.system) + v > U128_MAX)
  {
    var n := s.cfg.native;
    assert Held(s, ForStaking, x, n, d) == StakingAt(s, d, x).amount by { assert LedgerInv(s); }
    EntryBacked(s.ledger, s.reserves, RKey(ForStaking, x, n, d));
    EntryBacked(s.ledger, s.reserves, RKey(ForPendingUnstake, x, n, s.cfg.system));
    hide StakeInv, CustodyInv, BalanceAt, ReserveAt;
    StakeInvParts(s);
    NarrowAt(s.ledger, n, x);
    UnreserveIff(s, ForStaking, x, n, v, d);
    var s1 := Unreserve(s, ForStaking, x, n, v, d).value;
    UnreserveEffect(s, ForStaking, x, n, v, d);
    UnreserveBalance(s, ForStaking, x, n, v, d, n, x);
    ReserveCall(s1, ForPendingUnstake, x, n, v, s.cfg.system);
    forall at: Block ensures QueueAt(s, at, x) <= Held(s, ForPendingUnstake, x, n, s.cfg.system) {
      QueueBacked(s, at, x);
    }
  }

  /** Queueing a stake leaves every balance as it was. */
  lemma SameBalances(s: State, x: Account, d: Account, v: nat)
    requires Unreserve(s, ForStaking, x, s.cfg.native, v, d).Ok?
    requires var s1 := Unreserve(s, ForStaking, x, s.cfg.native, v, d).value;
             Reserve(s1, ForPendingUnstake, x, s.cfg.native, v, s.cfg.system).Ok?
    ensures var s1 := Unreserve(s, ForStaking, x, s.cfg.native, v, d).value;
            var s2 := Reserve(s1, ForPendingUnstake, x, s.cfg.native, v, s.cfg.system).value;
            forall t: Token, a: Account :: BalanceAt(s2.ledger, t, a) == BalanceAt(s.ledger, t, a)
  {
    hide Unreserve, Reserve, BalanceAt;
    var s1 := Unreserve(s, ForStaking, x, s.cfg.native, v, d).value;
    forall t: Token, a: Account
      ensures BalanceAt(Reserve(s1, ForPendingUnstake, x, s.cfg.native, v, s.cfg.system).value.ledger, t, a)
              == BalanceAt(s.ledger, t, a)
    {
      UnreserveBalance(s, ForStaking, x, s.cfg.native, v, d, t, a);
      ReserveBalance(s1, ForPendingUnstake, x, s.cfg.native, v, s.cfg.system, t, a);
    }
  }

  lemma SameNarrow(l: Ledger, l': Ledger)
    requires Narrow(l) && forall t: Token, a: Account :: BalanceAt(l', t, a) == BalanceAt(l, t, a)
    ensures Narrow(l')
  {
    hide BalanceAt;
  }

  lemma SameDue(s: State, s': State, x: Account, d: Account, from: Season, until: Season, stake: nat)
    requires s'.bonuses == s.bonuses
    requires forall t: Token, a: Account :: BalanceAt(s'.ledger, t, a) == BalanceAt(s.ledger, t, a)
    ensures DueFits(s', x, d, from, until, stake) == DueFits(s, x, d, from, until, stake)
  {
    hide BalanceAt, Due;
  }

  /** An accepted unstake takes the amount off the stakes of account and dominator, queues it for the block that lies
      57600 blocks after the running grace period began, and drops a stake that is used up; the dominator stays active
      exactly if its total still reaches the threshold, and evicted if it was. */
  lemma UnstakeWrites(s: State, x: Account, d: Account, v: nat)
    requires UnstakeFrom(s, x, d, v).Ok?
    ensures d in s.dominators && (d, x) in s.stakings && s.cfg.grace > 0
    ensures v <= s.dominators[d].staked && v <= s.stakings[(d, x)].amount
    ensures var s', dom, left := UnstakeFrom(s, x, d, v).value, s.dominators[d], s.stakings[(d, x)].amount - v;
            var at := s.now - s.now % s.cfg.grace + 57600;
            && s' == s.(ledger := s'.ledger, reserves := s'.reserves, stakings := s'.stakings,
                        dominators := s'.dominators, pending := s'.pending)
            && s'.pending == s.pending[(at, x) := QueueAt(s, at, x) + v]
            && s'.stakings
               == (if left == 0 then s.stakings - {(d, x)} else s.stakings[(d, x) := Stake(SeasonOf(s, d), left)])
            && s'.dominators
               == s.dominators[d := dom.(staked := dom.staked - v,
                                         status := if dom.status == Evicted then Evicted
                                                   else if s.cfg.threshold <= dom.staked - v then Active
                                                   else Inactive)]
            && (forall k: RKey ::
                  ReserveAt(s'.reserves, k)
                  == ReserveAt(s.reserves, k)
                     - (if k == RKey(ForStaking, x, s.cfg.native, d) then v else 0)
                     + (if k == RKey(ForPendingUnstake, x, s.cfg.native, s.cfg.system) then v else 0))
  {
    hide UnstakeFrom, ReserveAt, CurrentSeason;
    UnstakeEffect(s, x, d, v);
  }
}
