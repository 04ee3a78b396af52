/** What liquidity earns: the weight of a consumption, the portion of an era, and what a claim pays. */
module RewardCalls {
  import opened Arith
  import opened Ledgers
  import opened Purses
  import opened Ratios
  import opened Wrappers
  import opened EraRewards

  /** The whole zooms in `n` blocks, of which at most an era counts, and at least one. */
  predicate Weight(w: nat, cfg: Config, n: nat) {
    var counted := if n < cfg.era then n else cfg.era;
    if counted < cfg.zoom then w == 1 else w * cfg.zoom <= counted < (w + 1) * cfg.zoom
  }

  lemma WeightIs(s: State, start: nat)
    requires s.cfg.Valid() && start <= s.now
    ensures Weight(Coefficient(s, start), s.cfg, s.now - start)
  {
    var m := Min(s.now - start, s.cfg.era);
    Whole(m, s.cfg.zoom);
  }

  lemma Whole(m: nat, g: nat)
    requires g > 0
    ensures m / g * g <= m < (m / g + 1) * g
    ensures m / g < 1 <==> m < g
  {
    FloorBounds(m, g);
    assert (m / g + 1) * g == m / g * g + g;
    if m < g {
      SmallDiv(m, g);
    }
  }

  /** The era of a block begins at the last multiple of the era's length. */
  lemma BeginIs(s: State)
    requires s.cfg.Valid()
    ensures Begin(s) <= s.now < Begin(s) + s.cfg.era && Begin(s) % s.cfg.era == 0
  {
    FloorMultiple(s.now, s.cfg.era);
    ModBelow(s.now, s.cfg.era);
  }

  /** Without a record there is nothing confirmed, nothing pending and no era; without an entry nothing was taken. */
  lemma NoRecord(s: State, a: Account, e: Era)
    ensures a !in s.rewards ==> RewardAt(s, a) == Reward(0, 0, 0)
    ensures e !in s.taken ==> At(s.taken, e) == 0
    ensures a !in s.free ==> FreeOf(s.free, a) == 0
  {
  }

  // --- liquidity ---

  function Offered(s: State, maker: Account, symbol: Symbol): Provider {
    if (maker, symbol) in s.pool then s.pool[(maker, symbol)] else Provider(0, 0)
  }

  /** Liquidity put in replaces what was there and counts from this block; putting in nothing changes nothing. */
  lemma PutCall(s: State, maker: Account, symbol: Symbol, vol: nat, a: Account, y: Symbol)
    ensures var s' := PutLiquidity(s, maker, symbol, vol);
            && s' == s.(pool := s'.pool)
            && Offered(s', a, y)
               == if vol > 0 && (a, y) == (maker, symbol) then Provider(vol, s.now) else Offered(s, a, y)
  {
  }

  /** Liquidity can be removed up to what is offered; the rest keeps its age, and nothing is left of an offer that is
      used up. Removing nothing always works and tells block zero. */
  lemma RemoveCall(s: State, maker: Account, symbol: Symbol, vol: nat, a: Account, y: Symbol)
    ensures var r, was := RemoveLiquidity(s, maker, symbol, vol), Offered(s, maker, symbol);
            && (vol == 0 ==> r == Ok((s, 0)))
            && (vol > 0 ==>
                  if (maker, symbol) !in s.pool then r == Err(LiquidityNotFound)
                  else if was.volume < vol then r == Err(InsufficientLiquidity)
                  else
                    && r.Ok? && r.value.1 == was.startFrom
                    && r.value.0 == s.(pool := r.value.0.pool)
                    && ((maker, symbol) in r.value.0.pool <==> vol < was.volume)
                    && Offered(r.value.0, a, y)
                       == if (a, y) != (maker, symbol) then Offered(s, a, y)
                          else if vol < was.volume then Provider(was.volume - vol, was.startFrom)
                          else Provider(0, 0))
  {
  }

  // --- rotation ---

  /** What an account has earned once its era is over: its portion of the reward of the era, or nothing for an account
      on the current era or without contributions, and after the last block of the program. */
  ghost predicate EarnedBy(earned: nat, s: State, who: Account)
    requires s.cfg.Valid()
  {
    var r := RewardAt(s, who);
    if r.last == Begin(s) || r.pending == 0 || At(s.taken, r.last) == 0 then earned == 0
    else Portion(earned, r.pending, At(s.taken, r.last), if s.cfg.terminateAt < s.now then 0 else s.eraRewards)
  }

  /** What one rotation makes of an account: what it has earned is confirmed, and the contribution counts for the
      current era, together with what was pending on it already. */
  ghost predicate Rotated(s: State, who: Account, contribution: nat, earned: nat, now: Reward)
    requires s.cfg.Valid()
  {
    var r := RewardAt(s, who);
    && EarnedBy(earned, s, who)
    && now == Reward(r.confirmed + earned, contribution + (if r.last == Begin(s) then r.pending else 0), Begin(s))
  }

  lemma EarnedIs(s: State, r: Reward)
    requires At(s.taken, r.last) > 0
    ensures Portion(Earned(s, r), r.pending, At(s.taken, r.last), if s.cfg.terminateAt < s.now then 0 else s.eraRewards)
  {
    hide Portion, MulNearest, FromRational;
    PortionIs(r.pending, At(s.taken, r.last), if s.cfg.terminateAt < s.now then 0 else s.eraRewards);
  }

  /** The sum that a rotation writes stays within 128 bits, and the era that ends has taken something. */
  predicate RotationFits(s: State, who: Account, contribution: nat, earned: nat)
    requires s.cfg.Valid()
  {
    var r := RewardAt(s, who);
    if r.last == Begin(s) then r.pending + contribution <= U128_MAX
    else r.pending > 0 ==> At(s.taken, r.last) > 0 && r.confirmed + earned <= U128_MAX
  }

  /** A rotation fails only if a sum leaves 128 bits or if nothing was taken in the era that ends; otherwise it touches
      nothing but the account's record. */
  lemma RotateCall(s: State, who: Account, contribution: nat) returns (earned: nat, now: Reward)
    requires s.cfg.Valid()
    ensures EarnedBy(earned, s, who) && Rotated(s, who, contribution, earned, now)
    ensures var r, e := Rotate(s, who, contribution), RewardAt(s, who);
            && (r.Ok? <==> RotationFits(s, who, contribution, earned))
            && (r == Err(DivideByZero) <==> e.last != Begin(s) && e.pending > 0 && At(s.taken, e.last) == 0)
            && (r.Err? ==> r.error == Error.Overflow || r.error == DivideByZero)
            && (r.Ok? ==> r.value == s.(rewards := s.rewards[who := now]))
  {
    hide Earned, Portion, Begin;
    var r := RewardAt(s, who);
    if r.last != Begin(s) && r.pending > 0 && At(s.taken, r.last) > 0 {
      EarnedIs(s, r);
      earned := Earned(s, r);
    } else {
      earned := 0;
    }
    now := Reward(r.confirmed + earned, contribution + (if r.last == Begin(s) then r.pending else 0), Begin(s));
  }

  // --- consumption ---

  /** Liquidity that is not on offer earns nothing. */
  lemma NotOffered(s: State, maker: Account, symbol: Symbol, vol: nat)
    requires s.cfg.Valid() && vol > 0 && Offered(s, maker, symbol).volume < vol
    ensures Consume(s, maker, symbol, vol) == Ok(s)
  {
    hide Coefficient, Rotate;
  }

  /** What an accepted consumption that contributes `c` writes. */
  ghost predicate Consumed(
    s: State, s': State, maker: Account, vol: nat, c: nat, earned: nat, e: Era, a: Account)
    requires s.cfg.Valid()
  {
    var r := RewardAt(s, maker);
    && EarnedBy(earned, s, maker)
    && s' == s.(pool := s'.pool, taken := s'.taken, volumes := s'.volumes, rewards := s'.rewards)
    && At(s'.taken, e) == At(s.taken, e) + (if e == Begin(s) then c else 0)
    && At(s'.volumes, e) == At(s.volumes, e) + (if e == Begin(s) then vol else 0)
    && RewardAt(s', a)
       == (if a != maker then RewardAt(s, a)
           else Reward(r.confirmed + earned, c + (if r.last == Begin(s) then r.pending else 0), Begin(s)))
  }

  lemma ConsumeWrites(s: State, maker: Account, symbol: Symbol, vol: nat, e: Era, a: Account)
    returns (w: nat, earned: nat)
    requires s.cfg.Valid() && 0 < vol <= Offered(s, maker, symbol).volume && Consume(s, maker, symbol, vol).Ok?
    ensures Offered(s, maker, symbol).startFrom <= s.now
    ensures Weight(w, s.cfg, s.now - Offered(s, maker, symbol).startFrom)
    ensures var s' := Consume(s, maker, symbol, vol).value;
            && Consumed(s, s', maker, vol, Times(w, vol), earned, e, a)
            && s'.pool == RemoveLiquidity(s, maker, symbol, vol).value.0.pool
  {
    hide Coefficient, Rotate, Begin, Portion, Weight, Consume, RemoveLiquidity, Times, EarnedBy;
    RemoveCall(s, maker, symbol, vol, maker, symbol);
    ConsumeParts(s, maker, symbol, vol);
    var (s1, start) := RemoveLiquidity(s, maker, symbol, vol).value;
    w := Coefficient(s, start);
    WeightIs(s, start);
    var c, at := Times(w, vol), Begin(s);
    var s2 := s1.(taken := s.taken[at := At(s.taken, at) + c], volumes := s.volumes[at := At(s.volumes, at) + vol]);
    var now;
    earned, now := RotateCall(s2, maker, c);
    SameEarned(s, s2, maker, earned);
    SameBegin(s, s2);
  }

  lemma SameBegin(s: State, s2: State)
    requires s.cfg.Valid() && s2.cfg == s.cfg && s2.now == s.now
    ensures Begin(s2) == Begin(s)
  {
  }

  /** An accepted consumption adds the volume, times the weight of the blocks it was on offer, to the liquidity taken in
      the current era and to the pending contribution of the maker; it adds the plain volume to the volumes of the era,
      takes it out of the offer, and confirms what the maker has earned in an earlier era. */
  lemma ConsumeCall(s: State, maker: Account, symbol: Symbol, vol: nat, e: Era, a: Account)
    returns (w: nat, earned: nat)
    requires s.cfg.Valid() && 0 < vol <= Offered(s, maker, symbol).volume && Consume(s, maker, symbol, vol).Ok?
    ensures Offered(s, maker, symbol).startFrom <= s.now
    ensures Weight(w, s.cfg, s.now - Offered(s, maker, symbol).startFrom)
    ensures var s' := Consume(s, maker, symbol, vol).value;
            && Consumed(s, s', maker, vol, w * vol, earned, e, a)
            && s'.pool == RemoveLiquidity(s, maker, symbol, vol).value.0.pool
  {
    hide Weight, Consume, RemoveLiquidity, Consumed;
    w, earned := ConsumeWrites(s, maker, symbol, vol, e, a);
  }

  /** A consumption of liquidity on offer fails only if a sum leaves 128 bits, the clock runs backwards, or the rotation
      fails. */
  lemma ConsumeFails(s: State, maker: Account, symbol: Symbol, vol: nat) returns (w: nat, earned: nat)
    requires s.cfg.Valid() && 0 < vol <= Offered(s, maker, symbol).volume
    ensures var start := Offered(s, maker, symbol).startFrom;
            && (start <= s.now ==> Weight(w, s.cfg, s.now - start) && EarnedBy(earned, s, maker))
            && (Consume(s, maker, symbol, vol).Ok? <==>
                  && start <= s.now && At(s.taken, Begin(s)) + Times(w, vol) <= U128_MAX
                  && At(s.volumes, Begin(s)) + vol <= U128_MAX && RotationFits(s, maker, Times(w, vol), earned))
  {
    hide Coefficient, Rotate, Begin, Portion, Weight, RemoveLiquidity, Times, EarnedBy;
    w, earned := 1, 0;
    RemoveCall(s, maker, symbol, vol, maker, symbol);
    var (s1, start) := RemoveLiquidity(s, maker, symbol, vol).value;
    if start <= s.now {
      w := Coefficient(s, start);
      WeightIs(s, start);
      var c, at := Times(w, vol), Begin(s);
      var s2 := s1.(taken := s.taken[at := At(s.taken, at) + c], volumes := s.volumes[at := At(s.volumes, at) + vol]);
      var now;
      earned, now := RotateCall(s2, maker, c);
      SameEarned(s, s2, maker, earned);
      SameBegin(s, s2);
    }
  }

  /** Taking liquidity in the current era changes nothing about earlier eras. */
  lemma SameEarned(s: State, s2: State, who: Account, earned: nat)
    requires s.cfg.Valid() && s2 == s.(pool := s2.pool, taken := s2.taken, volumes := s2.volumes)
    requires forall e: Era | e != Begin(s) :: At(s2.taken, e) == At(s.taken, e)
    requires EarnedBy(earned, s2, who)
    ensures EarnedBy(earned, s, who)
  {
    hide Portion;
    assert Begin(s2) == Begin(s);
  }

  // --- claims ---

  /** A claim confirms what has been earned and pays everything confirmed in newly issued currency: the account's
      confirmed reward is zero afterwards, its contribution to the current era is kept, and nobody else is touched. */
  lemma ClaimCall(s: State, who: Account, a: Account) returns (earned: nat)
    requires s.cfg.Valid() && Claim(s, who).Ok?
    ensures EarnedBy(earned, s, who)
    ensures var (s', paid) := Claim(s, who).value;
            var r := RewardAt(s, who);
            var pending := if r.last == Begin(s) then r.pending else 0;
            && paid == r.confirmed + earned
            && s' == s.(rewards := s'.rewards, issuance := s.issuance + paid, free := s'.free)
            && FreeOf(s'.free, a) == FreeOf(s.free, a) + (if a == who then paid else 0)
            && (if a != who then RewardAt(s', a) == RewardAt(s, a)
                else RewardAt(s', a).confirmed == 0 && RewardAt(s', a).pending == pending)
            && (who in s'.rewards ==> s'.rewards[who].last == Begin(s))
            && (who in s'.rewards <==> pending > 0 || paid == 0)
  {
    hide Rotate, Begin, Portion, EarnedBy;
    var now;
    earned, now := RotateCall(s, who, 0);
  }

  /** A claim fails exactly if the rotation does or what is paid would leave 128 bits. */
  lemma ClaimFails(s: State, who: Account)
    requires s.cfg.Valid()
    ensures var r, c := Rotate(s, who, 0), Claim(s, who);
            if r.Err? then c == Err(r.error)
            else
              var paid := RewardAt(r.value, who).confirmed;
              if paid > 0 && (s.issuance + paid > U128_MAX || FreeOf(s.free, who) + paid > U128_MAX)
              then c == Err(Error.Overflow) else c.Ok?
  {
    hide Earned;
  }
}
