/** The reward pallet as an object: its maps are updated entry by entry. */
module RewardPallet {
  import opened Arith
  import opened Ledgers
  import opened Purses
  import opened Wrappers
  import E = EraRewards

  type Outcome = Result<Done, E.Error>

  class Pallet {
    const cfg: E.Config
    var now: nat
    var eraRewards: nat
    var pool: map<(Account, E.Symbol), E.Provider>
    var taken: map<E.Era, nat>
    var volumes: map<E.Era, nat>
    var rewards: map<Account, E.Reward>
    var free: Purse
    var issuance: nat

    function Abs(): E.State
      reads this
    {
      E.State(cfg, now, eraRewards, pool, taken, volumes, rewards, free, issuance)
    }

    constructor (c: E.Config, r: nat, f: Purse, i: nat)
      ensures Abs() == E.Genesis(c, r, f, i)
    {
      cfg, now, eraRewards, pool, taken, volumes, rewards := c, 0, r, map[], map[], map[], map[];
      free, issuance := f, i;
    }

    method Restore(s: E.State)
      requires s.cfg == cfg
      modifies this
      ensures Abs() == s
    {
      now, eraRewards, pool, taken, volumes := s.now, s.eraRewards, s.pool, s.taken, s.volumes;
      rewards, free, issuance := s.rewards, s.free, s.issuance;
    }

    method PutLiquidity(maker: Account, symbol: E.Symbol, vol: nat)
      modifies this`pool
      ensures Abs() == E.PutLiquidity(old(Abs()), maker, symbol, vol)
    {
      if vol == 0 {
        return;
      }
      pool := pool[(maker, symbol) := E.Provider(vol, now)];
    }

    /** Returns the block since which the removed liquidity was offered. */
    method RemoveLiquidity(maker: Account, symbol: E.Symbol, vol: nat) returns (r: Result<nat, E.Error>)
      modifies this`pool
      ensures var spec := E.RemoveLiquidity(old(Abs()), maker, symbol, vol);
              if spec.Ok? then spec.value.0 == Abs() && r == Ok(spec.value.1)
              else r == Err(spec.error) && Abs() == old(Abs())
    {
      if vol == 0 {
        return Ok(0);
      }
      var k := (maker, symbol);
      if k !in pool {
        return Err(E.LiquidityNotFound);
      }
      var l := pool[k];
      if l.volume < vol {
        return Err(E.InsufficientLiquidity);
      }
      if l.volume == vol {
        pool := pool - {k};
      } else {
        pool := pool[k := l.(volume := l.volume - vol)];
      }
      r := Ok(l.startFrom);
    }

    method Rotate(who: Account, contribution: nat) returns (r: Outcome)
      requires cfg.Valid()
      modifies this`rewards
      ensures Did(old(Abs()), E.Rotate(old(Abs()), who, contribution), Abs(), r)
    {
      hide MulNearest, FromRational;
      var at, e := now - now % cfg.era, E.RewardAt(Abs(), who);
      if at == e.last {
        if e.pending + contribution > U128_MAX {
          return Err(E.Overflow);
        }
        e := e.(pending := e.pending + contribution);
      } else if e.pending == 0 {
        e := e.(pending := contribution, last := at);
      } else {
        var total := E.At(taken, e.last);
        if total == 0 {
          return Err(E.DivideByZero);
        }
        var reward := if now > cfg.terminateAt then 0 else eraRewards;
        var earned := MulNearest(FromRational(e.pending, total), reward);
        if e.confirmed + earned > U128_MAX {
          return Err(E.Overflow);
        }
        e := E.Reward(e.confirmed + earned, contribution, at);
      }
      rewards := rewards[who := e];
      r := Ok(Done);
    }

    /** Turns offered liquidity into a contribution to the current era; unknown volume is ignored. */
    method ConsumeLiquidity(maker: Account, symbol: E.Symbol, vol: nat) returns (r: Outcome)
      requires cfg.Valid()
      modifies this
      ensures Did(old(Abs()), E.Consume(old(Abs()), maker, symbol, vol), Abs(), r)
    {
      hide E.Rotate, E.Coefficient, Times, E.RemoveLiquidity;
      var before := Abs();
      E.RemoveParts(before, maker, symbol, vol);
      var removed := RemoveLiquidity(maker, symbol, vol);
      if removed.Err? {
        return Ok(Done);
      }
      if now < removed.value {
        Restore(before);
        return Err(E.Overflow);
      }
      var at, c := now - now % cfg.era, Times(E.Coefficient(before, removed.value), vol);
      if c > U128_MAX || E.At(taken, at) + c > U128_MAX || E.At(volumes, at) + vol > U128_MAX {
        Restore(before);
        return Err(E.Overflow);
      }
      taken := taken[at := E.At(taken, at) + c];
      volumes := volumes[at := E.At(volumes, at) + vol];
      r := Rotate(maker, c);
      if r.Err? {
        Restore(before);
      }
    }

    /** Pays out, in newly issued native currency, what has been confirmed for `who`. */
    method ClaimReward(who: Account) returns (r: Result<nat, E.Error>)
      requires cfg.Valid()
      modifies this
      ensures var spec := E.Claim(old(Abs()), who);
              if spec.Ok? then spec.value.0 == Abs() && r == Ok(spec.value.1)
              else r == Err(spec.error) && Abs() == old(Abs())
    {
      hide E.Rotate, FreeOf;
      var before := Abs();
      var rotated := Rotate(who, 0);
      if rotated.Err? {
        return Err(rotated.error);
      }
      if who !in rewards {
        Restore(before);
        return Err(E.RewardNotFound);
      }
      var e := rewards[who];
      if e.confirmed == 0 {
        return Ok(0);
      }
      if e.pending > 0 {
        rewards := rewards[who := e.(confirmed := 0)];
      } else {
        rewards := rewards - {who};
      }
      if issuance + e.confirmed > U128_MAX || FreeOf(free, who) + e.confirmed > U128_MAX {
        Restore(before);
        return Err(E.Overflow);
      }
      issuance := issuance + e.confirmed;
      free := free[who := FreeOf(free, who) + e.confirmed];
      r := Ok(e.confirmed);
    }
  }
}
