/** The reward pallet: liquidity, contributions per era and their rotation into rewards. */
module EraRewards {
  import opened Arith
  import opened Sums
  import opened Ledgers
  import opened Purses
  import opened Wrappers

  type Symbol = (nat, nat)
  /** Eras are named by their first block. */
  type Era = nat

  datatype Error = Overflow | DivideByZero | RewardNotFound | InsufficientLiquidity | LiquidityNotFound

  type Attempt<+T> = Result<T, Error>

  datatype Reward = Reward(confirmed: nat, pending: nat, last: Era)

  datatype Provider = Provider(volume: nat, startFrom: nat)

  datatype Config = Config(era: nat, zoom: nat, terminateAt: nat) {
    predicate Valid() { era > 0 && zoom > 0 }
  }

  datatype State = State(
    cfg: Config, now: nat, eraRewards: nat, pool: map<(Account, Symbol), Provider>,
    taken: map<Era, nat>, volumes: map<Era, nat>, rewards: map<Account, Reward>,
    free: Purse, issuance: nat)

  function At(m: map<nat, nat>, k: nat): nat {
    if k in m then m[k] else 0
  }

  function RewardAt(s: State, a: Account): Reward {
    if a in s.rewards then s.rewards[a] else Reward(0, 0, 0)
  }

  /** The era of the current block. */
  function Begin(s: State): Era
    requires s.cfg.Valid()
  {
    s.now - s.now % s.cfg.era
  }

  // --- liquidity ---

  function PutLiquidity(s: State, maker: Account, symbol: Symbol, vol: nat): State {
    if vol == 0 then s else s.(pool := s.pool[(maker, symbol) := Provider(vol, s.now)])
  }

  /** The remaining pool and the block since which the removed liquidity was offered. */
  function RemoveLiquidity(s: State, maker: Account, symbol: Symbol, vol: nat): Attempt<(State, nat)> {
    var k := (maker, symbol);
    if vol == 0 then Ok((s, 0))
    else if k !in s.pool then Err(LiquidityNotFound)
    else if s.pool[k].volume < vol then Err(InsufficientLiquidity)
    else
      var left := s.pool[k].volume - vol;
      Ok((s.(pool := if left == 0 then s.pool - {k} else s.pool[k := s.pool[k].(volume := left)]), s.pool[k].startFrom))
  }

  /** Fresh liquidity can be taken up to its volume, in one go or in parts, and remembers the block it was put in. */
  lemma PutThenRemove(s: State, maker: Account, symbol: Symbol, vol: nat, part: nat)
    requires 0 < part && 0 < vol
    ensures var r := RemoveLiquidity(PutLiquidity(s, maker, symbol, vol), maker, symbol, part);
            && (r.Ok? <==> part <= vol)
            && (r.Ok? ==> r.value.1 == s.now && RemoveLiquidity(r.value.0, maker, symbol, vol - part).Ok?
                          && (maker, symbol) !in RemoveLiquidity(r.value.0, maker, symbol, vol - part).value.0.pool)
  {
  }

  lemma RemoveInParts(s: State, maker: Account, symbol: Symbol, a: nat, b: nat)
    requires a > 0 && b > 0 && RemoveLiquidity(s, maker, symbol, a + b).Ok?
    ensures RemoveLiquidity(s, maker, symbol, a).Ok?
    ensures RemoveLiquidity(RemoveLiquidity(s, maker, symbol, a).value.0, maker, symbol, b)
            == RemoveLiquidity(s, maker, symbol, a + b)
  {
    var k := (maker, symbol);
    var s1 := RemoveLiquidity(s, maker, symbol, a).value.0;
    var left := s.pool[k].volume - a - b;
    if left == 0 {
      assert s1.pool - {k} == s.pool - {k};
    } else {
      assert s1.pool[k := s1.pool[k].(volume := left)] == s.pool[k := s.pool[k].(volume := left)];
    }
  }

  // --- rewards ---

  /** What an era is worth when contributions are rotated out of it now. */
  function Payable(s: State): nat {
    if s.now > s.cfg.terminateAt then 0 else s.eraRewards
  }

  /** The fraction of an era, in parts of 10^18, that `r` has contributed. */
  function Part(s: State, r: Reward): nat
    requires At(s.taken, r.last) > 0
  {
    FromRational(r.pending, At(s.taken, r.last))
  }

  function Earned(s: State, r: Reward): nat
    requires At(s.taken, r.last) > 0
  {
    MulNearest(Part(s, r), Payable(s))
  }

  /** `rotate_reward`: contributions of an earlier era become a confirmed reward. */
  function Rotate(s: State, who: Account, contribution: nat): Attempt<State>
    requires s.cfg.Valid()
  {
    var r, at := RewardAt(s, who), Begin(s);
    if at == r.last then
      if r.pending + contribution > U128_MAX then Err(Error.Overflow)
      else Ok(s.(rewards := s.rewards[who := r.(pending := r.pending + contribution)]))
    else if r.pending == 0 then Ok(s.(rewards := s.rewards[who := Reward(r.confirmed, contribution, at)]))
    else if At(s.taken, r.last) == 0 then Err(DivideByZero)
    else if r.confirmed + Earned(s, r) > U128_MAX then Err(Error.Overflow)
    else Ok(s.(rewards := s.rewards[who := Reward(r.confirmed + Earned(s, r), contribution, at)]))
  }

  function Coefficient(s: State, start: nat): nat
    requires s.cfg.Valid() && start <= s.now
  {
    var c := Min(s.now - start, s.cfg.era) / s.cfg.zoom;
    if c < 1 then 1 else c
  }

  /** `consume_liquidity`: volume without recorded liquidity is ignored. */
  function Consume(s: State, maker: Account, symbol: Symbol, vol: nat): Attempt<State>
    requires s.cfg.Valid()
  {
    var removed := RemoveLiquidity(s, maker, symbol, vol);
    if removed.Err? then Ok(s)
    else if s.now < removed.value.1 then Err(Error.Overflow)
    else
      var c, e := Times(Coefficient(s, removed.value.1), vol), Begin(s);
      if c > U128_MAX || At(s.taken, e) + c > U128_MAX || At(s.volumes, e) + vol > U128_MAX then Err(Error.Overflow)
      else
        Rotate(removed.value.0.(taken := s.taken[e := At(s.taken, e) + c],
                                volumes := s.volumes[e := At(s.volumes, e) + vol]),
               maker, c)
  }

  /** `claim_reward`: rotate, then pay out in newly issued native currency what has been confirmed. */
  function Claim(s: State, who: Account): Attempt<(State, nat)>
    requires s.cfg.Valid()
  {
    var s1 :- Rotate(s, who, 0);
    if who !in s1.rewards then Err(RewardNotFound)
    else
      var r := s1.rewards[who];
      if r.confirmed == 0 then Ok((s1, 0))
      else if s1.issuance + r.confirmed > U128_MAX || FreeOf(s1.free, who) + r.confirmed > U128_MAX then
        Err(Error.Overflow)
      else
        Ok((s1.(rewards := if r.pending > 0 then s1.rewards[who := r.(confirmed := 0)] else s1.rewards - {who},
                issuance := s1.issuance + r.confirmed,
                free := s1.free[who := FreeOf(s1.free, who) + r.confirmed]), r.confirmed))
  }

  // --- runs ---

  datatype Op =
    | Putting(maker: Account, symbol: Symbol, vol: nat)
    | Removing(maker: Account, symbol: Symbol, vol: nat)
    | Consuming(maker: Account, symbol: Symbol, vol: nat)
    | Claiming(who: Account)
    | Pricing(rewards: nat)
    | Tick

  function Call(s: State, op: Op): Attempt<State>
    requires s.cfg.Valid()
  {
    match op
    case Putting(maker, symbol, vol) => Ok(PutLiquidity(s, maker, symbol, vol))
    case Removing(maker, symbol, vol) => var (s1, _) :- RemoveLiquidity(s, maker, symbol, vol); Ok(s1)
    case Consuming(maker, symbol, vol) => Consume(s, maker, symbol, vol)
    case Claiming(who) => var (s1, _) :- Claim(s, who); Ok(s1)
    case Pricing(n) => Ok(s.(eraRewards := n))
    case Tick => Ok(s.(now := s.now + 1))
  }

  function Step(s: State, op: Op): (s': State)
    requires s.cfg.Valid()
    ensures s'.cfg == s.cfg
  {
    CallKeepsConfig(s, op);
    if Call(s, op).Ok? then Call(s, op).value else s
  }

  lemma CallKeepsConfig(s: State, op: Op)
    requires s.cfg.Valid()
    ensures Call(s, op).Ok? ==> Call(s, op).value.cfg == s.cfg
  {
    hide Earned, Coefficient, Begin, Times;
  }

  function Run(s: State, ops: seq<Op>): (s': State)
    requires s.cfg.Valid()
    ensures s'.cfg == s.cfg
  {
    if ops == [] then s else Step(Run(s, ops[..|ops| - 1]), ops[|ops| - 1])
  }

  function Genesis(cfg: Config, rewards: nat, free: Purse, issuance: nat): State {
    State(cfg, 0, rewards, map[], map[], map[], map[], free, issuance)
  }

  // --- one era ---

  function PendingOf(e: Era, r: Reward): nat {
    if r.last == e then r.pending else 0
  }

  function InEra(e: Era): (Account, Reward) -> nat {
    (a: Account, r: Reward) => PendingOf(e, r)
  }

  /** Contributions to era `e` of accounts still on it. */
  ghost function PendingIn(s: State, e: Era): nat {
    Sum(s.rewards, InEra(e))
  }

  /** What has left era `e`: contributions rotated out, the parts and rewards they were turned into, and how often. */
  datatype Book = Book(out: nat, parts: nat, paid: nat, times: nat)

  /** The account whose contributions an accepted call rotates. */
  function Mover(s: State, op: Op): Option<Account>
    requires s.cfg.Valid()
  {
    match op
    case Consuming(maker, symbol, vol) =>
      if RemoveLiquidity(s, maker, symbol, vol).Ok? && Consume(s, maker, symbol, vol).Ok? then Some(maker) else None
    case Claiming(who) => if Claim(s, who).Ok? then Some(who) else None
    case _ => None
  }

  /** The step turns contributions of era `e` into a reward. */
  predicate Leaves(s: State, op: Op, e: Era)
    requires s.cfg.Valid()
  {
    var m := Mover(s, op);
    m.Some? && RewardAt(s, m.value).last == e != Begin(s) && RewardAt(s, m.value).pending > 0
  }

  function Booked(s: State, b: Book, op: Op, e: Era): Book
    requires s.cfg.Valid()
  {
    if Leaves(s, op, e) && At(s.taken, e) > 0 then
      var r := RewardAt(s, Mover(s, op).value);
      Book(b.out + r.pending, b.parts + Part(s, r), b.paid + Earned(s, r), b.times + 1)
    else b
  }

  ghost function BookOf(s: State, ops: seq<Op>, e: Era): Book
    requires s.cfg.Valid()
  {
    if ops == [] then Book(0, 0, 0, 0)
    else
      var before := ops[..|ops| - 1];
      Booked(Run(s, before), BookOf(s, before, e), ops[|ops| - 1], e)
  }

  /** No account is ahead of the clock. */
  ghost predicate Clocked(s: State)
    requires s.cfg.Valid()
  {
    forall a | a in s.rewards :: s.rewards[a].last <= Begin(s)
  }

  /** Taken liquidity is pending plus rotated out; an era is left only after it has ended. */
  ghost predicate Balanced(s: State, b: Book, e: Era)
    requires s.cfg.Valid()
  {
    && At(s.taken, e) == PendingIn(s, e) + b.out
    && (e >= Begin(s) ==> b.out == 0 && b.parts == 0)
    && Times(b.parts, At(s.taken, e)) <= Times(b.out, QUINTILL)
  }

  lemma PendingPut(s: State, a: Account, r: Reward, e: Era)
    ensures PendingIn(s.(rewards := s.rewards[a := r]), e) + PendingOf(e, RewardAt(s, a))
            == PendingIn(s, e) + PendingOf(e, r)
  {
    SumPut(s.rewards, a, r, InEra(e));
  }

  lemma PendingMember(s: State, a: Account)
    ensures RewardAt(s, a).pending <= PendingIn(s, RewardAt(s, a).last)
  {
    SumMember(s.rewards, a, InEra(RewardAt(s, a).last));
  }

  lemma PartsGrow(parts: nat, part: nat, out: nat, pending: nat, taken: nat)
    requires taken > 0 && part == FromRational(pending, taken)
    requires Times(parts, taken) <= Times(out, QUINTILL)
    ensures Times(parts + part, taken) <= Times(out + pending, QUINTILL)
  {
    FromRationalBounds(pending, taken);
    assert (parts + part) * taken == parts * taken + part * taken;
    assert (out + pending) * QUINTILL == out * QUINTILL + pending * QUINTILL;
  }

  /** One rotation, seen from era `e`; the contribution has already been added to the current era. */
  lemma RotateBalanced(s: State, who: Account, c: nat, b: Book, e: Era)
    requires s.cfg.Valid() && Clocked(s) && Rotate(s, who, c).Ok?
    requires At(s.taken, e) == PendingIn(s, e) + b.out + (if e == Begin(s) then c else 0)
    requires e >= Begin(s) ==> b.out == 0 && b.parts == 0
    requires Times(b.parts, At(s.taken, e)) <= Times(b.out, QUINTILL)
    ensures var r := RewardAt(s, who);
            var left := r.last == e != Begin(s) && r.pending > 0;
            && (left ==> At(s.taken, e) > 0)
            && Balanced(Rotate(s, who, c).value,
                        if left then Book(b.out + r.pending, b.parts + Part(s, r), b.paid + Earned(s, r), b.times + 1)
                        else b, e)
    ensures Clocked(Rotate(s, who, c).value)
  {
    hide Part, Earned, PendingIn, Times;
    var r, at, s' := RewardAt(s, who), Begin(s), Rotate(s, who, c).value;
    PendingMember(s, who);
    PendingPut(s, who, s'.rewards[who], e);
    assert s' == s.(rewards := s.rewards[who := s'.rewards[who]]);
    if r.last == e != at && r.pending > 0 {
      PartIs(s, r);
      PartsGrow(b.parts, Part(s, r), b.out, r.pending, At(s.taken, e));
    }
  }

  lemma PartIs(s: State, r: Reward)
    requires At(s.taken, r.last) > 0
    ensures Part(s, r) == FromRational(r.pending, At(s.taken, r.last))
  {
  }

  /** Dividing by zero is impossible when books balance. */
  lemma NeverDividesByZero(s: State, who: Account, c: nat, b: Book)
    requires s.cfg.Valid() && Balanced(s, b, RewardAt(s, who).last)
    ensures Rotate(s, who, c) != Err(DivideByZero)
  {
    hide Earned;
    PendingMember(s, who);
  }

  lemma NextMod(n: nat, g: nat)
    requires g > 0
    ensures n - n % g <= n + 1 - (n + 1) % g
  {
    assert n == n / g * g + n % g;
    if n % g + 1 < g {
      DivModUnique(n + 1, g, n / g, n % g + 1);
    } else {
      assert n + 1 == (n / g + 1) * g by {
        assert (n / g + 1) * g == n / g * g + g;
      }
      DivModUnique(n + 1, g, n / g + 1, 0);
    }
  }

  lemma ClaimParts(s: State, who: Account)
    requires s.cfg.Valid() && Claim(s, who).Ok?
    ensures Rotate(s, who, 0).Ok?
    ensures var s1, s' := Rotate(s, who, 0).value, Claim(s, who).value.0;
            && s' == s.(rewards := s'.rewards, issuance := s'.issuance, free := s'.free)
            && who in s1.rewards
            && s1 == s.(rewards := s1.rewards)
            && ((s'.rewards == s1.rewards && s1.rewards[who].confirmed == 0)
                || s'.rewards == s1.rewards[who := s1.rewards[who].(confirmed := 0)]
                || (s'.rewards == s1.rewards - {who} && s1.rewards[who].pending == 0))
            && Claim(s, who).value.1 == s1.rewards[who].confirmed
            && s'.issuance == s.issuance + s1.rewards[who].confirmed
  {
    hide Earned, Part;
  }

  lemma ClaimBalanced(s: State, who: Account, b: Book, e: Era)
    requires s.cfg.Valid() && Clocked(s) && Balanced(s, b, e) && Claim(s, who).Ok?
    ensures Balanced(Step(s, Claiming(who)), Booked(s, b, Claiming(who), e), e) && Clocked(Step(s, Claiming(who)))
  {
    hide Rotate, Claim, PendingIn, Times, Part, Earned, Balanced, Clocked;
    ClaimParts(s, who);
    RotateBalanced(s, who, 0, b, e) by {
      Unfolded(s, b, e);
    }
    PaidBalanced(s, who, Booked(s, b, Claiming(who), e), e);
  }

  lemma Unfolded(s: State, b: Book, e: Era)
    requires s.cfg.Valid() && Balanced(s, b, e)
    ensures At(s.taken, e) == PendingIn(s, e) + b.out
    ensures e >= Begin(s) ==> b.out == 0 && b.parts == 0
    ensures Times(b.parts, At(s.taken, e)) <= Times(b.out, QUINTILL)
  {
  }

  /** Paying out what is confirmed leaves every era's books alone. */
  lemma PaidBalanced(s: State, who: Account, b: Book, e: Era)
    requires s.cfg.Valid() && Claim(s, who).Ok? && Rotate(s, who, 0).Ok?
    requires Rotate(s, who, 0).value.cfg == s.cfg && Balanced(Rotate(s, who, 0).value, b, e)
    requires Clocked(Rotate(s, who, 0).value)
    ensures Balanced(Step(s, Claiming(who)), b, e) && Clocked(Step(s, Claiming(who)))
  {
    hide Rotate, Claim, PendingIn, Times;
    ClaimParts(s, who);
    var s1, s' := Rotate(s, who, 0).value, Claim(s, who).value.0;
    if s'.rewards == s1.rewards - {who} {
      DropPending(s1, who, e);
    } else if s'.rewards != s1.rewards {
      PendingPut(s1, who, s1.rewards[who].(confirmed := 0), e);
    }
    PendingSame(s', s1.(rewards := s'.rewards), e);
  }

  lemma DropPending(s: State, who: Account, e: Era)
    requires who in s.rewards && s.rewards[who].pending == 0
    ensures PendingIn(s.(rewards := s.rewards - {who}), e) == PendingIn(s, e)
  {
    SumDrop(s.rewards, who, InEra(e));
  }

  lemma PendingSame(s: State, s': State, e: Era)
    requires s.rewards == s'.rewards
    ensures PendingIn(s, e) == PendingIn(s', e)
  {
  }

  lemma ConsumeParts(s: State, maker: Account, symbol: Symbol, vol: nat)
    requires s.cfg.Valid() && Consume(s, maker, symbol, vol).Ok? && RemoveLiquidity(s, maker, symbol, vol).Ok?
    ensures var (s1, start) := RemoveLiquidity(s, maker, symbol, vol).value;
            && start <= s.now
            && var c, e := Times(Coefficient(s, start), vol), Begin(s);
               var s2 := s1.(taken := s.taken[e := At(s.taken, e) + c],
                             volumes := s.volumes[e := At(s.volumes, e) + vol]);
               Rotate(s2, maker, c).Ok? && Consume(s, maker, symbol, vol) == Rotate(s2, maker, c)
    ensures RemoveLiquidity(s, maker, symbol, vol).value.0
            == s.(pool := RemoveLiquidity(s, maker, symbol, vol).value.0.pool)
  {
    hide Rotate, Times, Coefficient;
  }

  lemma ConsumeBalanced(s: State, maker: Account, symbol: Symbol, vol: nat, b: Book, e: Era)
    requires s.cfg.Valid() && Clocked(s) && Balanced(s, b, e) && Consume(s, maker, symbol, vol).Ok?
    requires RemoveLiquidity(s, maker, symbol, vol).Ok?
    ensures var op := Consuming(maker, symbol, vol);
            Balanced(Step(s, op), Booked(s, b, op, e), e) && Clocked(Step(s, op))
  {
    hide Rotate, Consume, RemoveLiquidity, PendingIn, Times, Part, Earned, Coefficient;
    ConsumeParts(s, maker, symbol, vol);
    var (s1, start) := RemoveLiquidity(s, maker, symbol, vol).value;
    var c, at := Times(Coefficient(s, start), vol), Begin(s);
    var s2 := s1.(taken := s.taken[at := At(s.taken, at) + c], volumes := s.volumes[at := At(s.volumes, at) + vol]);
    PendingSame(s, s2, e);
    if e == at {
      assert b.parts == 0;
      NoParts(At(s2.taken, e), b.out);
    }
    RotateBalanced(s2, maker, c, b, e);
    var r := RewardAt(s, maker);
    if r.last == e != at && r.pending > 0 {
      SamePart(s, s2, r);
    }
  }

  lemma NoParts(taken: nat, out: nat)
    ensures Times(0, taken) <= Times(out, QUINTILL)
  {
  }

  lemma SamePart(s: State, s': State, r: Reward)
    requires At(s.taken, r.last) == At(s'.taken, r.last) > 0 && s.now == s'.now && s.cfg == s'.cfg
    requires s.eraRewards == s'.eraRewards
    ensures Part(s, r) == Part(s', r) && Earned(s, r) == Earned(s', r)
  {
  }

  lemma StepBalanced(s: State, b: Book, op: Op, e: Era)
    requires s.cfg.Valid() && Clocked(s) && Balanced(s, b, e)
    ensures Balanced(Step(s, op), Booked(s, b, op, e), e) && Clocked(Step(s, op))
  {
    hide Rotate, Consume, Claim, PendingIn, Times, Part, Earned;
    match op
    case Consuming(maker, symbol, vol) =>
      if RemoveLiquidity(s, maker, symbol, vol).Err? {
        IgnoredVolume(s, maker, symbol, vol);
      } else if Consume(s, maker, symbol, vol).Ok? {
        ConsumeBalanced(s, maker, symbol, vol, b, e);
      }
    case Claiming(who) =>
      if Claim(s, who).Ok? {
        ClaimBalanced(s, who, b, e);
      }
    case Tick =>
      NextMod(s.now, s.cfg.era);
      PendingSame(s, Step(s, op), e);
    case _ =>
      PendingSame(s, Step(s, op), e);
  }

  lemma IgnoredVolume(s: State, maker: Account, symbol: Symbol, vol: nat)
    requires s.cfg.Valid() && RemoveLiquidity(s, maker, symbol, vol).Err?
    ensures Consume(s, maker, symbol, vol) == Ok(s)
  {
  }

  /** For every run and every era: taken liquidity is what is pending on the era plus what was rotated out of it. */
  lemma {:induction false} RunBalanced(s: State, ops: seq<Op>, e: Era)
    requires s.cfg.Valid() && s.rewards == map[] && s.taken == map[]
    ensures Balanced(Run(s, ops), BookOf(s, ops, e), e) && Clocked(Run(s, ops))
  {
    hide Step, Balanced, Clocked, Booked;
    if ops == [] {
      StartBalanced(s, e);
    } else {
      RunBalanced(s, ops[..|ops| - 1], e);
      StepBalanced(Run(s, ops[..|ops| - 1]), BookOf(s, ops[..|ops| - 1], e), ops[|ops| - 1], e);
    }
  }

  lemma StartBalanced(s: State, e: Era)
    requires s.cfg.Valid() && s.rewards == map[] && s.taken == map[]
    ensures Balanced(s, Book(0, 0, 0, 0), e) && Clocked(s)
  {
  }

  /** The parts handed out for an era never exceed the whole. */
  lemma FractionsBounded(s: State, ops: seq<Op>, e: Era)
    requires s.cfg.Valid() && s.rewards == map[] && s.taken == map[]
    ensures BookOf(s, ops, e).parts <= QUINTILL
    ensures forall who: Account, c: nat :: Rotate(Run(s, ops), who, c) != Err(DivideByZero)
  {
    hide BookOf, Run, Rotate;
    RunBalanced(s, ops, e);
    var b, t := BookOf(s, ops, e), At(Run(s, ops).taken, e);
    if t > 0 {
      MulMono(b.out, t, QUINTILL);
      WholeBound(b.parts, t);
    } else {
      NothingLeft(s, ops, e);
    }
    forall who: Account, c: nat
      ensures Rotate(Run(s, ops), who, c) != Err(DivideByZero)
    {
      var last := RewardAt(Run(s, ops), who).last;
      RunBalanced(s, ops, last);
      NeverDividesByZero(Run(s, ops), who, c, BookOf(s, ops, last));
    }
  }

  lemma WholeBound(parts: nat, t: nat)
    requires t > 0 && parts * t <= t * QUINTILL
    ensures parts <= QUINTILL
  {
    if parts > QUINTILL {
      MulAhead(parts, QUINTILL, t);
      assert false;
    }
  }

  /** Nothing is handed out for an era without contributions. */
  lemma {:induction false} NothingLeft(s: State, ops: seq<Op>, e: Era)
    requires s.cfg.Valid() && s.rewards == map[] && s.taken == map[]
    requires At(Run(s, ops).taken, e) == 0
    ensures BookOf(s, ops, e).parts == 0
  {
    hide Step, Part, Earned, Mover;
    if ops == [] {
    } else {
      var s1 := Run(s, ops[..|ops| - 1]);
      TakenGrows(s1, ops[|ops| - 1], e);
      NothingLeft(s, ops[..|ops| - 1], e);
    }
  }

  lemma TakenGrows(s: State, op: Op, e: Era)
    requires s.cfg.Valid()
    ensures At(s.taken, e) <= At(Step(s, op).taken, e)
  {
    hide Rotate, Earned, Part, Times, Coefficient;
    match op
    case Consuming(maker, symbol, vol) =>
      if RemoveLiquidity(s, maker, symbol, vol).Err? {
        IgnoredVolume(s, maker, symbol, vol);
      } else if Consume(s, maker, symbol, vol).Ok? {
        ConsumeParts(s, maker, symbol, vol);
        var (s1, start) := RemoveLiquidity(s, maker, symbol, vol).value;
        var c, at := Times(Coefficient(s, start), vol), Begin(s);
        RotateKeeps(s1.(taken := s.taken[at := At(s.taken, at) + c],
                        volumes := s.volumes[at := At(s.volumes, at) + vol]),
                    maker, c);
      }
    case Claiming(who) =>
      if Claim(s, who).Ok? {
        ClaimParts(s, who);
      }
    case _ =>
  }

  lemma RotateKeeps(s: State, who: Account, c: nat)
    requires s.cfg.Valid() && Rotate(s, who, c).Ok?
    ensures var s' := Rotate(s, who, c).value; s' == s.(rewards := s'.rewards)
  {
    hide Earned;
  }

  // --- volumes ---

  /** The largest weight of a contribution. */
  function MaxCoefficient(cfg: Config): (c: nat)
    requires cfg.Valid()
    ensures c >= 1
  {
    if cfg.era / cfg.zoom < 1 then 1 else cfg.era / cfg.zoom
  }

  /** Liquidity taken in an era lies between the volume traded in it and that volume at the largest weight. */
  ghost predicate Weighted(s: State, e: Era)
    requires s.cfg.Valid()
  {
    At(s.volumes, e) <= At(s.taken, e) <= Times(MaxCoefficient(s.cfg), At(s.volumes, e))
  }

  lemma CoefficientBounds(s: State, start: nat)
    requires s.cfg.Valid() && start <= s.now
    ensures 1 <= Coefficient(s, start) <= MaxCoefficient(s.cfg)
  {
    var m := Min(s.now - start, s.cfg.era);
    DivMono(m, s.cfg.era, s.cfg.zoom);
  }

  lemma WeightedAdds(c: nat, vol: nat, volumes: nat, taken: nat, max: nat)
    requires 1 <= c <= max && volumes <= taken <= Times(max, volumes)
    ensures volumes + vol <= taken + Times(c, vol) <= Times(max, volumes + vol)
  {
    MulMono(1, c, vol);
    MulMono(c, max, vol);
    assert max * (volumes + vol) == max * volumes + max * vol;
  }

  lemma StepWeighted(s: State, op: Op, e: Era)
    requires s.cfg.Valid() && Weighted(s, e)
    ensures Weighted(Step(s, op), e)
  {
    hide Rotate, Earned, Part, Times, Coefficient, Claim, MaxCoefficient, Consume, RemoveLiquidity;
    match op
    case Consuming(maker, symbol, vol) =>
      if RemoveLiquidity(s, maker, symbol, vol).Err? {
        IgnoredVolume(s, maker, symbol, vol);
      } else if Consume(s, maker, symbol, vol).Ok? {
        ConsumeParts(s, maker, symbol, vol);
        var (s1, start) := RemoveLiquidity(s, maker, symbol, vol).value;
        var k, at := Coefficient(s, start), Begin(s);
        var c := Times(k, vol);
        RotateKeeps(s1.(taken := s.taken[at := At(s.taken, at) + c],
                        volumes := s.volumes[at := At(s.volumes, at) + vol]),
                    maker, c);
        CoefficientBounds(s, start);
        if e == at {
          WeightedAdds(k, vol, At(s.volumes, at), At(s.taken, at), MaxCoefficient(s.cfg));
        }
      }
    case Claiming(who) =>
      if Claim(s, who).Ok? {
        ClaimParts(s, who);
      }
    case Removing(maker, symbol, vol) => RemoveParts(s, maker, symbol, vol);
    case _ =>
  }

  lemma RemoveParts(s: State, maker: Account, symbol: Symbol, vol: nat)
    ensures var r := RemoveLiquidity(s, maker, symbol, vol);
            r.Ok? ==> r.value.0 == s.(pool := r.value.0.pool)
  {
  }

  lemma {:induction false} RunWeighted(s: State, ops: seq<Op>, e: Era)
    requires s.cfg.Valid() && Weighted(s, e)
    ensures Weighted(Run(s, ops), e)
  {
    hide Step, Weighted;
    if ops == [] {
    } else {
      RunWeighted(s, ops[..|ops| - 1], e);
      StepWeighted(Run(s, ops[..|ops| - 1]), ops[|ops| - 1], e);
    }
  }

  // --- what an era pays ---

  /** Era rewards never set above `cap`. */
  ghost predicate PricedBelow(ops: seq<Op>, cap: nat) {
    forall i | 0 <= i < |ops| && ops[i].Pricing? :: ops[i].rewards <= cap
  }

  ghost predicate Capped(b: Book, cap: nat) {
    2 * QUINTILL * b.paid <= 2 * Times(b.parts, cap) + QUINTILL * b.times
  }

  lemma EarnedBelow(s: State, r: Reward, b: Book, cap: nat)
    requires At(s.taken, r.last) > 0 && s.eraRewards <= cap && Capped(b, cap)
    ensures Capped(Book(b.out + r.pending, b.parts + Part(s, r), b.paid + Earned(s, r), b.times + 1), cap)
  {
    hide Part;
    var p := Part(s, r);
    MulNearestBounds(p, Payable(s));
    assert p * Payable(s) <= p * cap by {
      MulMono(Payable(s), cap, p);
    }
    assert (b.parts + p) * cap == b.parts * cap + p * cap;
    assert 2 * p * Payable(s) == 2 * (p * Payable(s));
  }

  lemma StepCapped(s: State, b: Book, op: Op, e: Era, cap: nat)
    requires s.cfg.Valid() && s.eraRewards <= cap && Capped(b, cap) && (op.Pricing? ==> op.rewards <= cap)
    ensures Capped(Booked(s, b, op, e), cap) && Step(s, op).eraRewards <= cap
  {
    hide Rotate, Earned, Part, Times, Coefficient, Mover, Capped;
    if Leaves(s, op, e) && At(s.taken, e) > 0 {
      EarnedBelow(s, RewardAt(s, Mover(s, op).value), b, cap);
    }
    PriceKept(s, op);
  }

  lemma PriceKept(s: State, op: Op)
    requires s.cfg.Valid()
    ensures Step(s, op).eraRewards == if op.Pricing? then op.rewards else s.eraRewards
  {
    hide Rotate, Earned, Part, Times, Coefficient, Claim;
    match op
    case Consuming(maker, symbol, vol) =>
      if RemoveLiquidity(s, maker, symbol, vol).Err? {
        IgnoredVolume(s, maker, symbol, vol);
      } else if Consume(s, maker, symbol, vol).Ok? {
        ConsumeParts(s, maker, symbol, vol);
        var (s1, start) := RemoveLiquidity(s, maker, symbol, vol).value;
        var c, at := Times(Coefficient(s, start), vol), Begin(s);
        RotateKeeps(s1.(taken := s.taken[at := At(s.taken, at) + c],
                        volumes := s.volumes[at := At(s.volumes, at) + vol]),
                    maker, c);
      }
    case Claiming(who) =>
      if Claim(s, who).Ok? {
        ClaimParts(s, who);
      }
    case _ =>
  }

  lemma {:induction false} RunCapped(s: State, ops: seq<Op>, e: Era, cap: nat)
    requires s.cfg.Valid() && s.eraRewards <= cap && PricedBelow(ops, cap)
    ensures Capped(BookOf(s, ops, e), cap) && Run(s, ops).eraRewards <= cap
  {
    hide Step, Booked;
    if ops == [] {
    } else {
      RunCapped(s, ops[..|ops| - 1], e, cap);
      StepCapped(Run(s, ops[..|ops| - 1]), BookOf(s, ops[..|ops| - 1], e), ops[|ops| - 1], e, cap);
    }
  }

  /** All accounts together earn from an era at most its reward and half a unit of rounding each time. */
  lemma EraPaysAtMost(s: State, ops: seq<Op>, e: Era, cap: nat)
    requires s.cfg.Valid() && s.rewards == map[] && s.taken == map[]
    requires s.eraRewards <= cap && PricedBelow(ops, cap)
    ensures 2 * BookOf(s, ops, e).paid <= 2 * cap + BookOf(s, ops, e).times
  {
    hide BookOf, Run;
    RunCapped(s, ops, e, cap);
    FractionsBounded(s, ops, e);
    var b := BookOf(s, ops, e);
    MulMono(b.parts, QUINTILL, cap);
  }

  // --- issuance ---

  function ConfirmedOf(a: Account, r: Reward): nat {
    r.confirmed
  }

  function OfReward(): (Account, Reward) -> nat {
    (a: Account, r: Reward) => ConfirmedOf(a, r)
  }

  ghost function Confirmed(s: State): nat {
    Sum(s.rewards, OfReward())
  }

  /** The reward a step confirms. */
  function Confirms(s: State, op: Op): nat
    requires s.cfg.Valid()
  {
    var m := Mover(s, op);
    if m.None? then 0
    else
      var r := RewardAt(s, m.value);
      if r.last != Begin(s) && r.pending > 0 && At(s.taken, r.last) > 0 then Earned(s, r) else 0
  }

  ghost function Rewarded(s: State, ops: seq<Op>): nat
    requires s.cfg.Valid()
  {
    if ops == [] then 0
    else Rewarded(s, ops[..|ops| - 1]) + Confirms(Run(s, ops[..|ops| - 1]), ops[|ops| - 1])
  }

  lemma RotateConfirms(s: State, who: Account, c: nat)
    requires s.cfg.Valid() && Rotate(s, who, c).Ok?
    ensures var r := RewardAt(s, who);
            Confirmed(Rotate(s, who, c).value)
            == Confirmed(s)
               + if r.last != Begin(s) && r.pending > 0 && At(s.taken, r.last) > 0 then Earned(s, r) else 0
  {
    hide Earned;
    SumPut(s.rewards, who, Rotate(s, who, c).value.rewards[who], OfReward());
  }

  lemma ClaimConfirms(s: State, who: Account)
    requires s.cfg.Valid() && Claim(s, who).Ok?
    ensures var op := Claiming(who);
            Step(s, op).issuance + Confirmed(Step(s, op)) == s.issuance + Confirmed(s) + Confirms(s, op)
  {
    hide Rotate, Earned, Claim, Confirmed;
    ClaimParts(s, who);
    RotateConfirms(s, who, 0);
    var s1, s' := Rotate(s, who, 0).value, Claim(s, who).value.0;
    PaidOut(s1, s', who);
  }

  lemma PaidOut(s: State, s': State, who: Account)
    requires who in s.rewards
    requires (s'.rewards == s.rewards && s.rewards[who].confirmed == 0)
             || s'.rewards == s.rewards[who := s.rewards[who].(confirmed := 0)] || s'.rewards == s.rewards - {who}
    ensures Confirmed(s') + s.rewards[who].confirmed == Confirmed(s)
  {
    SumPut(s.rewards, who, s.rewards[who].(confirmed := 0), OfReward());
    SumDrop(s.rewards, who, OfReward());
  }

  lemma ConsumeConfirms(s: State, maker: Account, symbol: Symbol, vol: nat)
    requires s.cfg.Valid() && RemoveLiquidity(s, maker, symbol, vol).Ok? && Consume(s, maker, symbol, vol).Ok?
    ensures var op := Consuming(maker, symbol, vol);
            Step(s, op).issuance == s.issuance && Confirmed(Step(s, op)) == Confirmed(s) + Confirms(s, op)
  {
    hide Rotate, Earned, Part, Times, Coefficient, Consume, RemoveLiquidity, Confirmed;
    ConsumeParts(s, maker, symbol, vol);
    var (s1, start) := RemoveLiquidity(s, maker, symbol, vol).value;
    var c, at := Times(Coefficient(s, start), vol), Begin(s);
    var s2 := s1.(taken := s.taken[at := At(s.taken, at) + c], volumes := s.volumes[at := At(s.volumes, at) + vol]);
    RotateKeeps(s2, maker, c);
    RotateConfirms(s2, maker, c);
    ConfirmedSame(s, s2);
    var r := RewardAt(s, maker);
    if r.last != at && At(s.taken, r.last) > 0 {
      SamePart(s, s2, r);
    }
  }

  lemma ConfirmedSame(s: State, s': State)
    requires s.rewards == s'.rewards
    ensures Confirmed(s) == Confirmed(s')
  {
  }

  lemma StepConfirms(s: State, op: Op)
    requires s.cfg.Valid()
    ensures Step(s, op).issuance + Confirmed(Step(s, op)) == s.issuance + Confirmed(s) + Confirms(s, op)
  {
    hide Rotate, Earned, Consume, Claim, Confirmed;
    match op
    case Consuming(maker, symbol, vol) =>
      if RemoveLiquidity(s, maker, symbol, vol).Err? {
        IgnoredVolume(s, maker, symbol, vol);
      } else if Consume(s, maker, symbol, vol).Ok? {
        ConsumeConfirms(s, maker, symbol, vol);
      }
    case Claiming(who) =>
      if Claim(s, who).Ok? {
        ClaimConfirms(s, who);
      }
    case _ =>
      ConfirmedSame(s, Step(s, op));
  }

  /** Over every run: what was issued plus what is still confirmed is all that was ever rotated into rewards. */
  lemma {:induction false} RunIssues(s: State, ops: seq<Op>)
    requires s.cfg.Valid() && s.rewards == map[]
    ensures Run(s, ops).issuance - s.issuance + Confirmed(Run(s, ops)) == Rewarded(s, ops)
  {
    hide Step, Confirms, Confirmed;
    if ops == [] {
      NothingConfirmed(s);
    } else {
      RunIssues(s, ops[..|ops| - 1]);
      StepConfirms(Run(s, ops[..|ops| - 1]), ops[|ops| - 1]);
    }
  }

  lemma NothingConfirmed(s: State)
    requires s.rewards == map[]
    ensures Confirmed(s) == 0
  {
  }
}
