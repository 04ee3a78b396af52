/** One betting of the tournament: stakes, odds, compensation and pledge, over whole runs. */
module Betting {
  import opened Arith
  import opened Sums
  import opened Wrappers
  import opened Ledgers
  import opened Purses

  datatype Error =
    | BettingAmountTooSmall | SelectIndexOverflow | BettingOverTime | BettingAmountOverflow | BettingParamsError
    | PermissonDeny | HaveNoBonus | BattleStatusError | BettingError | PledgeAmountZero | Arithmetic
    | Payment(error: PayError)

  type Attempt<+T> = Result<T, Error>

  /** One selectable outcome: its odds in percent, the compensation promised, the stakes and the number of bets. */
  datatype Item = Item(odd: nat, comp: nat, buyIn: nat, accounts: nat)

  datatype Bet = Bet(item: nat, odd: nat, amount: nat)

  datatype Record = Record(bets: seq<Bet>, claimed: bool)

  /** Whether the battle is finalized, and which item it hits. */
  datatype Outcome = Pending | Final(hit: Option<nat>)

  datatype State = State(
    creator: Account, pledge: Account, minBet: nat, open: bool, outcome: Outcome,
    items: seq<Item>, records: map<Account, Record>, totalPledge: nat, purse: Purse)

  function Lift(r: Result<Purse, PayError>): Attempt<Purse> {
    if r.Ok? then Ok(r.value) else Err(Payment(r.error))
  }

  function RecordOf(s: State, who: Account): Record {
    if who in s.records then s.records[who] else Record([], false)
  }

  /** What a stake at the given odds is worth. */
  function Worth(odd: nat, amount: nat): nat {
    Times(odd, amount) / 100
  }

  /** Adds to the first entry with the same item and odds, or appends one. */
  function Merge(bets: seq<Bet>, item: nat, odd: nat, amount: nat): seq<Bet> {
    if bets == [] then [Bet(item, odd, amount)]
    else if bets[0].item == item && bets[0].odd == odd then [bets[0].(amount := bets[0].amount + amount)] + bets[1..]
    else [bets[0]] + Merge(bets[1..], item, odd, amount)
  }

  predicate Narrow(bets: seq<Bet>) {
    forall b | b in bets :: b.amount <= U128_MAX
  }

  function GoBet(s: State, who: Account, i: nat, amount: nat): Attempt<State> {
    if amount < s.minBet then Err(BettingAmountTooSmall)
    else if i >= |s.items| then Err(SelectIndexOverflow)
    else if !s.open then Err(BettingOverTime)
    else
      var it := s.items[i];
      if Times(it.odd, amount) > U128_MAX || it.comp + Worth(it.odd, amount) > U128_MAX then Err(Arithmetic)
      else if it.comp + Worth(it.odd, amount) > FreeOf(s.purse, s.pledge) then Err(BettingAmountOverflow)
      else
        var purse :- Lift(Pay(s.purse, who, s.creator, amount));
        var bets := Merge(RecordOf(s, who).bets, i, it.odd, amount);
        if !Narrow(bets) || it.accounts + 1 > U32_MAX || it.buyIn + amount > U128_MAX then Err(Arithmetic)
        else
          Ok(s.(purse := purse,
                records := s.records[who := RecordOf(s, who).(bets := bets)],
                items := s.items[i :=
                  Item(it.odd, it.comp + Worth(it.odd, amount), it.buyIn + amount, it.accounts + 1)]))
  }

  /** Odds above one hundred percent, set one after the other; all of them or none. */
  function SetOdds(items: seq<Item>, odds: seq<(nat, nat)>): Attempt<seq<Item>> {
    if odds == [] then Ok(items)
    else
      var before :- SetOdds(items, odds[..|odds| - 1]);
      var (i, o) := odds[|odds| - 1];
      if i >= |before| then Err(SelectIndexOverflow)
      else if o <= 100 then Err(BettingParamsError)
      else Ok(before[i := before[i].(odd := o)])
  }

  function UpdateOdds(s: State, who: Account, odds: seq<(nat, nat)>): Attempt<State> {
    if who != s.creator then Err(PermissonDeny)
    else
      var items :- SetOdds(s.items, odds);
      Ok(s.(items := items))
  }

  function AppendPledge(s: State, who: Account, amount: nat): Attempt<State> {
    if amount == 0 then Err(PledgeAmountZero)
    else if s.outcome != Pending then Err(BattleStatusError)
    else
      var purse :- Lift(Pay(s.purse, who, s.pledge, amount));
      Ok(s.(purse := purse, totalPledge := FreeOf(purse, s.pledge)))
  }

  /** Takes the pledge back while nothing has been promised. */
  function Drop(s: State, who: Account): Attempt<State> {
    if who != s.creator then Err(PermissonDeny)
    else if exists i | 0 <= i < |s.items| :: s.items[i].comp != 0 then Err(BettingError)
    else
      var purse :- Lift(Pay(s.purse, s.pledge, s.creator, FreeOf(s.purse, s.pledge)));
      Ok(s.(purse := purse, totalPledge := 0))
  }

  function HitItem(s: State): Attempt<nat> {
    if s.outcome == Pending then Err(BattleStatusError)
    else if s.outcome.hit.None? || s.outcome.hit.value >= |s.items| then Err(BettingError)
    else Ok(s.outcome.hit.value)
  }

  /** What the bets on item `i` are worth together, each entry rounded down. */
  function Owing(bets: seq<Bet>, i: nat): nat {
    if bets == [] then 0
    else Owing(bets[..|bets| - 1], i)
         + if bets[|bets| - 1].item == i then Worth(bets[|bets| - 1].odd, bets[|bets| - 1].amount) else 0
  }

  /** The products and the sum stay within 128 bits. */
  predicate Payable(bets: seq<Bet>, i: nat) {
    (forall b | b in bets && b.item == i :: Times(b.odd, b.amount) <= U128_MAX) && Owing(bets, i) <= U128_MAX
  }

  function Claim(s: State, who: Account): Attempt<State> {
    var r := RecordOf(s, who);
    if r.claimed || r.bets == [] then Err(HaveNoBonus)
    else
      var hit :- HitItem(s);
      if !Payable(r.bets, hit) then Err(Arithmetic)
      else
        var purse :- Lift(Pay(s.purse, s.pledge, who, Owing(r.bets, hit)));
        Ok(s.(purse := purse, records := s.records[who := r.(claimed := true)]))
  }

  /** Gives the creator what the pledge holds beyond the promised compensation. */
  function RevokeRemain(s: State, who: Account): Attempt<State> {
    if who != s.creator then Err(PermissonDeny)
    else
      var hit :- HitItem(s);
      if s.totalPledge <= s.items[hit].comp then Ok(s)
      else
        var purse :- Lift(Pay(s.purse, s.pledge, s.creator, s.totalPledge - s.items[hit].comp));
        Ok(s.(purse := purse))
  }

  // --- runs ---

  datatype Op =
    | Wagering(who: Account, item: nat, amount: nat)
    | Repricing(who: Account, odds: seq<(nat, nat)>)
    | Appending(who: Account, amount: nat)
    | Dropping(who: Account)
    | Starting
    | Finishing(hit: Option<nat>)
    | Claiming(who: Account)
    | Revoking(who: Account)
    | Elsewhere(purse: Purse)

  function Call(s: State, op: Op): Attempt<State> {
    match op
    case Wagering(who, i, amount) => GoBet(s, who, i, amount)
    case Repricing(who, odds) => UpdateOdds(s, who, odds)
    case Appending(who, amount) => AppendPledge(s, who, amount)
    case Dropping(who) => Drop(s, who)
    case Starting => Ok(s.(open := false))
    case Finishing(hit) => Ok(s.(outcome := Final(hit)))
    case Claiming(who) => Claim(s, who)
    case Revoking(who) => RevokeRemain(s, who)
    case Elsewhere(p) => Ok(s.(purse := p))
  }

  /** The pledge account has no owner: it signs nothing, is not the creator, and nobody else spends from it. */
  predicate Regular(s: State, op: Op) {
    match op
    case Wagering(who, _, _) => who != s.pledge
    case Claiming(who) => who != s.pledge
    case Elsewhere(p) => FreeOf(s.purse, s.pledge) <= FreeOf(p, s.pledge)
    case _ => true
  }

  function Step(s: State, op: Op): State {
    if Regular(s, op) && Call(s, op).Ok? then Call(s, op).value else s
  }

  function Run(s: State, ops: seq<Op>): State {
    if ops == [] then s else Step(Run(s, ops[..|ops| - 1]), ops[|ops| - 1])
  }

  /** `create_betting`: nothing staked yet, odds above one hundred percent, and the pledge paid in. */
  predicate Created(s: State) {
    && s.creator != s.pledge && s.outcome == Pending && s.records == map[]
    && (forall i | 0 <= i < |s.items| :: s.items[i].odd > 100 && s.items[i].comp == 0
          && s.items[i].buyIn == 0 && s.items[i].accounts == 0)
  }

  // --- what is recorded ---

  function Staked(bets: seq<Bet>, i: nat): nat {
    if bets == [] then 0
    else Staked(bets[..|bets| - 1], i) + if bets[|bets| - 1].item == i then bets[|bets| - 1].amount else 0
  }

  function Entries(bets: seq<Bet>, i: nat): nat {
    if bets == [] then 0
    else Entries(bets[..|bets| - 1], i) + if bets[|bets| - 1].item == i then 1 else 0
  }

  function StakeOf(i: nat, a: Account, r: Record): nat { Staked(r.bets, i) }

  function OwedTo(i: nat, a: Account, r: Record): nat { Owing(r.bets, i) }

  function EntriesOf(i: nat, a: Account, r: Record): nat { Entries(r.bets, i) }

  function Stakes(i: nat): (Account, Record) -> nat { (a: Account, r: Record) => StakeOf(i, a, r) }

  function Owings(i: nat): (Account, Record) -> nat { (a: Account, r: Record) => OwedTo(i, a, r) }

  function EntryCounts(i: nat): (Account, Record) -> nat { (a: Account, r: Record) => EntriesOf(i, a, r) }

  /** What all recorded bets on item `i` would be paid if it hits. */
  ghost function Owed(s: State, i: nat): nat {
    Sum(s.records, Owings(i))
  }

  /** The books of item `i`: stakes are recorded in full, and what would be owed is what has been promised plus at most
      one unit for every bet that was merged into an earlier entry. */
  ghost predicate Books(s: State, i: nat) {
    i < |s.items| ==>
      && s.items[i].buyIn == Sum(s.records, Stakes(i))
      && s.items[i].comp <= Owed(s, i)
      && Owed(s, i) + Sum(s.records, EntryCounts(i)) <= s.items[i].comp + s.items[i].accounts
  }

  lemma FloorAdds(odd: nat, m: nat, a: nat)
    ensures Worth(odd, m) + Worth(odd, a) <= Worth(odd, m + a) <= Worth(odd, m) + Worth(odd, a) + 1
  {
    assert odd * (m + a) == odd * m + odd * a;
  }

  /** Peeling the first entry instead of the last. */
  lemma {:induction false} HeadFirst(bets: seq<Bet>, i: nat)
    requires bets != []
    ensures Staked(bets, i) == Staked(bets[1..], i) + if bets[0].item == i then bets[0].amount else 0
    ensures Entries(bets, i) == Entries(bets[1..], i) + if bets[0].item == i then 1 else 0
    ensures Owing(bets, i) == Owing(bets[1..], i) + if bets[0].item == i then Worth(bets[0].odd, bets[0].amount) else 0
  {
    hide Worth;
    if |bets| > 1 {
      var before := bets[..|bets| - 1];
      HeadFirst(before, i);
      assert before[1..] == bets[1..][..|bets| - 2];
    } else {
      assert bets[1..] == [] && bets[..0] == [];
    }
  }

  lemma {:induction false} MergeEffect(bets: seq<Bet>, item: nat, odd: nat, amount: nat, i: nat)
    ensures var m := Merge(bets, item, odd, amount);
            && m != []
            && Staked(m, i) == Staked(bets, i) + (if i == item then amount else 0)
            && (if i == item then
                  && Owing(bets, i) + Worth(odd, amount) <= Owing(m, i)
                  && Entries(bets, i) <= Entries(m, i)
                  && Owing(m, i) + Entries(m, i) <= Owing(bets, i) + Worth(odd, amount) + Entries(bets, i) + 1
                else Owing(m, i) == Owing(bets, i) && Entries(m, i) == Entries(bets, i))
  {
    hide Worth, Staked, Owing, Entries;
    var m := Merge(bets, item, odd, amount);
    HeadFirst(m, i);
    if bets == [] {
      assert m[1..] == [];
      Bare(i);
    } else {
      HeadFirst(bets, i);
      if bets[0].item == item && bets[0].odd == odd {
        assert m[1..] == bets[1..];
        FloorAdds(odd, bets[0].amount, amount);
      } else {
        MergeEffect(bets[1..], item, odd, amount, i);
        assert m[1..] == Merge(bets[1..], item, odd, amount);
      }
    }
  }

  /** What the entry that a bet would be added to holds so far. */
  function Held(bets: seq<Bet>, item: nat, odd: nat): nat {
    if bets == [] then 0
    else if bets[0].item == item && bets[0].odd == odd then bets[0].amount
    else Held(bets[1..], item, odd)
  }

  /** Whether the hundredths cut off from both stakes make up a whole unit. */
  function Carry(odd: nat, m: nat, a: nat): nat {
    if Times(odd, m) % 100 + Times(odd, a) % 100 >= 100 then 1 else 0
  }

  lemma WorthCarry(odd: nat, m: nat, a: nat)
    ensures Worth(odd, m + a) == Worth(odd, m) + Worth(odd, a) + Carry(odd, m, a)
  {
    assert odd * (m + a) == odd * m + odd * a;
  }

  /** A bet adds its own worth to what is owed, and one unit more exactly if it carries. */
  lemma {:induction false} MergeOwes(bets: seq<Bet>, item: nat, odd: nat, amount: nat, i: nat)
    ensures Owing(Merge(bets, item, odd, amount), i)
            == Owing(bets, i) + if i == item then Worth(odd, amount) + Carry(odd, Held(bets, item, odd), amount) else 0
  {
    hide Worth, Owing, Carry;
    var m := Merge(bets, item, odd, amount);
    MergeEffect(bets, item, odd, amount, i);
    HeadFirst(m, i);
    if bets == [] {
      assert m[1..] == [];
      Bare(i);
      WorthCarry(odd, 0, amount);
      NoWorth(odd);
    } else {
      HeadFirst(bets, i);
      if bets[0].item == item && bets[0].odd == odd {
        assert m[1..] == bets[1..];
        WorthCarry(odd, bets[0].amount, amount);
      } else {
        MergeOwes(bets[1..], item, odd, amount, i);
        assert m[1..] == Merge(bets[1..], item, odd, amount);
      }
    }
  }

  lemma NoWorth(odd: nat)
    ensures Worth(odd, 0) == 0
  {
  }

  lemma Bare(i: nat)
    ensures Staked([], i) == 0 && Owing([], i) == 0 && Entries([], i) == 0
  {
  }

  lemma {:induction false} SetOddsKeeps(items: seq<Item>, odds: seq<(nat, nat)>)
    requires SetOdds(items, odds).Ok?
    ensures var r := SetOdds(items, odds).value;
            && |r| == |items|
            && (forall i | 0 <= i < |items| :: r[i] == items[i].(odd := r[i].odd))
            && (forall i | 0 <= i < |items| :: r[i].odd == items[i].odd || r[i].odd > 100)
  {
    if odds == [] {
    } else {
      SetOddsKeeps(items, odds[..|odds| - 1]);
      var before, last := SetOdds(items, odds[..|odds| - 1]).value, odds[|odds| - 1];
      assert SetOdds(items, odds) == Ok(before[last.0 := before[last.0].(odd := last.1)]);
    }
  }

  lemma WagerBooks(s: State, who: Account, item: nat, amount: nat, i: nat)
    requires Books(s, i) && GoBet(s, who, item, amount).Ok?
    ensures Books(GoBet(s, who, item, amount).value, i)
  {
    hide Merge, Worth, Staked, Owing, Entries, Pay, Narrow;
    var s' := GoBet(s, who, item, amount).value;
    var r, r' := RecordOf(s, who), s'.records[who];
    MergeEffect(r.bets, item, s.items[item].odd, amount, i);
    SumPut(s.records, who, r', Stakes(i));
    SumPut(s.records, who, r', Owings(i));
    SumPut(s.records, who, r', EntryCounts(i));
    Bare(i);
  }

  lemma ClaimBooks(s: State, who: Account, i: nat)
    requires Books(s, i) && Claim(s, who).Ok?
    ensures Books(Claim(s, who).value, i)
  {
    hide Worth, Staked, Owing, Entries, Pay, Payable;
    var r' := RecordOf(s, who).(claimed := true);
    assert who in s.records;
    SumPut(s.records, who, r', Stakes(i));
    SumPut(s.records, who, r', Owings(i));
    SumPut(s.records, who, r', EntryCounts(i));
  }

  lemma StepBooks(s: State, op: Op, i: nat)
    requires Books(s, i)
    ensures Books(Step(s, op), i)
  {
    hide GoBet, Claim, Pay, SetOdds;
    match op
    case Wagering(who, item, amount) =>
      if Call(s, op).Ok? {
        WagerBooks(s, who, item, amount, i);
      }
    case Claiming(who) =>
      if Call(s, op).Ok? {
        ClaimBooks(s, who, i);
      }
    case Repricing(who, odds) =>
      if Call(s, op).Ok? {
        SetOddsKeeps(s.items, odds);
      }
    case _ =>
  }

  /** Over any mix of bets, odds updates and claims the books of every item are in order. */
  lemma {:induction false} RunBooks(s: State, ops: seq<Op>, i: nat)
    requires Created(s)
    ensures Books(Run(s, ops), i)
  {
    hide Step, Books;
    if ops == [] {
      CreatedBooks(s, i);
    } else {
      RunBooks(s, ops[..|ops| - 1], i);
      StepBooks(Run(s, ops[..|ops| - 1]), ops[|ops| - 1], i);
    }
  }

  lemma CreatedBooks(s: State, i: nat)
    requires Created(s)
    ensures Books(s, i)
  {
    SumZero(s.records, Stakes(i));
    SumZero(s.records, Owings(i));
    SumZero(s.records, EntryCounts(i));
  }

  lemma {:induction false} EntriesCover(m: map<Account, Record>, i: nat)
    requires Sum(m, EntryCounts(i)) == 0
    ensures Sum(m, Owings(i)) == 0
    decreases |m|
  {
    forall a | a in m
      ensures OwedTo(i, a, m[a]) == 0
    {
      SumMember(m, a, EntryCounts(i));
      NoEntries(m[a].bets, i);
    }
    SumZero(m, Owings(i));
  }

  lemma {:induction false} NoEntries(bets: seq<Bet>, i: nat)
    requires Entries(bets, i) == 0
    ensures Owing(bets, i) == 0
  {
    if bets == [] {
    } else {
      NoEntries(bets[..|bets| - 1], i);
    }
  }

  /** What would be owed lies between the promised compensation and less than one unit per bet above it. */
  lemma LiabilityBounds(s: State, ops: seq<Op>, i: nat)
    requires Created(s) && i < |Run(s, ops).items|
    ensures var s' := Run(s, ops);
            && s'.items[i].comp <= Owed(s', i)
            && (Owed(s', i) < s'.items[i].comp + s'.items[i].accounts || Owed(s', i) == s'.items[i].comp)
  {
    hide Run, Created;
    RunBooks(s, ops, i);
    if Sum(Run(s, ops).records, EntryCounts(i)) == 0 {
      EntriesCover(Run(s, ops).records, i);
    }
  }

  /** Whether a call is an accepted bet on `i` that carries a unit. */
  function Carries(s: State, op: Op, i: nat): nat {
    if op.Wagering? && op.item == i && Regular(s, op) && Call(s, op).Ok? then
      Carry(s.items[i].odd, Held(RecordOf(s, op.who).bets, i, s.items[i].odd), op.amount)
    else 0
  }

  /** The bets of a run on `i` that carry a unit. */
  function Carried(s: State, ops: seq<Op>, i: nat): nat {
    if ops == [] then 0
    else Carried(s, ops[..|ops| - 1], i) + Carries(Run(s, ops[..|ops| - 1]), ops[|ops| - 1], i)
  }

  /** What would be owed is what has been promised and `extra` units. */
  ghost predicate OwedIs(s: State, i: nat, extra: nat) {
    i < |s.items| ==> Owed(s, i) == s.items[i].comp + extra
  }

  lemma WagerOwes(s: State, who: Account, item: nat, amount: nat, i: nat, extra: nat)
    requires OwedIs(s, i, extra) && GoBet(s, who, item, amount).Ok? && who != s.pledge
    ensures OwedIs(GoBet(s, who, item, amount).value, i, extra + Carries(s, Wagering(who, item, amount), i))
  {
    hide Merge, Worth, Owing, Pay, Narrow, Carry, Held;
    var s' := GoBet(s, who, item, amount).value;
    var r, r' := RecordOf(s, who), s'.records[who];
    MergeOwes(r.bets, item, s.items[item].odd, amount, i);
    SumPut(s.records, who, r', Owings(i));
    Bare(i);
  }

  lemma ClaimOwes(s: State, who: Account, i: nat)
    requires Claim(s, who).Ok?
    ensures Owed(Claim(s, who).value, i) == Owed(s, i) && Claim(s, who).value.items == s.items
  {
    hide Owing, Pay, Payable;
    assert who in s.records;
    SumPut(s.records, who, RecordOf(s, who).(claimed := true), Owings(i));
  }

  lemma StepOwes(s: State, op: Op, i: nat, extra: nat)
    requires OwedIs(s, i, extra)
    ensures OwedIs(Step(s, op), i, extra + Carries(s, op, i))
  {
    hide GoBet, Claim, Pay, SetOdds, Carry, Held;
    match op
    case Wagering(who, item, amount) =>
      if Regular(s, op) && Call(s, op).Ok? {
        WagerOwes(s, who, item, amount, i, extra);
      }
    case Claiming(who) =>
      if Call(s, op).Ok? {
        ClaimOwes(s, who, i);
      }
    case Repricing(who, odds) =>
      if Call(s, op).Ok? {
        SetOddsKeeps(s.items, odds);
      }
    case _ =>
  }

  /** Over every run what would be owed exceeds what was promised by exactly the number of bets that carried a unit. */
  lemma {:induction false} RunOwes(s: State, ops: seq<Op>, i: nat)
    requires Created(s)
    ensures OwedIs(Run(s, ops), i, Carried(s, ops, i))
  {
    hide Step, Carries, OwedIs;
    if ops == [] {
      NothingOwed(s, i);
    } else {
      RunOwes(s, ops[..|ops| - 1], i);
      StepOwes(Run(s, ops[..|ops| - 1]), ops[|ops| - 1], i, Carried(s, ops[..|ops| - 1], i));
    }
  }

  lemma NothingOwed(s: State, i: nat)
    requires Created(s)
    ensures OwedIs(s, i, 0)
  {
    SumZero(s.records, Owings(i));
  }

  // --- the pledge ---

  /** Until the battle is finalized the pledge covers what has been promised on any item. */
  ghost predicate Pledged(s: State) {
    && s.creator != s.pledge
    && (s.outcome == Pending ==> forall i | 0 <= i < |s.items| :: s.items[i].comp <= FreeOf(s.purse, s.pledge))
  }

  lemma StepPledged(s: State, op: Op)
    requires Pledged(s)
    ensures Pledged(Step(s, op))
  {
    hide Pay, SetOdds, Merge, Worth, Narrow, Payable;
    match op
    case Wagering(who, item, amount) =>
      if Call(s, op).Ok? {
        PayMoves(s.purse, who, s.creator, amount, s.pledge);
      }
    case Repricing(who, odds) =>
      if Call(s, op).Ok? {
        SetOddsKeeps(s.items, odds);
      }
    case Appending(who, amount) =>
      if Call(s, op).Ok? {
        PayMoves(s.purse, who, s.pledge, amount, s.pledge);
      }
    case _ =>
  }

  lemma {:induction false} RunPledged(s: State, ops: seq<Op>)
    requires Created(s)
    ensures Pledged(Run(s, ops))
  {
    hide Step;
    if ops == [] {
    } else {
      RunPledged(s, ops[..|ops| - 1]);
      StepPledged(Run(s, ops[..|ops| - 1]), ops[|ops| - 1]);
    }
  }

  // --- paying out ---

  function Due(i: nat, a: Account, r: Record): nat {
    if r.claimed then 0 else Owing(r.bets, i)
  }

  function Dues(i: nat): (Account, Record) -> nat { (a: Account, r: Record) => Due(i, a, r) }

  /** What is still to be claimed on item `i`. */
  ghost function Outstanding(s: State, i: nat): nat {
    Sum(s.records, Dues(i))
  }

  /** A claim pays what is owed and takes exactly that out of what is outstanding. */
  lemma ClaimSettles(s: State, who: Account)
    requires s.creator != s.pledge && who != s.pledge && Claim(s, who).Ok?
    ensures var s', hit := Claim(s, who).value, s.outcome.hit.value;
            var v := Owing(RecordOf(s, who).bets, hit);
            && Outstanding(s', hit) + v == Outstanding(s, hit)
            && FreeOf(s'.purse, s.pledge) + v == FreeOf(s.purse, s.pledge)
            && FreeOf(s'.purse, who) == FreeOf(s.purse, who) + v
            && Claim(s', who).Err?
  {
    hide Worth, Owing, Pay, Payable;
    var hit, r := s.outcome.hit.value, RecordOf(s, who);
    assert who in s.records;
    SumPut(s.records, who, r.(claimed := true), Dues(hit));
    PayMoves(s.purse, s.pledge, who, Owing(r.bets, hit), s.pledge);
    PayMoves(s.purse, s.pledge, who, Owing(r.bets, hit), who);
  }

  /** The pledge can pay everybody exactly while it holds what is outstanding. */
  ghost predicate Solvent(s: State, hit: nat) {
    Outstanding(s, hit) <= FreeOf(s.purse, s.pledge)
  }

  /** With a solvent pledge no claim fails for lack of funds, and the pledge stays solvent. */
  lemma SolventClaims(s: State, who: Account, hit: nat)
    requires s.creator != s.pledge && who != s.pledge && s.outcome == Final(Some(hit)) && hit < |s.items|
    requires Solvent(s, hit)
    ensures Claim(s, who).Err? ==> Claim(s, who).error != Payment(InsufficientBalance)
    ensures Claim(s, who).Ok? ==> Solvent(Claim(s, who).value, hit)
  {
    hide Owing, Payable;
    var r := RecordOf(s, who);
    if !r.claimed && r.bets != [] {
      SumMember(s.records, who, Dues(hit));
    }
    if Claim(s, who).Ok? {
      ClaimSettles(s, who);
    }
  }

  /** An insolvent pledge stays insolvent, so someone is left unpaid. */
  lemma InsolventClaims(s: State, who: Account, hit: nat)
    requires s.creator != s.pledge && who != s.pledge && s.outcome == Final(Some(hit)) && hit < |s.items|
    requires !Solvent(s, hit) && Claim(s, who).Ok?
    ensures !Solvent(Claim(s, who).value, hit)
  {
    ClaimSettles(s, who);
  }

  /** What has been claimed is what is owed but no longer outstanding. */
  lemma OutstandingOwed(m: map<Account, Record>, i: nat)
    ensures Sum(m, Dues(i)) <= Sum(m, Owings(i))
  {
    hide Owing;
    SumBound(m, Dues(i), 1, Owings(i), 1, 0);
  }

  ghost function Claimed(s: State, i: nat): nat {
    OutstandingOwed(s.records, i);
    Owed(s, i) - Outstanding(s, i)
  }

  /** What the pledge holds and what it has paid to claimers is the recorded total. */
  ghost predicate Intact(s: State, hit: nat) {
    FreeOf(s.purse, s.pledge) + Claimed(s, hit) == s.totalPledge
  }

  /** Claims keep a pledge intact; one that is intact before the first claim holds what is recorded. */
  lemma ClaimIntact(s: State, who: Account, hit: nat)
    requires s.creator != s.pledge && who != s.pledge && s.outcome == Final(Some(hit)) && hit < |s.items|
    requires Claim(s, who).Ok?
    ensures Intact(Claim(s, who).value, hit) <==> Intact(s, hit)
  {
    hide Owing, Payable, Pay;
    ClaimSettles(s, who);
    ClaimOwes(s, who, hit);
  }

  /** After the creator has taken back the remainder, be it before, between or after claims, everybody can still be paid
      if and only if what is outstanding fits into the promised compensation less what the recorded total overstates;
      for an intact pledge, exactly if what would be owed is what was promised. */
  lemma RevokeSolvency(s: State, hit: nat)
    requires s.creator != s.pledge && s.outcome == Final(Some(hit)) && hit < |s.items| && Books(s, hit)
    requires s.totalPledge > s.items[hit].comp && RevokeRemain(s, s.creator).Ok?
    ensures var s', free := RevokeRemain(s, s.creator).value, FreeOf(s.purse, s.pledge);
            && FreeOf(s'.purse, s.pledge) == free - (s.totalPledge - s.items[hit].comp)
            && (Solvent(s', hit) <==> Outstanding(s, hit) + s.totalPledge <= s.items[hit].comp + free)
            && (Intact(s, hit) ==> (Solvent(s', hit) <==> Owed(s, hit) == s.items[hit].comp))
  {
    hide Pay;
    OutstandingOwed(s.records, hit);
    PayMoves(s.purse, s.pledge, s.creator, s.totalPledge - s.items[hit].comp, s.pledge);
  }

  /** For an intact pledge at the end of any run. */
  lemma RevokeLeavesEnough(s: State, ops: seq<Op>, hit: nat)
    requires Created(s) && Run(s, ops).outcome == Final(Some(hit)) && hit < |Run(s, ops).items|
    requires Run(s, ops).totalPledge > Run(s, ops).items[hit].comp && Intact(Run(s, ops), hit)
    requires RevokeRemain(Run(s, ops), Run(s, ops).creator).Ok?
    ensures Solvent(RevokeRemain(Run(s, ops), Run(s, ops).creator).value, hit) <==> Carried(s, ops, hit) == 0
  {
    hide Run, Carried, Solvent, Intact, RevokeRemain, Books;
    RunBooks(s, ops, hit);
    RunPledged(s, ops);
    RunOwes(s, ops, hit);
    RevokeSolvency(Run(s, ops), hit);
  }

  /** Two bets of fifty at 101 percent by one account: each promises fifty, together they are owed 101. */
  predicate Rounding(s: State, who: Account) {
    && Created(s) && s.open && |s.items| == 1 && s.items[0].odd == 101 && s.minBet <= 50
    && who != s.pledge && who != s.creator
    && FreeOf(s.purse, s.pledge) == 100 && FreeOf(s.purse, who) == 100 && FreeOf(s.purse, s.creator) == 0
  }

  lemma OwedExceedsPledge(s: State, who: Account)
    requires Rounding(s, who)
    ensures var s1 := Step(s, Wagering(who, 0, 50));
            var s2 := Step(s1, Wagering(who, 0, 50));
            && s2.items[0].comp == 100 == FreeOf(s2.purse, s.pledge)
            && Owing(RecordOf(s2, who).bets, 0) == 101
            && Claim(s2.(outcome := Final(Some(0))), who) == Err(Payment(InsufficientBalance))
  {
    var s1 := Step(s, Wagering(who, 0, 50));
    assert RecordOf(s1, who).bets == [Bet(0, 101, 50)] && s1.items[0].comp == 50;
    var s2 := Step(s1, Wagering(who, 0, 50));
    var bets := RecordOf(s2, who).bets;
    assert bets == [Bet(0, 101, 100)];
    assert Owing(bets, 0) == Owing([], 0) + Worth(101, 100) by {
      assert bets[..0] == [];
    }
  }
}
