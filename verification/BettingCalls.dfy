/** Which bets, odds, pledges and claims go through, and who pays whom. */
module BettingCalls {
  import opened Arith
  import opened Wrappers
  import opened Ledgers
  import opened Purses
  import opened Betting

  /** What a stake is worth at its odds in percent: whole units. */
  lemma WorthIs(odd: nat, amount: nat)
    ensures 100 * Betting.Worth(odd, amount) <= odd * amount < 100 * Betting.Worth(odd, amount) + 100
  {
  }

  // --- bets ---

  /** What the entries on item `i` at the given odds hold. */
  function Placed(bets: seq<Bet>, i: nat, odd: nat): nat {
    if bets == [] then 0
    else Placed(bets[1..], i, odd) + if bets[0].item == i && bets[0].odd == odd then bets[0].amount else 0
  }

  /** A bet adds to what is placed on its item at its odds, and to nothing else, in at most one new entry. */
  lemma {:induction false} MergePlaces(bets: seq<Bet>, item: nat, odd: nat, amount: nat, i: nat, o: nat)
    ensures var m := Merge(bets, item, odd, amount);
            && Placed(m, i, o) == Placed(bets, i, o) + (if (i, o) == (item, odd) then amount else 0)
            && |bets| <= |m| <= |bets| + 1
            && (|m| == |bets| <==> exists b | b in bets :: b.item == item && b.odd == odd)
  {
    var m := Merge(bets, item, odd, amount);
    if bets == [] {
      assert m[1..] == [];
    } else if bets[0].item == item && bets[0].odd == odd {
      assert m[1..] == bets[1..];
      assert bets[0] in bets;
    } else {
      MergePlaces(bets[1..], item, odd, amount, i, o);
      assert m[1..] == Merge(bets[1..], item, odd, amount);
      assert forall b | b in bets[1..] :: b in bets;
    }
  }

  /** An accepted bet on an open betting reaches the minimum, costs the bettor its amount, which goes to the
      creator, and nobody else anything; it is recorded in full, and raises the stakes of its item by the amount,
      the promised compensation by its worth, and the number of bets by one. */
  lemma BetCall(s: State, who: Account, i: nat, amount: nat)
    requires GoBet(s, who, i, amount).Ok?
    ensures s.open && i < |s.items| && s.minBet <= amount
    ensures var s', was := GoBet(s, who, i, amount).value, s.items[i];
            var w := s'.items[i].comp - was.comp;
            && s' == s.(purse := s'.purse, records := s'.records, items := s'.items)
            && Moves(s.purse, s'.purse, who, s.creator, amount)
            && 100 * w <= was.odd * amount < 100 * w + 100
            && was.comp + w <= FreeOf(s.purse, s.pledge)
            && s'.items == s.items[i := Item(was.odd, was.comp + w, was.buyIn + amount, was.accounts + 1)]
            && (forall a: Account | a != who :: RecordOf(s', a) == RecordOf(s, a))
            && who in s'.records && s'.records[who].claimed == (who in s.records && s.records[who].claimed)
            && (forall j: nat, o: nat ::
                  Placed(RecordOf(s', who).bets, j, o)
                  == Placed(RecordOf(s, who).bets, j, o) + if j == i && o == was.odd then amount else 0)
  {
    hide Merge, Narrow, Pay, Placed, FreeOf;
    PayCases(s.purse, who, s.creator, amount);
    WorthIs(s.items[i].odd, amount);
    hide Betting.Worth;
    forall j: nat, o: nat
      ensures Placed(Merge(RecordOf(s, who).bets, i, s.items[i].odd, amount), j, o)
              == Placed(RecordOf(s, who).bets, j, o) + if j == i && o == s.items[i].odd then amount else 0
    {
      MergePlaces(RecordOf(s, who).bets, i, s.items[i].odd, amount, j, o);
    }
  }

  /** The entries stay narrow exactly if all were and the one that grows still is. */
  lemma {:induction false} MergeNarrow(bets: seq<Bet>, item: nat, odd: nat, amount: nat)
    ensures Betting.Narrow(Merge(bets, item, odd, amount)) <==>
            (forall b | b in bets :: b.amount <= U128_MAX) && Held(bets, item, odd) + amount <= U128_MAX
  {
    var m := Merge(bets, item, odd, amount);
    if bets == [] {
      assert m[0] in m;
    } else if bets[0].item == item && bets[0].odd == odd {
      assert m[0] in m;
      assert forall b | b in m :: b == m[0] || b in bets[1..];
    } else {
      var rest := Merge(bets[1..], item, odd, amount);
      MergeNarrow(bets[1..], item, odd, amount);
      assert m == [bets[0]] + rest && bets == [bets[0]] + bets[1..];
      assert bets[0] in bets && forall b | b in rest :: b in m;
    }
  }

  /** Which check a refused bet has failed; the pledge must cover all that is promised on the item. */
  lemma BetRefused(s: State, who: Account, i: nat, amount: nat)
    ensures var r := GoBet(s, who, i, amount);
            if amount < s.minBet then r == Err(BettingAmountTooSmall)
            else if |s.items| <= i then r == Err(SelectIndexOverflow)
            else if !s.open then r == Err(BettingOverTime)
            else
              var it := s.items[i];
              var promised := it.comp + it.odd * amount / 100;
              var pays := amount > 0 && who != s.creator;
              if it.odd * amount > U128_MAX || promised > U128_MAX then r == Err(Arithmetic)
              else if promised > FreeOf(s.purse, s.pledge) then r == Err(BettingAmountOverflow)
              else if pays && FreeOf(s.purse, who) < amount then r == Err(Payment(InsufficientBalance))
              else if pays && FreeOf(s.purse, s.creator) + amount > U128_MAX then r == Err(Payment(PayError.Overflow))
              else if Held(RecordOf(s, who).bets, i, it.odd) + amount > U128_MAX || it.accounts >= U32_MAX
                      || it.buyIn + amount > U128_MAX || exists b | b in RecordOf(s, who).bets :: b.amount > U128_MAX
              then r == Err(Arithmetic)
              else r.Ok?
  {
    hide Merge, Betting.Narrow, FreeOf, Held;
    if i < |s.items| {
      MergeNarrow(RecordOf(s, who).bets, i, s.items[i].odd, amount);
    }
  }

  // --- odds ---

  /** The last of the new odds for item `i`, or its old ones. */
  function OddOf(was: nat, odds: seq<(nat, nat)>, i: nat): nat {
    if odds == [] then was
    else if odds[|odds| - 1].0 == i then odds[|odds| - 1].1
    else OddOf(was, odds[..|odds| - 1], i)
  }

  lemma {:induction false} OddsSet(items: seq<Item>, odds: seq<(nat, nat)>)
    ensures SetOdds(items, odds).Ok? <==> forall k | 0 <= k < |odds| :: odds[k].0 < |items| && odds[k].1 > 100
    ensures SetOdds(items, odds).Ok? ==>
              var now := SetOdds(items, odds).value;
              && |now| == |items|
              && forall i | 0 <= i < |items| :: now[i] == items[i].(odd := OddOf(items[i].odd, odds, i))
    ensures SetOdds(items, odds).Err? ==> SetOdds(items, odds).error in {SelectIndexOverflow, BettingParamsError}
  {
    if odds == [] {
    } else {
      var before, last := odds[..|odds| - 1], odds[|odds| - 1];
      OddsSet(items, before);
      assert odds == before + [last];
    }
  }

  /** Only the creator sets odds, each above one hundred percent and for an existing item, all of them or none; the last
      ones given for an item count. */
  lemma OddsCall(s: State, who: Account, odds: seq<(nat, nat)>)
    ensures var r := UpdateOdds(s, who, odds);
            && (r == Err(PermissonDeny) <==> who != s.creator)
            && (r.Ok? <==> who == s.creator && forall k | 0 <= k < |odds| :: odds[k].0 < |s.items| && odds[k].1 > 100)
            && (r.Ok? ==>
                  && r.value == s.(items := r.value.items) && |r.value.items| == |s.items|
                  && forall i | 0 <= i < |s.items| ::
                       r.value.items[i] == s.items[i].(odd := OddOf(s.items[i].odd, odds, i)))
  {
    hide SetOdds;
    OddsSet(s.items, odds);
  }

  // --- the pledge ---

  /** Anybody can add to the pledge until the battle is finalized; the recorded total is then what the pledge holds. */
  lemma AppendCall(s: State, who: Account, amount: nat)
    ensures var r := AppendPledge(s, who, amount);
            if amount == 0 then r == Err(PledgeAmountZero)
            else if s.outcome.Final? then r == Err(BattleStatusError)
            else if who != s.pledge && FreeOf(s.purse, who) < amount then r == Err(Payment(InsufficientBalance))
            else if who != s.pledge && FreeOf(s.purse, s.pledge) + amount > U128_MAX then
              r == Err(Payment(PayError.Overflow))
            else
              && r.Ok? && r.value == s.(purse := r.value.purse, totalPledge := FreeOf(r.value.purse, s.pledge))
              && Moves(s.purse, r.value.purse, who, s.pledge, amount)
  {
    hide Pay, FreeOf;
    PayCases(s.purse, who, s.pledge, amount);
  }

  /** The creator takes the whole pledge back while nothing is promised on any item. */
  lemma DropCall(s: State, who: Account)
    ensures var r, held := Drop(s, who), FreeOf(s.purse, s.pledge);
            if who != s.creator then r == Err(PermissonDeny)
            else if exists i | 0 <= i < |s.items| :: s.items[i].comp > 0 then r == Err(BettingError)
            else if s.creator != s.pledge && held > 0 && FreeOf(s.purse, s.creator) + held > U128_MAX then
              r == Err(Payment(PayError.Overflow))
            else
              && r.Ok? && r.value == s.(purse := r.value.purse, totalPledge := 0)
              && Moves(s.purse, r.value.purse, s.pledge, s.creator, held)
  {
    hide Pay, FreeOf;
    PayCases(s.purse, s.pledge, s.creator, FreeOf(s.purse, s.pledge));
  }

  /** The item a finalized betting has hit, if it is one of its items. */
  predicate Hits(s: State, hit: nat) {
    s.outcome == Final(Some(hit)) && hit < |s.items|
  }

  /** What the entries on item `i` have won, each rounded down. */
  function Won(bets: seq<Bet>, i: nat): nat {
    if bets == [] then 0
    else (if bets[0].item == i then bets[0].odd * bets[0].amount / 100 else 0) + Won(bets[1..], i)
  }

  lemma {:induction false} WonIs(bets: seq<Bet>, i: nat)
    ensures Owing(bets, i) == Won(bets, i)
  {
    hide Owing;
    if bets == [] {
      Bare(i);
    } else {
      HeadFirst(bets, i);
      WonIs(bets[1..], i);
    }
  }

  /** A record is paid once, out of the pledge: what its entries on the hit item have won. */
  lemma BetClaimCall(s: State, who: Account, hit: nat)
    requires Hits(s, hit)
    ensures var r, rec := Claim(s, who), RecordOf(s, who);
            var v := Won(rec.bets, hit);
            if rec.claimed || rec.bets == [] then r == Err(HaveNoBonus)
            else if v > U128_MAX || exists b | b in rec.bets :: b.item == hit && b.odd * b.amount > U128_MAX then
              r == Err(Arithmetic)
            else if v > 0 && who != s.pledge && FreeOf(s.purse, s.pledge) < v then
              r == Err(Payment(InsufficientBalance))
            else if v > 0 && who != s.pledge && FreeOf(s.purse, who) + v > U128_MAX then
              r == Err(Payment(PayError.Overflow))
            else
              && r.Ok? && r.value == s.(purse := r.value.purse, records := s.records[who := rec.(claimed := true)])
              && Moves(s.purse, r.value.purse, s.pledge, who, v)
  {
    hide Pay, FreeOf, Owing, Won;
    WonIs(RecordOf(s, who).bets, hit);
    PayCases(s.purse, s.pledge, who, Won(RecordOf(s, who).bets, hit));
  }

  /** Before there is a hit nobody with a bet is paid, and nothing is taken back. */
  lemma NoHit(s: State, who: Account)
    requires forall hit: nat :: !Hits(s, hit)
    ensures Claim(s, who).Err? && RevokeRemain(s, who).Err?
    ensures !RecordOf(s, who).claimed && RecordOf(s, who).bets != [] ==>
              Claim(s, who).error == if s.outcome.Pending? then BattleStatusError else BettingError
  {
    hide Pay, Owing, Betting.Payable;
    if s.outcome.Final? && s.outcome.hit.Some? {
      assert !Hits(s, s.outcome.hit.value);
    }
  }

  /** The creator takes back what the recorded pledge holds beyond the promise on the hit item. */
  lemma RevokeCall(s: State, who: Account, hit: nat)
    requires Hits(s, hit)
    ensures var r, rest := RevokeRemain(s, who), s.totalPledge - s.items[hit].comp;
            if who != s.creator then r == Err(PermissonDeny)
            else if rest <= 0 then r == Ok(s)
            else if s.creator != s.pledge && FreeOf(s.purse, s.pledge) < rest then
              r == Err(Payment(InsufficientBalance))
            else if s.creator != s.pledge && FreeOf(s.purse, s.creator) + rest > U128_MAX then
              r == Err(Payment(PayError.Overflow))
            else
              && r.Ok? && r.value == s.(purse := r.value.purse)
              && Moves(s.purse, r.value.purse, s.pledge, s.creator, rest)
  {
    hide Pay, FreeOf;
    if s.totalPledge > s.items[hit].comp {
      PayCases(s.purse, s.pledge, s.creator, s.totalPledge - s.items[hit].comp);
    }
  }

  // --- what the creator receives ---

  /** All stakes of a betting. */
  function Bought(items: seq<Item>): nat {
    if items == [] then 0 else Bought(items[..|items| - 1]) + items[|items| - 1].buyIn
  }

  lemma {:induction false} BoughtPut(items: seq<Item>, i: nat, it: Item)
    requires i < |items|
    ensures Bought(items[i := it]) + items[i].buyIn == Bought(items) + it.buyIn
  {
    var now := items[i := it];
    if i == |items| - 1 {
      assert now[..i] == items[..i];
    } else {
      BoughtPut(items[..|items| - 1], i, it);
      assert now[..|items| - 1] == items[..|items| - 1][i := it];
    }
  }

  lemma {:induction false} BoughtSame(items: seq<Item>, now: seq<Item>)
    requires |now| == |items| && forall i | 0 <= i < |items| :: now[i].buyIn == items[i].buyIn
    ensures Bought(now) == Bought(items)
  {
    if items == [] {
    } else {
      BoughtSame(items[..|items| - 1], now[..|items| - 1]);
    }
  }

  /** The creator neither pays nor is paid but through bets of others. */
  predicate Outside(s: State, op: Op) {
    match op
    case Wagering(who, _, _) => who != s.creator
    case Appending(who, _) => who != s.creator
    case Claiming(who) => who != s.creator
    case Dropping(_) => false
    case Revoking(_) => false
    case Elsewhere(_) => false
    case _ => true
  }

  lemma StepReceives(s: State, op: Op)
    requires s.creator != s.pledge && Outside(s, op)
    ensures var s' := Step(s, op);
            && s'.creator == s.creator && s'.pledge == s.pledge
            && FreeOf(s'.purse, s.creator) + Bought(s.items) == FreeOf(s.purse, s.creator) + Bought(s'.items)
  {
    hide GoBet, AppendPledge, Claim, SetOdds, FreeOf, Bought;
    match op
    case Wagering(who, i, amount) =>
      if Regular(s, op) && GoBet(s, who, i, amount).Ok? {
        BetCall(s, who, i, amount);
        BoughtPut(s.items, i, GoBet(s, who, i, amount).value.items[i]);
      }
    case Repricing(who, odds) =>
      if UpdateOdds(s, who, odds).Ok? {
        OddsCall(s, who, odds);
        BoughtSame(s.items, UpdateOdds(s, who, odds).value.items);
      }
    case Appending(who, amount) => AppendCall(s, who, amount);
    case Claiming(who) => if Claim(s, who).Ok? { ClaimSpends(s, who); }
    case _ =>
  }

  lemma ClaimSpends(s: State, who: Account)
    requires Claim(s, who).Ok?
    ensures var s' := Claim(s, who).value;
            && s' == s.(purse := s'.purse, records := s'.records)
            && forall a: Account | a != who && a != s.pledge :: FreeOf(s'.purse, a) == FreeOf(s.purse, a)
  {
    hide Won, FreeOf, Claim;
    ClaimHits(s, who);
    BetClaimCall(s, who, s.outcome.hit.value);
  }

  lemma ClaimHits(s: State, who: Account)
    requires Claim(s, who).Ok?
    ensures s.outcome.Final? && s.outcome.hit.Some? && Hits(s, s.outcome.hit.value)
  {
    hide Owing, Betting.Payable, Pay;
  }

  /** Over a run in which nothing else is paid to or by the creator, the creator has received exactly the stakes of all
      items. */
  lemma {:induction false} CreatorReceives(s: State, ops: seq<Op>)
    requires Created(s) && forall i | 0 <= i < |ops| :: Outside(s, ops[i])
    ensures var s' := Run(s, ops);
            && s'.creator == s.creator && s'.pledge == s.pledge
            && FreeOf(s'.purse, s.creator) == FreeOf(s.purse, s.creator) + Bought(s'.items)
  {
    hide Step;
    if ops == [] {
      NothingBought(s.items);
    } else {
      var before, op := ops[..|ops| - 1], ops[|ops| - 1];
      CreatorReceives(s, before);
      StepReceives(Run(s, before), op);
    }
  }

  lemma {:induction false} NothingBought(items: seq<Item>)
    requires forall i | 0 <= i < |items| :: items[i].buyIn == 0
    ensures Bought(items) == 0
  {
    if items == [] {
    } else {
      NothingBought(items[..|items| - 1]);
    }
  }
}
