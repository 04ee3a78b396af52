/** A betting as an object: stakes merged into records, odds and totals updated in place. */
module BettingPallet {
  import opened Arith
  import opened Wrappers
  import opened Ledgers
  import opened Purses
  import B = Betting

  type Outcome = Result<Done, B.Error>

  /** Going on from the middle of a record. */
  lemma {:induction false} MergeFrom(bets: seq<B.Bet>, k: nat, item: nat, odd: nat, amount: nat)
    requires k <= |bets| && forall j | 0 <= j < k :: bets[j].item != item || bets[j].odd != odd
    ensures B.Merge(bets, item, odd, amount) == bets[..k] + B.Merge(bets[k..], item, odd, amount)
  {
    if k > 0 {
      MergeFrom(bets[1..], k - 1, item, odd, amount);
      assert bets[1..][..k - 1] == bets[1..k] && bets[1..][k - 1..] == bets[k..];
      assert bets[..k] == [bets[0]] + bets[1..k];
    } else {
      assert bets[..0] == [] && bets[0..] == bets;
    }
  }

  lemma LastBet(bets: seq<B.Bet>, k: nat, i: nat)
    requires k < |bets|
    ensures B.Owing(bets[..k + 1], i)
            == B.Owing(bets[..k], i) + if bets[k].item == i then B.Worth(bets[k].odd, bets[k].amount) else 0
  {
    assert bets[..k + 1][..k] == bets[..k];
  }

  lemma {:induction false} OwingGrows(bets: seq<B.Bet>, k: nat, i: nat)
    requires k <= |bets|
    ensures B.Owing(bets[..k], i) <= B.Owing(bets, i)
    decreases |bets| - k
  {
    if k < |bets| {
      LastBet(bets, k, i);
      OwingGrows(bets, k + 1, i);
    } else {
      assert bets[..k] == bets;
    }
  }

  lemma {:induction false} OddsStop(items: seq<B.Item>, odds: seq<(nat, nat)>, k: nat)
    requires k <= |odds| && B.SetOdds(items, odds[..k]).Err?
    ensures B.SetOdds(items, odds) == B.SetOdds(items, odds[..k])
  {
    if k == |odds| {
      assert odds[..k] == odds;
    } else {
      assert odds[..|odds| - 1][..k] == odds[..k];
      OddsStop(items, odds[..|odds| - 1], k);
    }
  }

  class Pallet {
    const creator: Account
    const pledge: Account
    const minBet: nat
    var open: bool
    var outcome: B.Outcome
    var items: seq<B.Item>
    var records: map<Account, B.Record>
    var totalPledge: nat
    var purse: Purse

    function Abs(): B.State
      reads this
    {
      B.State(creator, pledge, minBet, open, outcome, items, records, totalPledge, purse)
    }

    constructor (s: B.State)
      requires B.Created(s)
      ensures Abs() == s
    {
      creator, pledge, minBet, open, outcome := s.creator, s.pledge, s.minBet, s.open, s.outcome;
      items, records, totalPledge, purse := s.items, s.records, s.totalPledge, s.purse;
    }

    /** Looks for an entry with the same item and odds and adds to it, or appends one. */
    method Merge(bets: seq<B.Bet>, item: nat, odd: nat, amount: nat) returns (out: seq<B.Bet>)
      ensures out == B.Merge(bets, item, odd, amount)
    {
      var k := 0;
      while k < |bets|
        invariant 0 <= k <= |bets|
        invariant forall j | 0 <= j < k :: bets[j].item != item || bets[j].odd != odd
      {
        if bets[k].item == item && bets[k].odd == odd {
          MergeFrom(bets, k, item, odd, amount);
          out := bets[k := bets[k].(amount := bets[k].amount + amount)];
          assert bets[k..][1..] == bets[k + 1..];
          return;
        }
        k := k + 1;
      }
      MergeFrom(bets, k, item, odd, amount);
      assert bets[..k] == bets && bets[k..] == [];
      out := bets + [B.Bet(item, odd, amount)];
    }

    method GoBet(who: Account, i: nat, amount: nat) returns (r: Outcome)
      modifies this
      ensures Did(old(Abs()), B.GoBet(old(Abs()), who, i, amount), Abs(), r)
    {
      hide B.Merge, B.Worth, B.Narrow, Pay, Times;
      if amount < minBet {
        return Err(B.BettingAmountTooSmall);
      }
      if i >= |items| {
        return Err(B.SelectIndexOverflow);
      }
      if !open {
        return Err(B.BettingOverTime);
      }
      var item := items[i];
      if Times(item.odd, amount) > U128_MAX {
        return Err(B.Arithmetic);
      }
      var comp := item.comp + B.Worth(item.odd, amount);
      if comp > U128_MAX {
        return Err(B.Arithmetic);
      }
      if comp > FreeOf(purse, pledge) {
        return Err(B.BettingAmountOverflow);
      }
      var paid := Pay(purse, who, creator, amount);
      if paid.Err? {
        return Err(B.Payment(paid.error));
      }
      var record := B.RecordOf(Abs(), who);
      var bets := Merge(record.bets, i, item.odd, amount);
      if !B.Narrow(bets) || item.accounts + 1 > U32_MAX || item.buyIn + amount > U128_MAX {
        return Err(B.Arithmetic);
      }
      purse := paid.value;
      records := records[who := record.(bets := bets)];
      items := items[i := B.Item(item.odd, comp, item.buyIn + amount, item.accounts + 1)];
      r := Ok(Done);
    }

    method UpdateOdds(who: Account, odds: seq<(nat, nat)>) returns (r: Outcome)
      modifies this`items
      ensures Did(old(Abs()), B.UpdateOdds(old(Abs()), who, odds), Abs(), r)
    {
      if who != creator {
        return Err(B.PermissonDeny);
      }
      var before := items;
      for k := 0 to |odds|
        invariant B.SetOdds(before, odds[..k]) == Ok(items)
      {
        assert odds[..k + 1][..k] == odds[..k];
        var (i, o) := odds[k];
        if i >= |items| || o <= 100 {
          OddsStop(before, odds, k + 1);
          r := Err(if i >= |items| then B.SelectIndexOverflow else B.BettingParamsError);
          items := before;
          return;
        }
        items := items[i := items[i].(odd := o)];
      }
      assert odds[..|odds|] == odds;
      r := Ok(Done);
    }

    method AppendPledge(who: Account, amount: nat) returns (r: Outcome)
      modifies this`purse, this`totalPledge
      ensures Did(old(Abs()), B.AppendPledge(old(Abs()), who, amount), Abs(), r)
    {
      hide Pay;
      if amount == 0 {
        return Err(B.PledgeAmountZero);
      }
      if outcome != B.Pending {
        return Err(B.BattleStatusError);
      }
      var paid := Pay(purse, who, pledge, amount);
      if paid.Err? {
        return Err(B.Payment(paid.error));
      }
      purse := paid.value;
      totalPledge := FreeOf(purse, pledge);
      r := Ok(Done);
    }

    method Drop(who: Account) returns (r: Outcome)
      modifies this`purse, this`totalPledge
      ensures Did(old(Abs()), B.Drop(old(Abs()), who), Abs(), r)
    {
      hide Pay;
      if who != creator {
        return Err(B.PermissonDeny);
      }
      for k := 0 to |items|
        invariant forall j | 0 <= j < k :: items[j].comp == 0
      {
        if items[k].comp != 0 {
          return Err(B.BettingError);
        }
      }
      var paid := Pay(purse, pledge, creator, FreeOf(purse, pledge));
      if paid.Err? {
        return Err(B.Payment(paid.error));
      }
      purse := paid.value;
      totalPledge := 0;
      r := Ok(Done);
    }

    /** What a record is owed on item `i`; `None` when a product or the sum does not fit. */
    method SumOwed(bets: seq<B.Bet>, i: nat) returns (total: Option<nat>)
      ensures total == if B.Payable(bets, i) then Some(B.Owing(bets, i)) else None
    {
      hide Times, B.Worth, B.Owing;
      var sum := 0;
      assert bets[..0] == [] && B.Owing([], i) == 0 by {
        B.Bare(i);
      }
      for k := 0 to |bets|
        invariant forall j | 0 <= j < k && bets[j].item == i :: Times(bets[j].odd, bets[j].amount) <= U128_MAX
        invariant sum == B.Owing(bets[..k], i) <= U128_MAX
      {
        LastBet(bets, k, i);
        OwingGrows(bets, k + 1, i);
        if bets[k].item == i {
          if Times(bets[k].odd, bets[k].amount) > U128_MAX {
            assert bets[k] in bets;
            return None;
          }
          sum := sum + B.Worth(bets[k].odd, bets[k].amount);
          if sum > U128_MAX {
            return None;
          }
        }
      }
      assert bets[..|bets|] == bets;
      total := Some(sum);
    }

    method Claim(who: Account) returns (r: Outcome)
      modifies this`purse, this`records
      ensures Did(old(Abs()), B.Claim(old(Abs()), who), Abs(), r)
    {
      hide B.Payable, B.Owing, Pay;
      var record := B.RecordOf(Abs(), who);
      if record.claimed || record.bets == [] {
        return Err(B.HaveNoBonus);
      }
      var hit := B.HitItem(Abs());
      if hit.Err? {
        return Err(hit.error);
      }
      var total := SumOwed(record.bets, hit.value);
      if total.None? {
        return Err(B.Arithmetic);
      }
      if total.value > 0 {
        var paid := Pay(purse, pledge, who, total.value);
        if paid.Err? {
          return Err(B.Payment(paid.error));
        }
        purse := paid.value;
      } else {
        assert Pay(purse, pledge, who, 0) == Ok(purse) by {
          PayNothing(purse, pledge, who);
        }
      }
      records := records[who := record.(claimed := true)];
      r := Ok(Done);
    }

    method RevokeRemain(who: Account) returns (r: Outcome)
      modifies this`purse
      ensures Did(old(Abs()), B.RevokeRemain(old(Abs()), who), Abs(), r)
    {
      hide Pay;
      if who != creator {
        return Err(B.PermissonDeny);
      }
      var hit := B.HitItem(Abs());
      if hit.Err? {
        return Err(hit.error);
      }
      var comp := items[hit.value].comp;
      if totalPledge <= comp {
        return Ok(Done);
      }
      var paid := Pay(purse, pledge, creator, totalPledge - comp);
      if paid.Err? {
        return Err(B.Payment(paid.error));
      }
      purse := paid.value;
      r := Ok(Done);
    }
  }

  lemma PayNothing(p: Purse, a: Account, b: Account)
    ensures Pay(p, a, b, 0) == Ok(p)
  {
  }
}
