/** The foundation pallet as an object: vaults and approvals are updated as the block hook walks over them. */
module FoundationPallet {
  import opened Arith
  import opened Ledgers
  import opened Wrappers
  import F = Vesting

  type Outcome = Result<Done, F.Error>

  class Pallet {
    const duration: nat
    var now: nat
    var ledger: F.Natives
    var vaults: map<Account, F.Fund>
    var approvals: map<(Account, F.Epoch), Account>

    function Abs(): F.State
      reads this
    {
      F.State(duration, now, ledger, vaults, approvals)
    }

    constructor (d: nat, l: F.Natives, funds: map<Account, F.Fund>)
      ensures Abs() == F.State(d, 0, l, funds, map[])
    {
      duration, now, ledger, vaults, approvals := d, 0, l, funds, map[];
    }

    method PutIntoVault(seller: Account, b: Account, f: F.Fund, needApproval: bool) returns (r: Outcome)
      requires duration > 0
      modifies this
      ensures Did(old(Abs()), F.PutIntoVault(old(Abs()), seller, b, f, needApproval), Abs(), r)
    {
      hide F.Total, Times, F.Deposit;
      if b in vaults {
        return Err(F.AlreadyExists);
      }
      if f.delay <= now / duration {
        return Err(F.EpochNotReached);
      }
      var total := F.Total(f);
      if total > U128_MAX {
        return Err(F.Arithmetic);
      }
      var moved := F.Deposit(ledger, seller, b, total);
      if moved.Err? {
        return Err(moved.error);
      }
      if needApproval {
        if f.times > 0 && f.delay + Times(f.times - 1, f.interval) > U32_MAX {
          return Err(F.Arithmetic);
        }
        AddApprovals(seller, b, f);
      }
      ledger := moved.value;
      vaults := vaults[b := f];
      r := Ok(Done);
    }

    /** Records one approval per epoch of the schedule, the last tranche excepted. */
    method AddApprovals(seller: Account, b: Account, f: F.Fund)
      modifies this`approvals
      ensures approvals == F.Approvals(old(approvals), seller, b, f, f.times)
    {
      hide Times;
      for i := 0 to f.times
        invariant approvals == F.Approvals(old(approvals), seller, b, f, i)
      {
        approvals := approvals[(b, f.delay + Times(i, f.interval)) := seller];
      }
    }

    method Approve(who: Account, b: Account, e: F.Epoch) returns (r: Outcome)
      modifies this`approvals
      ensures Did(old(Abs()), F.Approve(old(Abs()), who, b, e), Abs(), r)
    {
      if (b, e) in approvals {
        if approvals[(b, e)] != who {
          return Err(F.InvalidApprover);
        }
        approvals := approvals - {(b, e)};
      }
      r := Ok(Done);
    }

    method Release(e: F.Epoch, b: Account, v: nat)
      modifies this`approvals, this`ledger
      ensures Abs() == F.Released(old(Abs()), e, b, v)
    {
      hide F.Repatriated, F.Unreserved;
      if (b, e) in approvals {
        var approver := approvals[(b, e)];
        approvals := approvals - {(b, e)};
        var l := F.Repatriated(ledger, b, approver, v);
        if l.Some? {
          ledger := l.value;
        }
      } else {
        ledger := F.Unreserved(ledger, b, v);
      }
    }

    /** One vault of the walk. */
    method Unlock(e: F.Epoch, b: Account)
      requires b in vaults && F.DueAt(vaults[b], e) != F.Fault
      modifies this`approvals, this`ledger, this`vaults
      ensures Abs() == F.UnlockOne(old(Abs()), e, b)
    {
      hide F.Released;
      var f := vaults[b];
      if e > f.delay && (e - f.delay) % f.interval == 0 {
        Release(e, b, f.amount);
        if f.times == 1 {
          vaults := vaults - {b};
        } else {
          vaults := vaults[b := f.(times := f.times - 1)];
        }
      } else if e == f.delay && (e - f.delay) % f.interval == 0 {
        Release(e, b, f.first);
      }
    }

    /** `unlock_fund`: visits the vaults in storage order. */
    method UnlockFund(e: F.Epoch, order: seq<Account>)
      requires F.StorageOrder(Abs(), order) && !F.Faulty(Abs(), e)
      modifies this`approvals, this`ledger, this`vaults
      ensures Abs() == F.UnlockAll(old(Abs()), e, order)
    {
      hide F.UnlockOne, F.DueAt;
      ghost var s := Abs();
      for i := 0 to |order|
        invariant Abs() == F.UnlockAll(s, e, order[..i])
        invariant forall j | i <= j < |order| :: order[j] in vaults && vaults[order[j]] == s.vaults[order[j]]
      {
        assert order[..i + 1][..i] == order[..i];
        ghost var before := Abs();
        assert F.DueAt(s.vaults[order[i]], e) != F.Fault;
        Unlock(e, order[i]);
        forall j | i < j < |order|
          ensures order[j] in vaults && vaults[order[j]] == s.vaults[order[j]]
        {
          OthersStay(before, e, order[i], order[j]);
        }
      }
      assert order[..|order|] == order;
    }

    method OnInitialize(order: seq<Account>) returns (r: Outcome)
      requires duration > 0 && F.StorageOrder(Abs(), order)
      modifies this
      ensures Did(old(Abs()), F.NextBlock(old(Abs()), order), Abs(), r)
    {
      hide F.UnlockAll, F.Faulty;
      if (now + 1) % duration == 0 {
        var e := (now + 1) / duration;
        if F.Faulty(Abs(), e) {
          return Err(F.Arithmetic);
        }
        now := now + 1;
        SameFaults(old(Abs()), Abs(), e);
        UnlockFund(e, order);
      } else {
        now := now + 1;
      }
      r := Ok(Done);
    }
  }

  lemma OthersStay(s: F.State, e: F.Epoch, b: Account, c: Account)
    requires b != c && c in s.vaults
    ensures c in F.UnlockOne(s, e, b).vaults && F.UnlockOne(s, e, b).vaults[c] == s.vaults[c]
  {
  }

  lemma SameFaults(s: F.State, s': F.State, e: F.Epoch)
    requires s.vaults == s'.vaults
    ensures F.Faulty(s, e) == F.Faulty(s', e)
  {
  }
}
