/** What each call of the foundation pallet requires, and what one visit of the block hook pays. */
module VestingCalls {
  import opened Arith
  import opened Sums
  import opened Ledgers
  import opened Wrappers
  import opened Vesting

  /** Free and reserved balances change by the given amounts in one account each; one may be the other. */
  ghost predicate Shifts(l: Natives, l': Natives, from: Account, free: int, recipient: Account, reserved: int) {
    forall a: Account ::
      && NativeAt(l', a).free == NativeAt(l, a).free + (if a == from then free else 0)
      && NativeAt(l', a).reserved == NativeAt(l, a).reserved + if a == recipient then reserved else 0
  }

  lemma NoBalance(l: Natives, a: Account)
    requires a !in l
    ensures NativeAt(l, a) == Balance(0, 0)
  {
  }

  /** What a vault is worth. */
  function WorthOf(f: Fund): nat {
    f.first + f.times * f.amount
  }

  /** The epoch of tranche number `i`, the first amount being number zero. */
  function Slot(f: Fund, i: nat): Epoch {
    f.delay + i * f.interval
  }

  ghost function Slots(f: Fund, n: nat): set<Epoch> {
    set i: nat | i < n :: Slot(f, i)
  }

  lemma SlotsMore(f: Fund, n: nat)
    requires n > 0
    ensures Slots(f, n) == Slots(f, n - 1) + {Slot(f, n - 1)}
  {
    hide Slot;
    forall e | e in Slots(f, n)
      ensures e in Slots(f, n - 1) + {Slot(f, n - 1)}
    {
      var i: nat :| i < n && Slot(f, i) == e;
    }
  }

  /** Approvals by `seller` for the first `n` epochs of the schedule, on top of those there were. */
  ghost predicate Approved(
    was: map<(Account, Epoch), Account>, now: map<(Account, Epoch), Account>, seller: Account, b: Account, f: Fund,
    n: nat)
  {
    forall k: (Account, Epoch) ::
      && (k in now <==> k in was || (k.0 == b && k.1 in Slots(f, n)))
      && (k in now ==> now[k] == if k.0 == b && k.1 in Slots(f, n) then seller else was[k])
  }

  lemma {:induction false} ApprovalsAre(
    m: map<(Account, Epoch), Account>, seller: Account, b: Account, f: Fund, n: nat)
    ensures Approved(m, Approvals(m, seller, b, f, n), seller, b, f, n)
  {
    if n == 0 {
      assert Slots(f, 0) == {};
    } else {
      ApprovalsAre(m, seller, b, f, n - 1);
      SlotsMore(f, n);
      var before, now := Approvals(m, seller, b, f, n - 1), Approvals(m, seller, b, f, n);
      assert now == before[(b, Slot(f, n - 1)) := seller];
      hide Slot, Slots, Approvals;
      forall k: (Account, Epoch)
        ensures k in now <==> k in m || (k.0 == b && k.1 in Slots(f, n))
        ensures k in now ==> now[k] == if k.0 == b && k.1 in Slots(f, n) then seller else m[k]
      {
        assert k == (k.0, k.1);
      }
    }
  }

  /** A beneficiary gets one vault, which must start in a later epoch; the seller pays its whole worth, which is
      reserved with the beneficiary, and if approval is wanted the seller can give one per epoch `delay + i *
      interval` for every tranche number below the last. */
  lemma PutCall(s: State, seller: Account, b: Account, f: Fund, need: bool)
    requires s.duration > 0
    ensures var r := PutIntoVault(s, seller, b, f, need);
            var late := need && f.times > 0 && Slot(f, f.times - 1) > U32_MAX;
            if b in s.vaults then r == Err(AlreadyExists)
            else if f.delay <= s.now / s.duration then r == Err(EpochNotReached)
            else if WorthOf(f) > U128_MAX then r == Err(Arithmetic)
            else if NativeAt(s.ledger, seller).free < WorthOf(f) then r == Err(InsufficientBalance)
            else if late then r == Err(Arithmetic)
            else
              && r.Ok?
              && r.value == s.(ledger := r.value.ledger, vaults := s.vaults[b := f], approvals := r.value.approvals)
              && Shifts(s.ledger, r.value.ledger, seller, 0 - WorthOf(f), b, WorthOf(f))
              && Approved(s.approvals, r.value.approvals, seller, b, f, if need then f.times else 0)
  {
    hide Approvals, Approved;
    NoneApproved(s.approvals, seller, b, f);
    ApprovalsAre(s.approvals, seller, b, f, f.times);
    assert Total(f) == WorthOf(f);
    hide Total, WorthOf;
    DepositCall(s.ledger, seller, b, Total(f));
    hide Deposit;
  }

  lemma NoneApproved(m: map<(Account, Epoch), Account>, seller: Account, b: Account, f: Fund)
    ensures Approved(m, m, seller, b, f, 0)
  {
  }

  lemma DepositCall(l: Natives, seller: Account, b: Account, v: nat)
    ensures Deposit(l, seller, b, v).Ok? <==> v <= NativeAt(l, seller).free
    ensures Deposit(l, seller, b, v).Ok? ==> Shifts(l, Deposit(l, seller, b, v).value, seller, 0 - v, b, v)
    ensures Deposit(l, seller, b, v).Err? ==> Deposit(l, seller, b, v).error == InsufficientBalance
  {
  }

  /** Only the approver can give up an approval; where there is none the call does nothing. */
  lemma ApproveCall(s: State, who: Account, b: Account, e: Epoch)
    ensures var r := Approve(s, who, b, e);
            if (b, e) !in s.approvals then r == Ok(s)
            else if s.approvals[(b, e)] != who then r == Err(InvalidApprover)
            else
              && r.Ok? && r.value == s.(approvals := r.value.approvals)
              && forall k: (Account, Epoch) ::
                   && (k in r.value.approvals <==> k in s.approvals && k != (b, e))
                   && (k in r.value.approvals ==> r.value.approvals[k] == s.approvals[k])
  {
  }

  // --- the hook ---

  /** When something is due: the first amount at the delay, a tranche at every whole interval after it. */
  lemma DueIs(f: Fund, e: Epoch)
    requires f.interval > 0 && f.times > 0
    ensures DueAt(f, e) == First <==> e == f.delay
    ensures DueAt(f, e) == Tranche <==> e > f.delay && (e - f.delay) % f.interval == 0
    ensures DueAt(f, e) != Fault
  {
    if e == f.delay {
      SmallMod(0, f.interval);
    }
  }

  /** What is paid at epoch `e`: the first amount or one tranche, but no more than is reserved. */
  function Payment(s: State, f: Fund, e: Epoch, b: Account): nat {
    var due := if e == f.delay then f.first else f.amount;
    if due < NativeAt(s.ledger, b).reserved then due else NativeAt(s.ledger, b).reserved
  }

  /** One visit to a vault with something due: the payment leaves the beneficiary's reserved balance, and becomes free
      there, or with the approver if there is an approval for this epoch, which is used up; with an account missing it
      stays reserved. A tranche counts the vault down, and the last one ends it. */
  lemma VisitPays(s: State, e: Epoch, b: Account)
    requires b in s.vaults && s.vaults[b].interval > 0 && s.vaults[b].times > 0
    requires e >= s.vaults[b].delay && (e - s.vaults[b].delay) % s.vaults[b].interval == 0
    ensures var s', f := UnlockOne(s, e, b), s.vaults[b];
            var v, approved := Payment(s, f, e, b), (b, e) in s.approvals;
            && s' == s.(ledger := s'.ledger, approvals := s.approvals - {(b, e)}, vaults := s'.vaults)
            && (if !approved then Shifts(s.ledger, s'.ledger, b, v, b, 0 - v)
                else if s.approvals[(b, e)] in s.ledger && b in s.ledger then
                  Shifts(s.ledger, s'.ledger, s.approvals[(b, e)], v, b, 0 - v)
                else s'.ledger == s.ledger)
            && s'.vaults
               == (if e == f.delay then s.vaults
                   else if f.times == 1 then s.vaults - {b} else s.vaults[b := f.(times := f.times - 1)])
  {
    hide Released;
    var f := s.vaults[b];
    DueIs(f, e);
    ReleasePays(s, e, b, AmountDue(f, e));
  }

  lemma ReleasePays(s: State, e: Epoch, b: Account, due: nat)
    ensures var s' := Released(s, e, b, due);
            var v := if due < NativeAt(s.ledger, b).reserved then due else NativeAt(s.ledger, b).reserved;
            && s' == s.(ledger := s'.ledger, approvals := s.approvals - {(b, e)})
            && (if (b, e) !in s.approvals then Shifts(s.ledger, s'.ledger, b, v, b, 0 - v)
                else if s.approvals[(b, e)] in s.ledger && b in s.ledger then
                  Shifts(s.ledger, s'.ledger, s.approvals[(b, e)], v, b, 0 - v)
                else s'.ledger == s.ledger)
  {
  }

  /** A visit with nothing due changes nothing, and so does one to an account without a vault. */
  lemma VisitPasses(s: State, e: Epoch, b: Account)
    requires b in s.vaults ==>
               || e < s.vaults[b].delay
               || (s.vaults[b].interval > 0 && (e - s.vaults[b].delay) % s.vaults[b].interval != 0)
    ensures UnlockOne(s, e, b) == s
  {
    hide Released;
  }

  /** Whatever vaults there are, the hook has an order to visit them in. */
  lemma OrderExists(s: State) returns (order: seq<Account>)
    ensures StorageOrder(s, order)
  {
    order := Listing(s.vaults.Keys);
  }

  /** A block of the hook: nothing but the clock moves unless the block starts an epoch, and then it fails only for a
      vault without interval or tranches whose delay is over. */
  lemma HookCall(s: State, order: seq<Account>)
    requires s.duration > 0
    ensures var r, at := NextBlock(s, order), s.now + 1;
            if at % s.duration != 0 then r == Ok(s.(now := at))
            else if exists b | b in s.vaults :: DueAt(s.vaults[b], at / s.duration) == Fault then r == Err(Arithmetic)
            else r == Ok(UnlockAll(s.(now := at), at / s.duration, order))
  {
    hide UnlockAll, DueAt;
  }

  /** The hook's arithmetic fails on a vault exactly if its delay is over and it has no interval, or, past the delay
      at a whole interval, no tranche. */
  lemma FaultIs(f: Fund, e: Epoch)
    ensures DueAt(f, e) == Fault <==>
            e >= f.delay && (f.interval == 0 || (f.times == 0 && e > f.delay && (e - f.delay) % f.interval == 0))
  {
  }
}
