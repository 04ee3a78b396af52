/** Closed form and conservation of every vault over whole runs. */
module VestingRuns {
  import opened Arith
  import opened Ledgers
  import opened Wrappers
  import opened Vesting

  /** A vault put in place at epoch `from`, and where its money has gone since. */
  datatype Track = Idle | Track(fund: Fund, from: Epoch, paid: nat, returned: nat, stuck: nat)

  /** Tranches due up to epoch `e`. */
  function Tranches(f: Fund, e: Epoch): nat
    requires f.interval > 0
  {
    if e <= f.delay then 0 else (e - f.delay) / f.interval
  }

  function Left(f: Fund, e: Epoch): nat
    requires f.interval > 0
  {
    if Tranches(f, e) >= f.times then 0 else f.times - Tranches(f, e)
  }

  /** The first amount is still to come unless its epoch has passed since the vault was put in place. */
  function FirstLeft(tr: Track, e: Epoch): nat
    requires tr.Track?
  {
    if tr.from < tr.fund.delay <= e then 0 else tr.fund.first
  }

  function Unpaid(tr: Track, e: Epoch): nat
    requires tr.Track? && tr.fund.interval > 0
  {
    FirstLeft(tr, e) + Times(Left(tr.fund, e), tr.fund.amount)
  }

  predicate WellFormed(f: Fund) {
    f.times >= 1 && f.interval >= 1
  }

  /** An approval still open after epoch `e`: a later epoch of the schedule, but never the last tranche. */
  predicate Open(f: Fund, e: Epoch, x: Epoch)
    requires WellFormed(f)
  {
    e < x && f.delay <= x <= f.delay + Times(f.times - 1, f.interval) && (x - f.delay) % f.interval == 0
  }

  ghost predicate VaultInv(v: View, tr: Track, e: Epoch, b: Account) {
    match tr
    case Idle => v.fund.None? && v.mine == map[]
    case Track(f, from, paid, returned, stuck) =>
      && WellFormed(f) && from <= e
      && v.fund == (if Left(f, e) == 0 then None else Some(f.(times := Left(f, e))))
      && (forall k | k in v.mine :: k.0 == b && Open(f, e, k.1))
      && paid + returned + stuck + Unpaid(tr, e) == Total(f)
      && v.reserved >= stuck + Unpaid(tr, e)
  }

  // --- arithmetic of the schedule ---

  lemma NextTranche(f: Fund, e: Epoch)
    requires WellFormed(f)
    ensures Tranches(f, e + 1)
            == Tranches(f, e) + if e + 1 > f.delay && (e + 1 - f.delay) % f.interval == 0 then 1 else 0
  {
    if e >= f.delay {
      NextQuotient(e - f.delay, f.interval);
      if e == f.delay {
        SmallDiv(0, f.interval);
      }
    }
  }

  lemma Peel(n: nat, amount: nat)
    requires n >= 1
    ensures Times(n, amount) == Times(n - 1, amount) + amount
  {
  }

  /** An approval for the next epoch means that something is due then. */
  lemma OpenIsDue(f: Fund, v: Fund, e: Epoch)
    requires WellFormed(f) && Open(f, e, e + 1) && v == f.(times := v.times) && v.times >= 1
    ensures DueAt(v, e + 1) == First || DueAt(v, e + 1) == Tranche
  {
  }

  /** Once no tranche is left no approval is open. */
  lemma NoneOpen(f: Fund, e: Epoch, x: Epoch)
    requires WellFormed(f) && Left(f, e) == 0
    ensures !Open(f, e, x)
  {
    var q := Tranches(f, e);
    if e > f.delay {
      assert q * f.interval <= e - f.delay;
      MulMono(f.times - 1, q, f.interval);
    }
  }

  /** One epoch of the schedule. */
  lemma EpochInv(v: View, tr: Track, e: Epoch, b: Account, alive: set<Account>)
    requires VaultInv(v, tr, e, b)
    ensures VaultInv(After(v, b, alive, e + 1), Added(tr, FlowOf(v, b, alive, e + 1)), e + 1, b)
  {
    hide DueAt, Open, Times, Tranches;
    if tr.Track? {
      var f := tr.fund;
      NextTranche(f, e);
      Stays(v, tr, e);
      if v.fund.Some? {
        DueMeaning(v.fund.value, f, e + 1);
        Peel(Left(f, e), f.amount);
      }
      EpochApprovals(v, tr, e, b, alive);
    }
  }

  lemma EpochApprovals(v: View, tr: Track, e: Epoch, b: Account, alive: set<Account>)
    requires tr.Track? && VaultInv(v, tr, e, b)
    ensures forall k | k in After(v, b, alive, e + 1).mine :: k.0 == b && Open(tr.fund, e + 1, k.1)
  {
    hide DueAt, Open, Times, Tranches;
    var f := tr.fund;
    forall k | k in After(v, b, alive, e + 1).mine
      ensures k.0 == b && Open(f, e + 1, k.1)
    {
      assert k in v.mine && k == (b, k.1);
      if k.1 != e + 1 {
        StillOpen(f, e, k.1);
      } else if v.fund.None? {
        NoneOpen(f, e, e + 1);
      } else {
        OpenIsDue(f, v.fund.value, e);
      }
    }
  }

  function Added(tr: Track, fl: Flow): Track {
    if tr.Idle? then tr
    else tr.(paid := tr.paid + fl.paid, returned := tr.returned + fl.returned, stuck := tr.stuck + fl.stuck)
  }

  lemma StillOpen(f: Fund, e: Epoch, x: Epoch)
    requires WellFormed(f) && Open(f, e, x) && x != e + 1
    ensures Open(f, e + 1, x)
  {
  }

  lemma Stays(v: View, tr: Track, e: Epoch)
    requires tr.Track? && WellFormed(tr.fund)
    ensures e + 1 != tr.fund.delay && Left(tr.fund, e + 1) == Left(tr.fund, e) ==> Unpaid(tr, e + 1) == Unpaid(tr, e)
    ensures Left(tr.fund, e) == 0 ==> e > tr.fund.delay
  {
    hide Times;
  }

  lemma DueMeaning(v: Fund, f: Fund, e: Epoch)
    requires WellFormed(f) && v == f.(times := v.times) && v.times >= 1
    ensures DueAt(v, e) != Fault
    ensures DueAt(v, e) == First <==> e == f.delay
    ensures DueAt(v, e) == Tranche <==> e > f.delay && (e - f.delay) % f.interval == 0
  {
    if e == f.delay {
      SmallMod(0, f.interval);
    }
  }

  /** The last tranche goes to the beneficiary whatever was approved: no approval is ever recorded for its epoch. */
  lemma LastTrancheFree(v: View, tr: Track, e: Epoch, b: Account, alive: set<Account>)
    requires tr.Track? && VaultInv(v, tr, e, b) && Left(tr.fund, e) == 1
    requires v.fund.Some? && DueAt(v.fund.value, e + 1) == Tranche
    ensures FlowOf(v, b, alive, e + 1).returned == 0 && FlowOf(v, b, alive, e + 1).stuck == 0
  {
    var f := tr.fund;
    NextTranche(f, e);
    NoneOpenNow(f, e);
  }

  lemma NoneOpenNow(f: Fund, e: Epoch)
    requires WellFormed(f) && e + 1 > f.delay && Tranches(f, e + 1) >= f.times
    ensures !Open(f, e, e + 1)
  {
    var q := Tranches(f, e + 1);
    assert q * f.interval <= e + 1 - f.delay;
    MulAhead(q, f.times - 1, f.interval);
  }

  /** Giving up an approval sends to the beneficiary what would have been returned. */
  lemma ApproveRedirects(s: State, who: Account, b: Account, e: Epoch, alive: set<Account>)
    requires Approve(s, who, b, e).Ok?
    ensures var was := FlowOf(ViewOf(s, b), b, alive, e);
            var now := FlowOf(ViewOf(Approve(s, who, b, e).value, b), b, alive, e);
            now.returned == 0 && now.stuck == 0 && now.paid == was.paid + was.returned + was.stuck
    ensures forall c: Account, x: Epoch | c != b || x != e ::
              (c, x) in Approve(s, who, b, e).value.approvals <==> (c, x) in s.approvals
  {
    hide DueAt, AmountDue;
    MineAt(s, b);
    MineAt(Approve(s, who, b, e).value, b);
  }

  // --- steps ---

  /** Every vault that is put in place has tranches, at a positive interval. */
  predicate Sound(op: Op) {
    op.Putting? ==> WellFormed(op.f)
  }

  ghost function Tracked(s: State, tr: Track, op: Op, b: Account): Track
    requires s.duration > 0
  {
    match op
    case Putting(seller, c, f, need) =>
      if c == b && PutIntoVault(s, seller, c, f, need).Ok? then Track(f, EpochOf(s), 0, 0, 0) else tr
    case Block(order) =>
      if Unlocks(s, order) then Added(tr, FlowOf(ViewOf(s, b), b, s.ledger.Keys, EpochOf(s) + 1)) else tr
    case _ => tr
  }

  /** The block starts a new epoch. */
  predicate Unlocks(s: State, order: seq<Account>)
    requires s.duration > 0
  {
    StorageOrder(s, order) && NextBlock(s, order).Ok? && (s.now + 1) % s.duration == 0
  }

  lemma DepositReserves(l: Natives, seller: Account, b: Account, v: nat, c: Account)
    requires Deposit(l, seller, b, v).Ok?
    ensures NativeAt(Deposit(l, seller, b, v).value, c).reserved == NativeAt(l, c).reserved + if c == b then v else 0
  {
  }

  /** The approvals of a new vault are open and all its own. */
  lemma {:induction false} ApprovalsOpen(
    m: map<(Account, Epoch), Account>, seller: Account, b: Account, f: Fund, n: nat, e: Epoch)
    requires WellFormed(f) && n <= f.times && e < f.delay
    ensures forall k | k in Approvals(m, seller, b, f, n) && !(k in m && Approvals(m, seller, b, f, n)[k] == m[k]) ::
              k.0 == b && Open(f, e, k.1)
    ensures forall k | k in m :: k in Approvals(m, seller, b, f, n)
  {
    hide Open, Times;
    if n == 0 {
    } else {
      ApprovalsOpen(m, seller, b, f, n - 1, e);
      SlotOpen(f, n - 1, e);
    }
  }

  lemma SlotOpen(f: Fund, i: nat, e: Epoch)
    requires WellFormed(f) && i < f.times && e < f.delay
    ensures Open(f, e, f.delay + Times(i, f.interval))
  {
    MulMono(i, f.times - 1, f.interval);
    MultipleMod(i, f.interval);
  }

  lemma PutMine(s: State, seller: Account, b: Account, f: Fund, need: bool, c: Account)
    requires s.duration > 0 && PutIntoVault(s, seller, b, f, need).Ok?
    requires b == c ==> WellFormed(f) && Mine(s, b) == map[]
    requires WellFormed(f)
    ensures var s' := PutIntoVault(s, seller, b, f, need).value;
            && (b != c ==> Mine(s', c) == Mine(s, c))
            && (b == c ==> forall k | k in Mine(s', c) :: k.0 == c && Open(f, EpochOf(s), k.1))
  {
    hide Open, Times, Deposit, Total;
    var s' := PutIntoVault(s, seller, b, f, need).value;
    MineAt(s, c);
    if need {
      ApprovalsOpen(s.approvals, seller, b, f, f.times, EpochOf(s));
      forall k | k in s'.approvals && k.0 == c && b == c
        ensures Open(f, EpochOf(s), k.1)
      {
        assert k == (c, k.1);
      }
    } else {
      MineOnly(s, s', c);
    }
  }

  lemma FreshUnpaid(f: Fund, e: Epoch)
    requires WellFormed(f) && e < f.delay
    ensures Left(f, e) == f.times && Unpaid(Track(f, e, 0, 0, 0), e) == Total(f)
  {
  }

  lemma PutInv(s: State, tr: Track, seller: Account, c: Account, f: Fund, need: bool, b: Account)
    requires s.duration > 0 && VaultInv(ViewOf(s, b), tr, EpochOf(s), b) && WellFormed(f)
    requires PutIntoVault(s, seller, c, f, need).Ok?
    ensures var op := Putting(seller, c, f, need);
            VaultInv(ViewOf(Step(s, op), b), Tracked(s, tr, op, b), EpochOf(s), b)
  {
    hide Open, Times, Deposit, Total, Mine, Approvals, Left, Unpaid;
    DepositReserves(s.ledger, seller, c, Total(f), b);
    if b == c {
      EndedMine(s, tr, b);
      FreshUnpaid(f, EpochOf(s));
    }
    PutMine(s, seller, c, f, need, b);
  }

  /** No approval outlives its vault. */
  lemma EndedMine(s: State, tr: Track, b: Account)
    requires s.duration > 0 && VaultInv(ViewOf(s, b), tr, EpochOf(s), b) && b !in s.vaults
    ensures Mine(s, b) == map[]
  {
    hide Open, Tranches;
    if tr.Track? {
      forall k | k in Mine(s, b)
        ensures false
      {
        NoneOpen(tr.fund, EpochOf(s), k.1);
      }
    }
  }

  lemma BlockInv(s: State, tr: Track, order: seq<Account>, b: Account)
    requires s.duration > 0 && VaultInv(ViewOf(s, b), tr, EpochOf(s), b)
    ensures var s' := Step(s, Block(order));
            VaultInv(ViewOf(s', b), Tracked(s, tr, Block(order), b), EpochOf(s'), b)
    ensures EpochOf(Step(s, Block(order))) == EpochOf(s) + if Unlocks(s, order) then 1 else 0
  {
    hide VaultInv, ViewOf, After, FlowOf, Faulty;
    NextQuotient(s.now, s.duration);
    var s1 := s.(now := s.now + 1);
    SameView(s, s1, b);
    if Unlocks(s, order) {
      UnlockAllView(s1, EpochOf(s1), order, b);
      UnlockKeeps(s1, EpochOf(s1), order);
      EpochInv(ViewOf(s, b), tr, EpochOf(s), b, s.ledger.Keys);
      if b !in order {
        NoVault(ViewOf(s, b), b, s.ledger.Keys, EpochOf(s1)) by {
          NotStored(s, order, b);
        }
      }
    }
  }

  lemma SameView(s: State, s': State, b: Account)
    requires s'.vaults == s.vaults && s'.approvals == s.approvals && s'.ledger == s.ledger
    ensures ViewOf(s', b) == ViewOf(s, b)
  {
  }

  lemma NotStored(s: State, order: seq<Account>, b: Account)
    requires StorageOrder(s, order) && b !in order
    ensures ViewOf(s, b).fund.None?
  {
  }

  lemma NoVault(v: View, b: Account, alive: set<Account>, e: Epoch)
    requires v.fund.None?
    ensures After(v, b, alive, e) == v
  {
  }

  lemma StepInv(s: State, tr: Track, op: Op, b: Account)
    requires s.duration > 0 && VaultInv(ViewOf(s, b), tr, EpochOf(s), b) && Sound(op)
    ensures VaultInv(ViewOf(Step(s, op), b), Tracked(s, tr, op, b), EpochOf(Step(s, op)), b)
  {
    hide PutIntoVault, NextBlock, Open, Unpaid, Total, Left;
    match op
    case Putting(seller, c, f, need) =>
      if PutIntoVault(s, seller, c, f, need).Ok? {
        PutInv(s, tr, seller, c, f, need, b);
        PutKeepsTime(s, seller, c, f, need);
      }
    case Block(order) => BlockInv(s, tr, order, b);
    case _ =>
  }

  lemma PutKeepsTime(s: State, seller: Account, b: Account, f: Fund, need: bool)
    requires s.duration > 0 && PutIntoVault(s, seller, b, f, need).Ok?
    ensures EpochOf(PutIntoVault(s, seller, b, f, need).value) == EpochOf(s)
  {
    hide Deposit, Approvals, Total;
  }

  // --- runs ---

  /** The vaults of the genesis configuration are fully reserved; nothing has to be approved. */
  ghost predicate GenesisState(s: State) {
    && s.now == 0 && s.duration > 0 && s.approvals == map[]
    && forall b | b in s.vaults :: WellFormed(s.vaults[b]) && NativeAt(s.ledger, b).reserved >= Total(s.vaults[b])
  }

  ghost function TrackOf(s: State, ops: seq<Op>, b: Account): Track
    requires s.duration > 0
  {
    if ops == [] then if b in s.vaults then Track(s.vaults[b], 0, 0, 0, 0) else Idle
    else Tracked(Run(s, ops[..|ops| - 1]), TrackOf(s, ops[..|ops| - 1], b), ops[|ops| - 1], b)
  }

  lemma GenesisInv(s: State, b: Account)
    requires GenesisState(s)
    ensures VaultInv(ViewOf(s, b), TrackOf(s, [], b), EpochOf(s), b)
  {
    SmallDiv(0, s.duration);
    if b in s.vaults {
      assert Left(s.vaults[b], 0) == s.vaults[b].times;
    }
  }

  /** Over every run, each beneficiary's vault follows its schedule and accounts for all it was given. */
  lemma {:induction false} RunInv(s: State, ops: seq<Op>, b: Account)
    requires GenesisState(s) && forall i | 0 <= i < |ops| :: Sound(ops[i])
    ensures VaultInv(ViewOf(Run(s, ops), b), TrackOf(s, ops, b), EpochOf(Run(s, ops)), b)
  {
    hide Step, VaultInv, ViewOf, Tracked;
    if ops == [] {
      GenesisInv(s, b);
    } else {
      RunInv(s, ops[..|ops| - 1], b);
      StepInv(Run(s, ops[..|ops| - 1]), TrackOf(s, ops[..|ops| - 1], b), ops[|ops| - 1], b);
    }
  }

  /** After epoch `e` a vault has `times` minus the whole intervals since its delay left, and all it was given is paid
      out, returned, stuck with a missing approver, or still reserved. */
  lemma ClosedForm(s: State, ops: seq<Op>, b: Account)
    requires GenesisState(s) && forall i | 0 <= i < |ops| :: Sound(ops[i])
    requires TrackOf(s, ops, b).Track?
    ensures var s', tr := Run(s, ops), TrackOf(s, ops, b);
            var e, f := EpochOf(s'), tr.fund;
            && WellFormed(f)
            && var left := f.times - (if e < f.delay then 0 else (e - f.delay) / f.interval);
            && (b in s'.vaults <==> left > 0)
            && (left > 0 ==> s'.vaults[b].times == left)
            && (left <= 0 ==> forall x: Epoch :: (b, x) !in s'.approvals)
            && (var due := FirstLeft(tr, e) + (if left > 0 then Times(left, f.amount) else 0);
                tr.paid + tr.returned + tr.stuck + due == f.first + Times(f.times, f.amount)
                && NativeAt(s'.ledger, b).reserved >= tr.stuck + due)
  {
    hide Run, TrackOf;
    RunInv(s, ops, b);
    var s', tr := Run(s, ops), TrackOf(s, ops, b);
    var e := EpochOf(s');
    if e == tr.fund.delay {
      SmallDiv(0, tr.fund.interval);
    }
    if b !in s'.vaults {
      EndedMine(s', tr, b);
      MineAt(s', b);
    }
  }

  /** With the delay still ahead when the vault was put in place, its end leaves nothing behind but what is stuck. */
  lemma PaidInFull(s: State, ops: seq<Op>, b: Account)
    requires GenesisState(s) && forall i | 0 <= i < |ops| :: Sound(ops[i])
    requires TrackOf(s, ops, b).Track? && b !in Run(s, ops).vaults
    ensures var tr := TrackOf(s, ops, b);
            && tr.fund.delay <= EpochOf(Run(s, ops))
            && tr.paid + tr.returned + tr.stuck + (if tr.from < tr.fund.delay then 0 else tr.fund.first)
              == Total(tr.fund)
  {
    hide Run, TrackOf;
    RunInv(s, ops, b);
  }

  /** A vault from genesis without delay never releases its first amount. */
  lemma NoDelayKeepsFirst(s: State, ops: seq<Op>, b: Account)
    requires GenesisState(s) && forall i | 0 <= i < |ops| :: Sound(ops[i])
    requires TrackOf(s, ops, b).Track? && TrackOf(s, ops, b).fund.delay == 0
    ensures var tr := TrackOf(s, ops, b);
            NativeAt(Run(s, ops).ledger, b).reserved >= tr.fund.first
            && tr.paid + tr.returned + tr.stuck <= Times(tr.fund.times, tr.fund.amount)
  {
    hide Run, TrackOf;
    RunInv(s, ops, b);
  }

  /** Nothing gets stuck as long as the accounts of the vault exist. */
  ghost predicate Alive(s: State, b: Account) {
    forall k | k in Mine(s, b) :: Mine(s, b)[k] in s.ledger && b in s.ledger
  }

  lemma {:induction false} NothingStuck(s: State, ops: seq<Op>, b: Account)
    requires GenesisState(s) && forall i | 0 <= i < |ops| :: Alive(Run(s, ops[..i]), b)
    ensures TrackOf(s, ops, b).Track? ==> TrackOf(s, ops, b).stuck == 0
  {
    hide Step;
    if ops == [] {
    } else {
      var before := ops[..|ops| - 1];
      forall i | 0 <= i < |before|
        ensures Alive(Run(s, before[..i]), b)
      {
        assert before[..i] == ops[..i];
      }
      NothingStuck(s, before, b);
      FlowUnstuck(Run(s, before), b);
    }
  }

  lemma FlowUnstuck(s: State, b: Account)
    requires s.duration > 0 && Alive(s, b)
    ensures FlowOf(ViewOf(s, b), b, s.ledger.Keys, EpochOf(s) + 1).stuck == 0
  {
  }

  /** The hook never fails when every vault is well formed. */
  lemma HookNeverFails(s: State, ops: seq<Op>, order: seq<Account>)
    requires GenesisState(s) && forall i | 0 <= i < |ops| :: Sound(ops[i])
    ensures NextBlock(Run(s, ops), order).Ok?
  {
    hide Run, TrackOf, UnlockAll;
    var s' := Run(s, ops);
    var e := EpochOf(s'.(now := s'.now + 1));
    forall b | b in s'.vaults
      ensures DueAt(s'.vaults[b], e) != Fault
    {
      RunInv(s, ops, b);
      DueMeaning(s'.vaults[b], TrackOf(s, ops, b).fund, e);
    }
  }
}
