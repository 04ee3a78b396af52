/** The foundation pallet: vaults, approvals and the release of tranches, over whole runs. */
module Vesting {
  import opened Arith
  import opened Ledgers
  import opened Wrappers

  type Epoch = nat

  datatype Error = AlreadyExists | EpochNotReached | InvalidApprover | InsufficientBalance | Arithmetic

  type Attempt<+T> = Result<T, Error>

  datatype Fund = Fund(delay: Epoch, interval: nat, times: nat, amount: nat, first: nat)

  /** Native balances of the accounts that exist. */
  type Natives = map<Account, Balance>

  datatype State = State(
    duration: nat, now: nat, ledger: Natives,
    vaults: map<Account, Fund>, approvals: map<(Account, Epoch), Account>)

  function Total(f: Fund): nat {
    f.first + Times(f.times, f.amount)
  }

  function EpochOf(s: State): Epoch
    requires s.duration > 0
  {
    s.now / s.duration
  }

  // --- the native currency, as this pallet uses it ---

  function NativeAt(l: Natives, a: Account): Balance {
    if a in l then l[a] else Balance(0, 0)
  }

  /** A transfer that may leave the sender empty, and a reservation of what has arrived. */
  function Deposit(l: Natives, seller: Account, b: Account, v: nat): Attempt<Natives> {
    if v == 0 then Ok(l)
    else if NativeAt(l, seller).free < v then Err(InsufficientBalance)
    else
      var from := NativeAt(l, seller);
      var l1 := l[seller := from.(free := from.free - v)];
      var at := NativeAt(l1, b);
      Ok(l1[b := at.(reserved := at.reserved + v)])
  }

  /** Releases at most what is reserved. */
  function Unreserved(l: Natives, a: Account, v: nat): Natives {
    var n := NativeAt(l, a);
    var m := Min(v, n.reserved);
    if a in l then l[a := Balance(n.free + m, n.reserved - m)] else l
  }

  /** Moves at most what is reserved to the free balance of `to`; fails when that account is gone. */
  function Repatriated(l: Natives, a: Account, recipient: Account, v: nat): Option<Natives> {
    var n, m := NativeAt(l, a), Min(v, NativeAt(l, a).reserved);
    if recipient !in l || a !in l then None
    else if a == recipient then Some(Unreserved(l, a, v))
    else
      Some(l[a := Balance(n.free, n.reserved - m)]
            [recipient := Balance(l[recipient].free + m, l[recipient].reserved)])
  }

  // --- calls ---

  /** One approval per epoch `delay + i * interval`, for `i` below `n`. */
  function Approvals(m: map<(Account, Epoch), Account>, seller: Account, b: Account, f: Fund, n: nat)
    : map<(Account, Epoch), Account>
  {
    if n == 0 then m else Approvals(m, seller, b, f, n - 1)[(b, f.delay + Times(n - 1, f.interval)) := seller]
  }

  function PutIntoVault(s: State, seller: Account, b: Account, f: Fund, needApproval: bool): Attempt<State>
    requires s.duration > 0
  {
    if b in s.vaults then Err(AlreadyExists)
    else if f.delay <= EpochOf(s) then Err(EpochNotReached)
    else if Total(f) > U128_MAX then Err(Arithmetic)
    else
      var l :- Deposit(s.ledger, seller, b, Total(f));
      if needApproval && f.times > 0 && f.delay + Times(f.times - 1, f.interval) > U32_MAX then Err(Arithmetic)
      else
        Ok(s.(ledger := l, vaults := s.vaults[b := f],
              approvals := if needApproval then Approvals(s.approvals, seller, b, f, f.times) else s.approvals))
  }

  /** Withdraws the approver's claim on an epoch; without one the call does nothing. */
  function Approve(s: State, who: Account, b: Account, e: Epoch): Attempt<State> {
    if (b, e) !in s.approvals then Ok(s)
    else if s.approvals[(b, e)] != who then Err(InvalidApprover)
    else Ok(s.(approvals := s.approvals - {(b, e)}))
  }

  // --- the block hook ---

  datatype Due = Nothing | First | Tranche | Fault

  /** What is due at epoch `e`; a fault stands for an arithmetic failure of the hook. */
  function DueAt(f: Fund, e: Epoch): Due {
    if e < f.delay then Nothing
    else if f.interval == 0 then Fault
    else if (e - f.delay) % f.interval != 0 then Nothing
    else if e == f.delay then First
    else if f.times == 0 then Fault
    else Tranche
  }

  function AmountDue(f: Fund, e: Epoch): nat {
    if DueAt(f, e) == First then f.first else f.amount
  }

  /** With an approval in place the amount goes back to the approver, otherwise it becomes free. */
  function Released(s: State, e: Epoch, b: Account, v: nat): State {
    if (b, e) in s.approvals then
      var l := Repatriated(s.ledger, b, s.approvals[(b, e)], v);
      s.(approvals := s.approvals - {(b, e)}, ledger := if l.Some? then l.value else s.ledger)
    else s.(ledger := Unreserved(s.ledger, b, v))
  }

  function UnlockOne(s: State, e: Epoch, b: Account): State {
    if b !in s.vaults || DueAt(s.vaults[b], e) == Nothing || DueAt(s.vaults[b], e) == Fault then s
    else
      var f := s.vaults[b];
      var s1 := Released(s, e, b, AmountDue(f, e));
      if DueAt(f, e) == First then s1
      else if f.times == 1 then s1.(vaults := s.vaults - {b})
      else s1.(vaults := s.vaults[b := f.(times := f.times - 1)])
  }

  function UnlockAll(s: State, e: Epoch, order: seq<Account>): State {
    if order == [] then s else UnlockOne(UnlockAll(s, e, order[..|order| - 1]), e, order[|order| - 1])
  }

  predicate Faulty(s: State, e: Epoch) {
    exists b | b in s.vaults :: DueAt(s.vaults[b], e) == Fault
  }

  /** `order` lists the vaults, each once. */
  predicate StorageOrder(s: State, order: seq<Account>) {
    && (forall i, j | 0 <= i < j < |order| :: order[i] != order[j])
    && (forall b | b in s.vaults :: b in order) && (forall b | b in order :: b in s.vaults)
  }

  /** `on_initialize`: vaults are visited at every multiple of the epoch duration. */
  function NextBlock(s: State, order: seq<Account>): Attempt<State>
    requires s.duration > 0
  {
    var s1 := s.(now := s.now + 1);
    if s1.now % s.duration != 0 then Ok(s1)
    else if Faulty(s, EpochOf(s1)) then Err(Arithmetic)
    else Ok(UnlockAll(s1, EpochOf(s1), order))
  }

  // --- runs ---

  datatype Op =
    | Putting(seller: Account, b: Account, f: Fund, needApproval: bool)
    | Approving(who: Account, b: Account, e: Epoch)
    | Block(order: seq<Account>)
    | Elsewhere(ledger: Natives)

  ghost predicate KeepsReserved(l: Natives, l': Natives) {
    forall a: Account :: NativeAt(l, a).reserved <= NativeAt(l', a).reserved
  }

  lemma {:induction false} UnlockKeeps(s: State, e: Epoch, order: seq<Account>)
    ensures UnlockAll(s, e, order).duration == s.duration && UnlockAll(s, e, order).now == s.now
  {
    if order == [] {
    } else {
      UnlockKeeps(s, e, order[..|order| - 1]);
    }
  }

  lemma BlockKeepsDuration(s: State, order: seq<Account>)
    requires s.duration > 0 && NextBlock(s, order).Ok?
    ensures NextBlock(s, order).value.duration == s.duration
  {
    hide Faulty;
    UnlockKeeps(s.(now := s.now + 1), EpochOf(s.(now := s.now + 1)), order);
  }

  ghost function Step(s: State, op: Op): (s': State)
    requires s.duration > 0
    ensures s'.duration == s.duration
  {
    match op
    case Putting(seller, b, f, need) =>
      if PutIntoVault(s, seller, b, f, need).Ok? then PutIntoVault(s, seller, b, f, need).value else s
    case Approving(who, b, e) => if Approve(s, who, b, e).Ok? then Approve(s, who, b, e).value else s
    case Block(order) =>
      if StorageOrder(s, order) && NextBlock(s, order).Ok? then
        BlockKeepsDuration(s, order);
        NextBlock(s, order).value
      else s
    case Elsewhere(l) => if KeepsReserved(s.ledger, l) then s.(ledger := l) else s
  }

  ghost function Run(s: State, ops: seq<Op>): (s': State)
    requires s.duration > 0
    ensures s'.duration == s.duration
  {
    if ops == [] then s else Step(Run(s, ops[..|ops| - 1]), ops[|ops| - 1])
  }

  // --- one vault ---

  /** What concerns one beneficiary: its vault, the approvals on it and its reserved balance. */
  datatype View = View(fund: Option<Fund>, mine: map<(Account, Epoch), Account>, reserved: nat)

  function Mine(s: State, b: Account): map<(Account, Epoch), Account> {
    map k | k in s.approvals && k.0 == b :: s.approvals[k]
  }

  function ViewOf(s: State, b: Account): View {
    View(if b in s.vaults then Some(s.vaults[b]) else None, Mine(s, b), NativeAt(s.ledger, b).reserved)
  }

  /** The amounts a due payment sends to the beneficiary, back to the approver, or nowhere. */
  datatype Flow = Flow(paid: nat, returned: nat, stuck: nat)

  function FlowOf(v: View, b: Account, alive: set<Account>, e: Epoch): Flow {
    if v.fund.None? || DueAt(v.fund.value, e) == Nothing || DueAt(v.fund.value, e) == Fault then Flow(0, 0, 0)
    else
      var m := Min(AmountDue(v.fund.value, e), v.reserved);
      if (b, e) !in v.mine then Flow(m, 0, 0)
      else if v.mine[(b, e)] in alive && b in alive then Flow(0, m, 0)
      else Flow(0, 0, m)
  }

  /** The beneficiary's view after epoch `e`. */
  function After(v: View, b: Account, alive: set<Account>, e: Epoch): View {
    if v.fund.None? || DueAt(v.fund.value, e) == Nothing || DueAt(v.fund.value, e) == Fault then v
    else
      var f, fl := v.fund.value, FlowOf(v, b, alive, e);
      View(if DueAt(f, e) == First then v.fund
           else if f.times == 1 then None else Some(f.(times := f.times - 1)),
           v.mine - {(b, e)}, v.reserved - fl.paid - fl.returned)
  }

  lemma ReleasedMine(s: State, e: Epoch, b: Account, v: nat, c: Account)
    ensures Mine(Released(s, e, b, v), c) == if b == c then Mine(s, c) - {(c, e)} else Mine(s, c)
    ensures Released(s, e, b, v).vaults == s.vaults
  {
    var s' := Released(s, e, b, v);
    assert s'.approvals == s.approvals - {(b, e)};
    assert forall k | k in s.approvals && k.0 == c :: k == (k.0, k.1);
  }

  /** The ledger side of a release; nobody comes into being or goes. */
  lemma ReleasedReserved(s: State, e: Epoch, b: Account, v: nat, c: Account)
    ensures Released(s, e, b, v).ledger.Keys == s.ledger.Keys
    ensures var m := Min(v, NativeAt(s.ledger, b).reserved);
            NativeAt(Released(s, e, b, v).ledger, c).reserved
            == NativeAt(s.ledger, c).reserved
               - if b == c && ((b, e) !in s.approvals || (s.approvals[(b, e)] in s.ledger && b in s.ledger)) then m
                 else 0
  {
  }

  lemma UnlockOneView(s: State, e: Epoch, b: Account, c: Account)
    ensures ViewOf(UnlockOne(s, e, b), c) == if b == c then After(ViewOf(s, c), c, s.ledger.Keys, e) else ViewOf(s, c)
    ensures UnlockOne(s, e, b).ledger.Keys == s.ledger.Keys
  {
    hide Released, Mine, DueAt, AmountDue;
    if b in s.vaults && DueAt(s.vaults[b], e) != Nothing && DueAt(s.vaults[b], e) != Fault {
      var v := AmountDue(s.vaults[b], e);
      ReleasedMine(s, e, b, v, c);
      ReleasedReserved(s, e, b, v, c);
      MineAt(s, c);
      MineOnly(Released(s, e, b, v), UnlockOne(s, e, b), c);
    }
  }

  lemma MineAt(s: State, c: Account)
    ensures forall e: Epoch :: ((c, e) in Mine(s, c) <==> (c, e) in s.approvals)
    ensures forall e: Epoch | (c, e) in s.approvals :: Mine(s, c)[(c, e)] == s.approvals[(c, e)]
  {
  }

  lemma MineOnly(s: State, s': State, c: Account)
    requires s'.approvals == s.approvals
    ensures Mine(s', c) == Mine(s, c)
  {
  }

  lemma {:induction false} UnlockAllView(s: State, e: Epoch, order: seq<Account>, c: Account)
    requires forall i, j | 0 <= i < j < |order| :: order[i] != order[j]
    ensures ViewOf(UnlockAll(s, e, order), c)
            == if c in order then After(ViewOf(s, c), c, s.ledger.Keys, e) else ViewOf(s, c)
    ensures UnlockAll(s, e, order).ledger.Keys == s.ledger.Keys
  {
    hide UnlockOne, ViewOf, After;
    if order == [] {
    } else {
      var before, b := order[..|order| - 1], order[|order| - 1];
      UnlockAllView(s, e, before, c);
      UnlockOneView(UnlockAll(s, e, before), e, b, c);
      assert order == before + [b];
    }
  }
}
