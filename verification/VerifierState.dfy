/** The verifier pallet's storage and what each of its calls does to it. */
module VerifierState {
  import opened Arith
  import opened Ledgers
  import opened Wrappers
  import opened VerifierTypes
  import opened ProofChecks

  const UNSTAKE_DELAY_BLOCKS: nat := 57600

  datatype Error =
    | InvalidName | DominatorNotFound | DominatorAlreadyExists | TooEarlyToRegister | DominatorInactive
    | DominatorStatusInvalid | ProofsUnsatisfied | ReceiptNotExists | ReceiptAlreadyExists
    | InsufficientBalance | Overflow | InvalidStaking | LittleStakingAmount
    | UnsupportedQuoteCurrency | FeesTooHigh | RewardingFailed

  type Attempt<+T> = Result<T, Error>

  /** The pallet constants; `system` is the pallet's own account. */
  datatype Config = Config(
    grace: nat, duration: nat, minimalStake: nat, threshold: nat,
    maxMakerFee: nat, maxTakerFee: nat, native: Token, system: Account)

  datatype State = State(
    cfg: Config,
    now: Block,
    ledger: Ledger,
    dominators: map<Account, Dominator>,
    reserves: Reserves,
    receipts: map<(Account, Account), Receipt>,
    bonuses: map<(Account, Season), Bonus>,
    stakings: map<(Account, Account), Stake>,
    pending: map<(Block, Account), nat>)

  function BonusAt(b: map<(Account, Season), Bonus>, d: Account, k: Season): Bonus {
    if (d, k) in b then b[(d, k)] else Bonus(0, map[])
  }

  predicate IsEvicted(s: State, d: Account) {
    d in s.dominators && s.dominators[d].status == Evicted
  }

  function Held(s: State, b: Bucket, u: Account, t: Token, to: Account): nat {
    ReserveAt(s.reserves, RKey(b, u, t, to))
  }

  // --- balances and reserves ---

  /** `try_mutate_account(.., |b| b.0 += v)`. */
  function Credit(s: State, t: Token, a: Account, v: nat): Attempt<State> {
    var b := BalanceAt(s.ledger, t, a);
    if b.free + v > U128_MAX then Err(Overflow)
    else Ok(s.(ledger := s.ledger[(t, a) := Balance(b.free + v, b.reserved)]))
  }

  function Reserve(s: State, b: Bucket, u: Account, t: Token, v: nat, to: Account): Attempt<State> {
    var bal, k := BalanceAt(s.ledger, t, u), RKey(b, u, t, to);
    if v == 0 then Ok(s)
    else if bal.free < v then Err(InsufficientBalance)
    else if bal.reserved + v > U128_MAX || ReserveAt(s.reserves, k) + v > U128_MAX then Err(Overflow)
    else Ok(s.(ledger := s.ledger[(t, u) := Balance(bal.free - v, bal.reserved + v)],
               reserves := s.reserves[k := ReserveAt(s.reserves, k) + v]))
  }

  /** Unlike other tokens the native currency saturates instead of reporting an overflow. */
  function Unreserve(s: State, b: Bucket, u: Account, t: Token, v: nat, from: Account): Attempt<State> {
    var bal, k := BalanceAt(s.ledger, t, u), RKey(b, u, t, from);
    if v == 0 then Ok(s)
    else if bal.reserved < v || ReserveAt(s.reserves, k) < v then Err(InsufficientBalance)
    else if t != s.cfg.native && bal.free + v > U128_MAX then Err(Overflow)
    else Ok(s.(ledger := s.ledger[(t, u) := Balance(bal.free + v, bal.reserved - v)],
               reserves := s.reserves[k := ReserveAt(s.reserves, k) - v]))
  }

  /** `clear`: the authorizing reserve becomes `balance`, and the reserved balance follows it. */
  function Clear(s: State, who: Account, d: Account, t: Token, balance: nat): Attempt<State> {
    var bal, k := BalanceAt(s.ledger, t, who), RKey(ForAuthorizing, who, t, d);
    var held := ReserveAt(s.reserves, k);
    var rest := if bal.reserved >= held then bal.reserved - held else 0;
    if rest + balance > U128_MAX then Err(Overflow)
    else Ok(s.(ledger := s.ledger[(t, who) := Balance(bal.free, rest + balance)],
               reserves := s.reserves[k := balance]))
  }

  // --- seasons and shares ---

  function CurrentSeason(cfg: Config, now: Block, start: Block): Season {
    if now <= start || cfg.duration == 0 then 0 else (now - start) / cfg.duration
  }

  /** The share of one season's profit in one token that `stake` is entitled to. */
  function Share(stake: nat, b: Bonus, t: Token): nat {
    if b.staked == 0 || t !in b.profit then 0
    else MulNearest(FromRational(stake, b.staked), b.profit[t])
  }

  function AddShares(m: map<Token, nat>, stake: nat, b: Bonus): map<Token, nat> {
    if b.staked == 0 then m
    else map t | t in m.Keys + b.profit.Keys :: (if t in m then m[t] else 0) + Share(stake, b, t)
  }

  /** Per token, what the seasons `from..to` pay to `stake`. */
  function Shares(
    b: map<(Account, Season), Bonus>, d: Account, from: Season, until: Season, stake: nat): map<Token, nat>
    decreases until
  {
    if until <= from then map[] else AddShares(Shares(b, d, from, until - 1, stake), stake, BonusAt(b, d, until - 1))
  }

  function CreditAll(l: Ledger, x: Account, m: map<Token, nat>): Ledger {
    l + map t | t in m :: (t, x) := Balance(BalanceAt(l, t, x).free + m[t], BalanceAt(l, t, x).reserved)
  }

  /** Every token of `m` fits into the free balance of `x`. */
  predicate Creditable(l: Ledger, x: Account, m: map<Token, nat>) {
    forall t | t in m :: BalanceAt(l, t, x).free + m[t] <= U128_MAX
  }

  function TakeShares(s: State, x: Account, d: Account, from: Season, to: Season, stake: nat): Attempt<State> {
    var m := Shares(s.bonuses, d, from, to, stake);
    if Creditable(s.ledger, x, m)
    then Ok(s.(ledger := CreditAll(s.ledger, x, m)))
    else Err(Overflow)
  }

  function PutProfit(s: State, d: Account, k: Season, t: Token, v: nat): Attempt<State> {
    var b := BonusAt(s.bonuses, d, k);
    var p := if t in b.profit then b.profit[t] else 0;
    if v == 0 then Ok(s)
    else if p + v > U128_MAX then Err(Overflow)
    else Ok(s.(bonuses := s.bonuses[(d, k) := Bonus(b.staked, b.profit[t := p + v])]))
  }

  // --- dominators ---

  /** ASCII of two to thirty-two characters. */
  predicate ValidName(name: Name) {
    2 <= |name| <= 32 && forall c | c in name :: c < 128
  }

  predicate NameTaken(doms: map<Account, Dominator>, name: Name) {
    exists e | e in doms :: doms[e].name == name
  }

  function Register(s: State, d: Account, name: Name): Attempt<State> {
    if !ValidName(name) then Err(InvalidName)
    else if s.cfg.grace == 0 || s.now < s.cfg.grace then Err(TooEarlyToRegister)
    else if d in s.dominators then Err(DominatorAlreadyExists)
    else if NameTaken(s.dominators, name) then Err(InvalidName)
    else Ok(s.(dominators := s.dominators[d :=
                 Dominator(0, map[], s.now - s.now % s.cfg.grace, (0, s.now), Registered, name)]))
  }

  function Evict(s: State, d: Account): Attempt<State> {
    if d !in s.dominators then Err(DominatorNotFound)
    else Ok(s.(dominators := s.dominators[d := s.dominators[d].(status := Evicted)]))
  }

  function Launch(s: State, d: Account): Attempt<State> {
    if d !in s.dominators then Err(DominatorNotFound)
    else if s.dominators[d].status != Registered then Err(DominatorStatusInvalid)
    else Ok(s.(dominators := s.dominators[d := s.dominators[d].(status := Inactive)]))
  }

  // --- staking ---

  function StatusFor(cfg: Config, staked: nat): Status {
    if staked >= cfg.threshold then Active else Inactive
  }

  function StakeOn(s: State, x: Account, d: Account, v: nat): Attempt<State> {
    if v < s.cfg.minimalStake then Err(LittleStakingAmount)
    else if d !in s.dominators then Err(DominatorNotFound)
    else
      var dom := s.dominators[d];
      if dom.status != Active && dom.status != Inactive then Err(DominatorStatusInvalid)
      else
        var s1 :- Reserve(s, ForStaking, x, s.cfg.native, v, d);
        var k := CurrentSeason(s.cfg, s.now, dom.startFrom);
        var was := if (d, x) in s.stakings then s.stakings[(d, x)] else Stake(0, 0);
        var s2 :- if was.amount != 0 then TakeShares(s1, x, d, was.fromSeason, k, was.amount) else Ok(s1);
        if was.amount + v > U128_MAX || dom.staked + v > U128_MAX then Err(Overflow)
        else Ok(s2.(stakings := s.stakings[(d, x) := Stake(k, was.amount + v)],
                    dominators := s.dominators[d :=
                      dom.(staked := dom.staked + v, status := StatusFor(s.cfg, dom.staked + v))]))
  }

  /** The block at which an amount unstaked at `now` becomes free again. */
  function UnlockAt(cfg: Config, now: Block): Block
    requires cfg.grace > 0
  {
    now - now % cfg.grace + UNSTAKE_DELAY_BLOCKS
  }

  function QueueAt(s: State, at: Block, x: Account): nat {
    if (at, x) in s.pending then s.pending[(at, x)] else 0
  }

  function UnstakeFrom(s: State, x: Account, d: Account, v: nat): Attempt<State> {
    if d !in s.dominators then Err(DominatorNotFound)
    else
      var dom := s.dominators[d];
      if dom.status == Registered then Err(DominatorStatusInvalid)
      else if dom.staked < v then Err(InsufficientBalance)
      else if (d, x) !in s.stakings then Err(InvalidStaking)
      else
        var was := s.stakings[(d, x)];
        if was.amount < v then Err(InsufficientBalance)
        else if 0 < was.amount - v < s.cfg.minimalStake then Err(LittleStakingAmount)
        else
          var s1 :- Unreserve(s, ForStaking, x, s.cfg.native, v, d);
          var s2 :- Reserve(s1, ForPendingUnstake, x, s.cfg.native, v, s.cfg.system);
          if s.cfg.grace == 0 then Err(Overflow)
          else
            var k, at := CurrentSeason(s.cfg, s.now, dom.startFrom), UnlockAt(s.cfg, s.now);
            if QueueAt(s, at, x) + v > U128_MAX then Err(Overflow)
            else
              var s3 :- TakeShares(s2, x, d, was.fromSeason, k, was.amount);
              var left := was.amount - v;
              var status := if dom.status == Evicted then Evicted else StatusFor(s.cfg, dom.staked - v);
              Ok(s3.(pending := s.pending[(at, x) := QueueAt(s, at, x) + v],
                     stakings := if left == 0 then s.stakings - {(d, x)} else s.stakings[(d, x) := Stake(k, left)],
                     dominators := s.dominators[d := dom.(staked := dom.staked - v, status := status)]))
  }

  function ClaimShares(s: State, x: Account, d: Account): Attempt<State> {
    if d !in s.dominators then Err(DominatorNotFound)
    else if s.dominators[d].status == Registered then Err(DominatorStatusInvalid)
    else if (d, x) !in s.stakings then Err(InvalidStaking)
    else
      var was, k := s.stakings[(d, x)], CurrentSeason(s.cfg, s.now, s.dominators[d].startFrom);
      var s1 :- TakeShares(s, x, d, was.fromSeason, k, was.amount);
      Ok(s1.(stakings := s.stakings[(d, x) := Stake(k, was.amount)]))
  }

  // --- custody ---

  function AuthorizeTo(s: State, u: Account, d: Account, t: Token, v: nat): Attempt<State> {
    if d !in s.dominators then Err(DominatorNotFound)
    else if s.dominators[d].status != Active then Err(DominatorInactive)
    else if (d, u) in s.receipts then Err(ReceiptAlreadyExists)
    else if v > 0 && BalanceAt(s.ledger, t, u).free < v then Err(InsufficientBalance)
    else
      var s1 :- Reserve(s, ForStash, u, t, v, d);
      Ok(s1.(receipts := s.receipts[(d, u) := Authorize(t, v, s.now)]))
  }

  function RevokeFrom(s: State, u: Account, d: Account, t: Token, wanted: Option<nat>, callback: bool): Attempt<State> {
    var v := if wanted.Some? then wanted.value else Held(s, ForAuthorizing, u, t, d);
    if v == 0 then Ok(s)
    else if Held(s, ForAuthorizing, u, t, d) < v then Err(InsufficientBalance)
    else if d !in s.dominators then Err(DominatorNotFound)
    else if s.dominators[d].status == Registered then Err(DominatorStatusInvalid)
    else if s.dominators[d].status == Evicted then
      var stash := Held(s, ForStash, u, t, d);
      if Held(s, ForAuthorizing, u, t, d) + stash > U128_MAX then Err(Overflow)
      else
        var moved := s.reserves[RKey(ForStash, u, t, d) := 0]
                               [RKey(ForAuthorizing, u, t, d) := Held(s, ForAuthorizing, u, t, d) + stash];
        var s1 :- Unreserve(s.(reserves := moved), ForAuthorizing, u, t, v, d);
        Ok(s1.(receipts := s.receipts - {(d, u)}))
    else if (d, u) in s.receipts then Err(ReceiptAlreadyExists)
    else
      Ok(s.(receipts := s.receipts[(d, u) :=
              if callback then RevokeWithCallback(t, v, s.now) else Revoke(t, v, s.now)]))
  }

  // --- proofs ---

  /** The leaves' old values are what the known root holds. */
  predicate OldMatches(t: Tree, leaves: seq<Leaf>) {
    forall i | 0 <= i < |leaves| :: TreeAt(t, leaves[i].key) == (leaves[i].oldL, leaves[i].oldR)
  }

  /** The tree behind the new root. */
  function Updated(t: Tree, leaves: seq<Leaf>): Tree {
    if leaves == [] then t
    else
      var l := leaves[|leaves| - 1];
      Updated(t, leaves[..|leaves| - 1])[l.key := (l.newL, l.newR)]
  }

  /** Account leaves cleared one after the other. */
  function ClearLeaves(s: State, d: Account, ls: seq<Leaf>): Attempt<State> {
    if ls == [] then Ok(s)
    else
      var s1 :- ClearLeaves(s, d, ls[..|ls| - 1]);
      var l := ls[|ls| - 1];
      if l.key.AccountKey? then Clear(s1, l.key.who, d, l.key.token, l.NewSum()) else Err(ProofsUnsatisfied)
  }

  /** Half of the base fee, rounded up, goes to the broker if there is one, the rest to the beneficiary. */
  function SplitFee(s: State, base: Token, fee: nat, broker: Option<Account>, beneficiary: Account): Attempt<State> {
    if fee == 0 then Ok(s)
    else if broker.None? then Credit(s, base, beneficiary, fee)
    else
      var half := MulCeil(500_000, fee);
      var s1 :- Credit(s, base, broker.value, half);
      if fee < half then Err(Overflow) else Credit(s1, base, beneficiary, fee - half)
  }

  /** Outcomes of calls into other pallets: the fee beneficiary, whether the quote token is stable, whether
      rewarding succeeds. */
  datatype Outside = Outside(beneficiary: Account, quoteStable: bool, rewarded: bool)

  predicate FeesOk(cfg: Config, o: Order) {
    o.makerFee <= cfg.maxMakerFee && o.takerFee <= cfg.maxTakerFee
  }

  /** The order check of the given side; an accepted proof has the announced number of leaves. */
  predicate Accepts(r: Reserves, d: Account, o: Order, p: Proof, ask: bool): (ok: bool)
    ensures ok ==> Shape(p.leaves, p.makers, p.pages)
  {
    if ask then AskAccepts(r, d, o, p.makers, p.pages, p.leaves) else BidAccepts(r, d, o, p.makers, p.pages, p.leaves)
  }

  /** The maker and taker account slots. */
  function AccountSlots(p: Proof): seq<Leaf>
    requires Shape(p.leaves, p.makers, p.pages)
  {
    p.leaves[1..p.makers + 3]
  }

  function SettleOrder(
    s: State, d: Account, o: Order, broker: Option<Account>, ask: bool, p: Proof, x: Outside): Attempt<State>
    requires d in s.dominators
  {
    if !FeesOk(s.cfg, o) then Err(FeesTooHigh)
    else if !x.quoteStable then Err(UnsupportedQuoteCurrency)
    else if !Accepts(s.reserves, d, o, p, ask) then Err(ProofsUnsatisfied)
    else
      var c := ClearingOf(o, p.leaves, p.makers, ask);
      var s1 :- ClearLeaves(s, d, AccountSlots(p));
      if !x.rewarded then Err(RewardingFailed)
      else
        var s2 :- PutProfit(s1, d, CurrentSeason(s.cfg, s.now, s.dominators[d].startFrom), o.quote, c.quoteFee);
        SplitFee(s2, o.base, c.baseFee, broker, x.beneficiary)
  }

  predicate RevokesExactly(r: Receipt, t: Token, v: nat) {
    !r.Authorize? && r.token == t && r.amount == v
  }

  /** What the command of a proof does besides moving the root; the flag says whether the root moves. */
  function Execute(s: State, d: Account, p: Proof, x: Outside): Attempt<(State, bool)>
    requires d in s.dominators
  {
    match p.cmd
    case AskLimit(o, broker) =>
      var s1 :- SettleOrder(s, d, o, broker, true, p, x);
      Ok((s1, true))
    case BidLimit(o, broker) =>
      var s1 :- SettleOrder(s, d, o, broker, false, p, x);
      Ok((s1, true))
    case Cancel(base, quote) =>
      if CancelOk(base, quote, p.user, p.leaves) then Ok((s, true)) else Err(ProofsUnsatisfied)
    case TransferOut(t, v) =>
      if (d, p.user) !in s.receipts || !RevokesExactly(s.receipts[(d, p.user)], t, v) then Err(ReceiptNotExists)
      else if !TransferOutOk(t, v, p.user, p.leaves) then Err(ProofsUnsatisfied)
      else
        var s1 :- Unreserve(s, ForAuthorizing, p.user, t, v, d);
        Ok((s1.(receipts := s.receipts - {(d, p.user)}), true))
    case TransferIn(t, v) =>
      if (d, p.user) !in s.receipts || !s.receipts[(d, p.user)].Authorize?
         || s.receipts[(d, p.user)].token != t || s.receipts[(d, p.user)].amount != v then Err(ReceiptNotExists)
      else if !TransferInOk(t, v, p.user, p.leaves) then Err(ProofsUnsatisfied)
      else
        var k := RKey(ForAuthorizing, p.user, t, d);
        if ReserveAt(s.reserves, k) + v > U128_MAX then Err(Overflow)
        else Ok((s.(reserves := s.reserves[RKey(ForStash, p.user, t, d) := 0][k := ReserveAt(s.reserves, k) + v],
                    receipts := s.receipts - {(d, p.user)}), true))
    case RejectTransferOut(t, v) =>
      if (d, p.user) !in s.receipts || !RevokesExactly(s.receipts[(d, p.user)], t, v) then Err(ReceiptNotExists)
      else if !RejectOutOk(t, v, p.user, p.leaves) then Err(ProofsUnsatisfied)
      else Ok((s.(receipts := s.receipts - {(d, p.user)}), false))
    case RejectTransferIn =>
      if (d, p.user) !in s.receipts then Ok((s, false))
      else if !s.receipts[(d, p.user)].Authorize? then Err(ReceiptNotExists)
      else Ok((s.(receipts := s.receipts - {(d, p.user)}), false))
  }

  /** `verify_and_update`. */
  function VerifyAndUpdate(s: State, d: Account, p: Proof, x: Outside): Attempt<State>
    requires d in s.dominators
  {
    if !OldMatches(s.dominators[d].tree, p.leaves) then Err(ProofsUnsatisfied)
    else
      var (s1, moves) :- Execute(s, d, p, x);
      if !moves then Ok(s1)
      else
        var dom := s.dominators[d];
        Ok(s1.(dominators := s.dominators[d :=
                 dom.(tree := Updated(dom.tree, p.leaves), sequence := (p.eventId, s.now))]))
  }

  /** `verify_batch`: all proofs of a batch, or none. */
  function VerifyBatch(s: State, d: Account, ps: seq<(Proof, Outside)>): Attempt<State> {
    if d !in s.dominators then Err(DominatorNotFound)
    else if ps == [] then Ok(s)
    else
      var s1 :- VerifyBatch(s, d, ps[..|ps| - 1]);
      var (p, x) := ps[|ps| - 1];
      if d in s1.dominators then VerifyAndUpdate(s1, d, p, x) else Err(DominatorNotFound)
  }

  /** The `verify` calls. */
  function Verify(s: State, d: Account, ps: seq<(Proof, Outside)>): Attempt<State> {
    if d in s.dominators && s.dominators[d].status != Active then Err(DominatorInactive)
    else VerifyBatch(s, d, ps)
  }

  // --- block hook ---

  /** A season of a dominator ends at block `at`. */
  predicate SeasonEnds(cfg: Config, at: Block, start: Block) {
    at > start && cfg.duration > 0 && (at - start) % cfg.duration == 0
  }

  function Snapshots(cfg: Config, at: Block, doms: map<Account, Dominator>): set<(Account, Season)> {
    set d | d in doms && SeasonEnds(cfg, at, doms[d].startFrom) :: (d, SeasonEnding(cfg, at, doms[d].startFrom))
  }

  function SeasonEnding(cfg: Config, at: Block, start: Block): Season {
    if CurrentSeason(cfg, at, start) == 0 then 0 else CurrentSeason(cfg, at, start) - 1
  }

  /** Total stakes written into the seasons that end at block `at`. */
  function Snapshot(s: State, at: Block): map<(Account, Season), Bonus> {
    var ending := Snapshots(s.cfg, at, s.dominators);
    map k | k in s.bonuses.Keys + ending ::
      if k in ending && k.0 in s.dominators then BonusAt(s.bonuses, k.0, k.1).(staked := s.dominators[k.0].staked)
      else BonusAt(s.bonuses, k.0, k.1)
  }

  /** Releases the queue entries of block `at` in storage order; an entry that fails stays reserved and is logged. */
  function Release(s: State, at: Block, order: seq<Account>): State {
    if order == [] then s
    else
      var s1 := Release(s, at, order[..|order| - 1]);
      var x := order[|order| - 1];
      var r := Unreserve(s1, ForPendingUnstake, x, s.cfg.native, QueueAt(s, at, x), s.cfg.system);
      if r.Ok? then r.value else s1
  }

  /** `order` lists the accounts queued at block `at`, each once. */
  predicate DrainOrder(s: State, at: Block, order: seq<Account>) {
    && (forall i, j | 0 <= i < j < |order| :: order[i] != order[j])
    && (forall i | 0 <= i < |order| :: (at, order[i]) in s.pending)
    && (forall k | k in s.pending && k.0 == at :: k.1 in order)
  }

  /** `on_initialize(now + 1)`. */
  function NextBlock(s: State, order: seq<Account>): State
    requires s.cfg.grace > 0
  {
    var at := s.now + 1;
    if at % s.cfg.grace != 0 then s.(now := at)
    else
      var drained := Release(s.(now := at), at, order);
      drained.(bonuses := Snapshot(s, at), pending := map k | k in s.pending && k.0 != at :: s.pending[k])
  }
}
