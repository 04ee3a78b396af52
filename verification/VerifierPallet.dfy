/** The verifier pallet as an object: storage in fields, calls that update them, errors that roll back. */
module VerifierPallet {
  import opened Arith
  import opened Ledgers
  import opened Wrappers
  import opened VerifierTypes
  import opened ProofChecks
  import V = VerifierState
  import Runs = VerifierRuns
  import Prover = ProofVerifier
  import Payouts
  import Steps = PalletSteps

  type Outcome = V.Attempt<Done>

  lemma CreditNone(l: Ledger, x: Account)
    ensures V.CreditAll(l, x, map[]) == l && V.Creditable(l, x, map[])
  {
  }

  lemma CreditAllAt(l: Ledger, x: Account, m: map<Token, nat>, k: (Token, Account))
    ensures k in V.CreditAll(l, x, m) <==> k in l || (k.1 == x && k.0 in m)
    ensures k in V.CreditAll(l, x, m) ==>
              V.CreditAll(l, x, m)[k]
              == if k.1 == x && k.0 in m
                 then Balance(BalanceAt(l, k.0, x).free + m[k.0], BalanceAt(l, k.0, x).reserved)
                 else l[k]
  {
    assert k == (k.0, k.1);
  }

  /** Crediting one more token. */
  lemma CreditOne(l: Ledger, x: Account, m: map<Token, nat>, t: Token, v: nat)
    requires t !in m
    ensures BalanceAt(V.CreditAll(l, x, m), t, x) == BalanceAt(l, t, x)
    ensures var b := BalanceAt(l, t, x);
            V.CreditAll(l, x, m[t := v]) == V.CreditAll(l, x, m)[(t, x) := Balance(b.free + v, b.reserved)]
  {
    hide V.CreditAll;
    CreditAllAt(l, x, m, (t, x));
    var b := BalanceAt(l, t, x);
    var one := V.CreditAll(l, x, m)[(t, x) := Balance(b.free + v, b.reserved)];
    forall k: (Token, Account)
      ensures k in V.CreditAll(l, x, m[t := v]) <==> k in one
      ensures k in one ==> V.CreditAll(l, x, m[t := v])[k] == one[k]
    {
      CreditAllAt(l, x, m, k);
      CreditAllAt(l, x, m[t := v], k);
      assert k == (k.0, k.1);
    }
  }

  /** `out` is `shares` plus one season's shares in every token but those in `left`. */
  ghost predicate Summed(out: map<Token, nat>, shares: map<Token, nat>, stake: nat, b: Bonus, left: set<Token>) {
    && out.Keys == shares.Keys + (b.profit.Keys - left)
    && forall t | t in out ::
         out[t] == Payouts.Get(shares, t) + if t in b.profit && t !in left then V.Share(stake, b, t) else 0
  }

  lemma SummedStep(out: map<Token, nat>, shares: map<Token, nat>, stake: nat, b: Bonus, left: set<Token>, t: Token)
    requires Summed(out, shares, stake, b, left) && t in left && t in b.profit
    ensures Summed(out[t := Payouts.Get(out, t) + V.Share(stake, b, t)], shares, stake, b, left - {t})
  {
    hide V.Share;
  }

  lemma CreditableOne(l: Ledger, x: Account, m: map<Token, nat>, t: Token, v: nat)
    requires t !in m && V.Creditable(l, x, m)
    ensures V.Creditable(l, x, m[t := v]) <==> BalanceAt(l, t, x).free + v <= U128_MAX
  {
    assert m[t := v][t] == v;
    forall j | j in m
      ensures m[t := v][j] == m[j] && BalanceAt(l, j, x).free + m[j] <= U128_MAX
    {
    }
  }

  lemma CreditableSub(l: Ledger, x: Account, m: map<Token, nat>, all: map<Token, nat>)
    requires m.Keys <= all.Keys && (forall t | t in m :: m[t] == all[t]) && V.Creditable(l, x, all)
    ensures V.Creditable(l, x, m)
  {
  }

  /** One round of the crediting loop. */
  lemma CreditStep(l: Ledger, x: Account, all: map<Token, nat>, rest: set<Token>, t: Token)
    requires t in rest && t in all && V.Creditable(l, x, Steps.Visited(all, rest))
    ensures var done, b := Steps.Visited(all, rest), BalanceAt(V.CreditAll(l, x, Steps.Visited(all, rest)), t, x);
            if b.free + all[t] > U128_MAX then !V.Creditable(l, x, all)
            else V.Creditable(l, x, Steps.Visited(all, rest - {t}))
                 && V.CreditAll(l, x, Steps.Visited(all, rest - {t}))
                    == V.CreditAll(l, x, done)[(t, x) := Balance(b.free + all[t], b.reserved)]
  {
    hide V.CreditAll, V.Creditable, BalanceAt;
    var done := Steps.Visited(all, rest);
    Steps.VisitStep(all, rest, t);
    CreditOne(l, x, done, t, all[t]);
    CreditableOne(l, x, done, t, all[t]);
    if V.Creditable(l, x, all) {
      CreditableSub(l, x, done[t := all[t]], all);
    }
  }

  lemma SummedAll(out: map<Token, nat>, shares: map<Token, nat>, stake: nat, b: Bonus)
    requires Summed(out, shares, stake, b, {}) && b.staked > 0
    ensures out == V.AddShares(shares, stake, b)
  {
    var all := V.AddShares(shares, stake, b);
    assert all.Keys == out.Keys;
    forall t | t in out
      ensures out[t] == all[t]
    {
      hide V.Share;
      assert V.Share(stake, b, t) == 0 || t in b.profit by {
        NoShare(stake, b, t);
      }
    }
  }

  lemma NothingAdded(shares: map<Token, nat>, stake: nat, b: Bonus)
    requires b.staked == 0
    ensures V.AddShares(shares, stake, b) == shares
  {
  }

  lemma NothingSummed(shares: map<Token, nat>, stake: nat, b: Bonus)
    ensures Summed(shares, shares, stake, b, b.profit.Keys)
  {
  }

  lemma NoShare(stake: nat, b: Bonus, t: Token)
    ensures t in b.profit || V.Share(stake, b, t) == 0
  {
  }

  class Pallet {
    const cfg: V.Config
    var now: Block
    var ledger: Ledger
    var dominators: map<Account, Dominator>
    var reserves: Reserves
    var receipts: map<(Account, Account), Receipt>
    var bonuses: map<(Account, Season), Bonus>
    var stakings: map<(Account, Account), Stake>
    var pending: map<(Block, Account), nat>

    function Abs(): V.State
      reads this
    {
      V.State(cfg, now, ledger, dominators, reserves, receipts, bonuses, stakings, pending)
    }

    constructor (c: V.Config, l: Ledger)
      ensures Abs() == Runs.Genesis(c, l)
    {
      cfg, now, ledger, dominators, reserves := c, 0, l, map[], map[];
      receipts, bonuses, stakings, pending := map[], map[], map[], map[];
    }

    /** Rolls storage back to `s`. */
    method Restore(s: V.State)
      requires s.cfg == cfg
      modifies this
      ensures Abs() == s
    {
      now, ledger, dominators, reserves := s.now, s.ledger, s.dominators, s.reserves;
      receipts, bonuses, stakings, pending := s.receipts, s.bonuses, s.stakings, s.pending;
    }

    // --- balances and reserves ---

    method Credit(t: Token, a: Account, v: nat) returns (r: Outcome)
      modifies this`ledger
      ensures Did(old(Abs()), V.Credit(old(Abs()), t, a, v), Abs(), r)
    {
      var b := BalanceAt(ledger, t, a);
      if b.free + v > U128_MAX {
        return Err(V.Overflow);
      }
      ledger := ledger[(t, a) := Balance(b.free + v, b.reserved)];
      r := Ok(Done);
    }

    method Reserve(b: Bucket, u: Account, t: Token, v: nat, recipient: Account) returns (r: Outcome)
      modifies this`ledger, this`reserves
      ensures Did(old(Abs()), V.Reserve(old(Abs()), b, u, t, v, recipient), Abs(), r)
    {
      if v == 0 {
        return Ok(Done);
      }
      var bal, k := BalanceAt(ledger, t, u), RKey(b, u, t, recipient);
      if bal.free < v {
        return Err(V.InsufficientBalance);
      }
      if bal.reserved + v > U128_MAX || ReserveAt(reserves, k) + v > U128_MAX {
        return Err(V.Overflow);
      }
      ledger := ledger[(t, u) := Balance(bal.free - v, bal.reserved + v)];
      reserves := reserves[k := ReserveAt(reserves, k) + v];
      r := Ok(Done);
    }

    method Unreserve(b: Bucket, u: Account, t: Token, v: nat, from: Account) returns (r: Outcome)
      modifies this`ledger, this`reserves
      ensures Did(old(Abs()), V.Unreserve(old(Abs()), b, u, t, v, from), Abs(), r)
    {
      hide BalanceAt, ReserveAt;
      if v == 0 {
        return Ok(Done);
      }
      var bal, k := BalanceAt(ledger, t, u), RKey(b, u, t, from);
      if bal.reserved < v || ReserveAt(reserves, k) < v {
        return Err(V.InsufficientBalance);
      }
      if t != cfg.native && bal.free + v > U128_MAX {
        return Err(V.Overflow);
      }
      ledger := ledger[(t, u) := Balance(bal.free + v, bal.reserved - v)];
      reserves := reserves[k := ReserveAt(reserves, k) - v];
      r := Ok(Done);
    }

    method Clear(who: Account, d: Account, t: Token, balance: nat) returns (r: Outcome)
      modifies this`ledger, this`reserves
      ensures Did(old(Abs()), V.Clear(old(Abs()), who, d, t, balance), Abs(), r)
    {
      var bal, k := BalanceAt(ledger, t, who), RKey(ForAuthorizing, who, t, d);
      var left := 0;
      if bal.reserved >= ReserveAt(reserves, k) {
        left := bal.reserved - ReserveAt(reserves, k);
      }
      if left + balance > U128_MAX {
        return Err(V.Overflow);
      }
      ledger := ledger[(t, who) := Balance(bal.free, left + balance)];
      reserves := reserves[k := balance];
      r := Ok(Done);
    }

    // --- shares ---

    /** Adds one season's shares, token by token. */
    method SumSeason(shares: map<Token, nat>, stake: nat, b: Bonus) returns (out: map<Token, nat>)
      ensures out == V.AddShares(shares, stake, b)
    {
      hide V.Share, V.AddShares, Summed;
      out := shares;
      if b.staked == 0 {
        assert out == V.AddShares(shares, stake, b) by {
          NothingAdded(shares, stake, b);
        }
        return;
      }
      var rest := b.profit.Keys;
      NothingSummed(shares, stake, b);
      while rest != {}
        invariant rest <= b.profit.Keys && Summed(out, shares, stake, b, rest)
        decreases |rest|
      {
        var t :| t in rest;
        SummedStep(out, shares, stake, b, rest, t);
        rest := rest - {t};
        out := out[t := Payouts.Get(out, t) + V.Share(stake, b, t)];
      }
      SummedAll(out, shares, stake, b);
    }

    method TakeShares(x: Account, d: Account, from: Season, until: Season, stake: nat) returns (r: Outcome)
      modifies this`ledger
      ensures Did(old(Abs()), V.TakeShares(old(Abs()), x, d, from, until, stake), Abs(), r)
    {
      hide V.AddShares, V.CreditAll, V.Creditable;
      var shares: map<Token, nat>, k := map[], from;
      while k < until
        invariant from <= k && (k <= until || k == from)
        invariant shares == V.Shares(bonuses, d, from, k, stake)
        invariant ledger == old(ledger)
      {
        shares := SumSeason(shares, stake, V.BonusAt(bonuses, d, k));
        k := k + 1;
      }
      assert shares == V.Shares(bonuses, d, from, until, stake);
      r := CreditShares(x, shares);
    }

    /** Credits every token of `shares` to `x`. */
    method CreditShares(x: Account, shares: map<Token, nat>) returns (r: Outcome)
      modifies this`ledger
      ensures if V.Creditable(old(ledger), x, shares) then r.Ok? && ledger == V.CreditAll(old(ledger), x, shares)
              else r == Err(V.Overflow) && ledger == old(ledger)
    {
      hide V.CreditAll, V.Creditable, BalanceAt, Steps.Visited;
      var start, rest := ledger, shares.Keys;
      CreditNone(ledger, x);
      Steps.VisitEnds(shares);
      while rest != {}
        invariant rest <= shares.Keys && V.Creditable(start, x, Steps.Visited(shares, rest))
        invariant ledger == V.CreditAll(start, x, Steps.Visited(shares, rest))
        decreases |rest|
      {
        var t :| t in rest;
        CreditStep(start, x, shares, rest, t);
        var b := BalanceAt(ledger, t, x);
        if b.free + shares[t] > U128_MAX {
          ledger := start;
          return Err(V.Overflow);
        }
        ledger := ledger[(t, x) := Balance(b.free + shares[t], b.reserved)];
        rest := rest - {t};
      }
      r := Ok(Done);
    }

    /** `pending_shares_of_dominator`: a running total over seasons and tokens; `None` when it overflows. */
    method PendingShares(d: Account, x: Account) returns (total: Option<nat>)
      ensures var k, s := Runs.SeasonOf(Abs(), d), Runs.StakingAt(Abs(), d, x);
              var due := if d !in dominators || dominators[d].startFrom == 0 || s.amount == 0 then 0
                         else Payouts.PendingTotal(bonuses, d, s.fromSeason, k, s.amount);
              total == if due <= U128_MAX then Some(due) else None
    {
      if d !in dominators || dominators[d].startFrom == 0 {
        return Some(0);
      }
      var k, s := V.CurrentSeason(cfg, now, dominators[d].startFrom), Runs.StakingAt(Abs(), d, x);
      if s.amount == 0 {
        return Some(0);
      }
      var sum, j := 0, s.fromSeason;
      while j < k
        invariant s.fromSeason <= j && (j <= k || j == s.fromSeason)
        invariant sum == Payouts.PendingTotal(bonuses, d, s.fromSeason, j, s.amount)
      {
        var part := SeasonTotal(s.amount, V.BonusAt(bonuses, d, j));
        sum := sum + part;
        j := j + 1;
      }
      assert sum == Payouts.PendingTotal(bonuses, d, s.fromSeason, k, s.amount);
      total := if sum <= U128_MAX then Some(sum) else None;
    }

    method SeasonTotal(stake: nat, b: Bonus) returns (sum: nat)
      ensures sum == if b.staked == 0 then 0 else Payouts.Sums.Sum(b.profit, Payouts.SeasonShare(stake, b))
    {
      sum := 0;
      if b.staked == 0 {
        return;
      }
      var rest := b.profit;
      while rest != map[]
        invariant rest.Keys <= b.profit.Keys && forall t | t in rest :: rest[t] == b.profit[t]
        invariant sum + Payouts.Sums.Sum(rest, Payouts.SeasonShare(stake, b))
                  == Payouts.Sums.Sum(b.profit, Payouts.SeasonShare(stake, b))
        decreases |rest|
      {
        hide V.Share;
        var t :| t in rest;
        Payouts.Sums.SumSplit(rest, t, Payouts.SeasonShare(stake, b));
        sum := sum + V.Share(stake, b, t);
        assert (rest - {t}).Keys == rest.Keys - {t};
        rest := rest - {t};
      }
    }

    method PutProfit(d: Account, k: Season, t: Token, v: nat) returns (r: Outcome)
      modifies this`bonuses
      ensures Did(old(Abs()), V.PutProfit(old(Abs()), d, k, t, v), Abs(), r)
    {
      if v == 0 {
        return Ok(Done);
      }
      var b := V.BonusAt(bonuses, d, k);
      var p := Payouts.Get(b.profit, t) + v;
      if p > U128_MAX {
        return Err(V.Overflow);
      }
      bonuses := bonuses[(d, k) := b.(profit := b.profit[t := p])];
      r := Ok(Done);
    }

    // --- dominators ---

    method Register(d: Account, name: Name) returns (r: Outcome)
      modifies this`dominators
      ensures Did(old(Abs()), V.Register(old(Abs()), d, name), Abs(), r)
    {
      if !V.ValidName(name) {
        return Err(V.InvalidName);
      }
      if cfg.grace == 0 || now < cfg.grace {
        return Err(V.TooEarlyToRegister);
      }
      if d in dominators {
        return Err(V.DominatorAlreadyExists);
      }
      if exists e | e in dominators :: dominators[e].name == name {
        return Err(V.InvalidName);
      }
      dominators := dominators[d := Dominator(0, map[], now - now % cfg.grace, (0, now), Registered, name)];
      r := Ok(Done);
    }

    method Evict(d: Account) returns (r: Outcome)
      modifies this`dominators
      ensures Did(old(Abs()), V.Evict(old(Abs()), d), Abs(), r)
    {
      if d !in dominators {
        return Err(V.DominatorNotFound);
      }
      dominators := dominators[d := dominators[d].(status := Evicted)];
      r := Ok(Done);
    }

    method Launch(d: Account) returns (r: Outcome)
      modifies this`dominators
      ensures Did(old(Abs()), V.Launch(old(Abs()), d), Abs(), r)
    {
      if d !in dominators {
        return Err(V.DominatorNotFound);
      }
      if dominators[d].status != Registered {
        return Err(V.DominatorStatusInvalid);
      }
      dominators := dominators[d := dominators[d].(status := Inactive)];
      r := Ok(Done);
    }

    // --- staking ---

    method StakeOn(x: Account, d: Account, v: nat) returns (r: Outcome)
      modifies this
      ensures Did(old(Abs()), V.StakeOn(old(Abs()), x, d, v), Abs(), r)
    {
      hide V.StakeOn;
      var before := Abs();
      r := TryStakeOn(x, d, v);
      if r.Err? {
        Restore(before);
      }
    }

    method TryStakeOn(x: Account, d: Account, v: nat) returns (r: Outcome)
      modifies this
      ensures Tried(V.StakeOn(old(Abs()), x, d, v), Abs(), r)
    {
      hide V.Reserve, V.TakeShares;
      if v < cfg.minimalStake {
        return Err(V.LittleStakingAmount);
      }
      if d !in dominators {
        return Err(V.DominatorNotFound);
      }
      var dom := dominators[d];
      if dom.status != Active && dom.status != Inactive {
        return Err(V.DominatorStatusInvalid);
      }
      r := Reserve(ForStaking, x, cfg.native, v, d);
      if r.Err? {
        return;
      }
      var k, was := V.CurrentSeason(cfg, now, dom.startFrom), Runs.StakingAt(Abs(), d, x);
      if was.amount != 0 {
        r := TakeShares(x, d, was.fromSeason, k, was.amount);
        if r.Err? {
          return;
        }
      }
      if was.amount + v > U128_MAX || dom.staked + v > U128_MAX {
        return Err(V.Overflow);
      }
      stakings := stakings[(d, x) := Stake(k, was.amount + v)];
      dominators := dominators[d := dom.(staked := dom.staked + v, status := V.StatusFor(cfg, dom.staked + v))];
      r := Ok(Done);
    }

    method UnstakeFrom(x: Account, d: Account, v: nat) returns (r: Outcome)
      modifies this
      ensures Did(old(Abs()), V.UnstakeFrom(old(Abs()), x, d, v), Abs(), r)
    {
      hide V.UnstakeFrom;
      var before := Abs();
      r := TryUnstakeFrom(x, d, v);
      if r.Err? {
        Restore(before);
      }
    }

    /** From the staking reserve into the pending one. */
    method MoveToPending(x: Account, d: Account, v: nat) returns (r: Outcome)
      modifies this`ledger, this`reserves
      ensures var s1 := V.Unreserve(old(Abs()), ForStaking, x, cfg.native, v, d);
              Tried(if s1.Err? then s1 else V.Reserve(s1.value, ForPendingUnstake, x, cfg.native, v, cfg.system),
                    Abs(), r)
    {
      hide V.Reserve, V.Unreserve;
      r := Unreserve(ForStaking, x, cfg.native, v, d);
      if r.Ok? {
        r := Reserve(ForPendingUnstake, x, cfg.native, v, cfg.system);
      }
    }

    method TryUnstakeFrom(x: Account, d: Account, v: nat) returns (r: Outcome)
      modifies this
      ensures Tried(V.UnstakeFrom(old(Abs()), x, d, v), Abs(), r)
    {
      hide V.Reserve, V.Unreserve, V.TakeShares, V.UnlockAt, V.StatusFor, V.CurrentSeason;
      if d !in dominators {
        return Err(V.DominatorNotFound);
      }
      var dom := dominators[d];
      if dom.status == Registered {
        return Err(V.DominatorStatusInvalid);
      }
      if dom.staked < v {
        return Err(V.InsufficientBalance);
      }
      if (d, x) !in stakings {
        return Err(V.InvalidStaking);
      }
      var was := stakings[(d, x)];
      if was.amount < v {
        return Err(V.InsufficientBalance);
      }
      if 0 < was.amount - v < cfg.minimalStake {
        return Err(V.LittleStakingAmount);
      }
      r := MoveToPending(x, d, v);
      if r.Err? {
        return;
      }
      if cfg.grace == 0 {
        return Err(V.Overflow);
      }
      var k, at := V.CurrentSeason(cfg, now, dom.startFrom), V.UnlockAt(cfg, now);
      var queued := V.QueueAt(Abs(), at, x);
      if queued + v > U128_MAX {
        return Err(V.Overflow);
      }
      r := TakeShares(x, d, was.fromSeason, k, was.amount);
      if r.Err? {
        return;
      }
      pending := pending[(at, x) := queued + v];
      if was.amount == v {
        stakings := stakings - {(d, x)};
      } else {
        stakings := stakings[(d, x) := Stake(k, was.amount - v)];
      }
      var status := if dom.status == Evicted then Evicted else V.StatusFor(cfg, dom.staked - v);
      dominators := dominators[d := dom.(staked := dom.staked - v, status := status)];
      r := Ok(Done);
    }

    method ClaimShares(x: Account, d: Account) returns (r: Outcome)
      modifies this
      ensures Did(old(Abs()), V.ClaimShares(old(Abs()), x, d), Abs(), r)
    {
      hide V.TakeShares;
      if d !in dominators {
        return Err(V.DominatorNotFound);
      }
      if dominators[d].status == Registered {
        return Err(V.DominatorStatusInvalid);
      }
      if (d, x) !in stakings {
        return Err(V.InvalidStaking);
      }
      var was, k := stakings[(d, x)], V.CurrentSeason(cfg, now, dominators[d].startFrom);
      r := TakeShares(x, d, was.fromSeason, k, was.amount);
      if r.Err? {
        return;
      }
      stakings := stakings[(d, x) := Stake(k, was.amount)];
      r := Ok(Done);
    }

    // --- custody ---

    method AuthorizeTo(u: Account, d: Account, t: Token, v: nat) returns (r: Outcome)
      modifies this
      ensures Did(old(Abs()), V.AuthorizeTo(old(Abs()), u, d, t, v), Abs(), r)
    {
      hide V.Reserve;
      if d !in dominators {
        return Err(V.DominatorNotFound);
      }
      if dominators[d].status != Active {
        return Err(V.DominatorInactive);
      }
      if (d, u) in receipts {
        return Err(V.ReceiptAlreadyExists);
      }
      if v > 0 && BalanceAt(ledger, t, u).free < v {
        return Err(V.InsufficientBalance);
      }
      r := Reserve(ForStash, u, t, v, d);
      if r.Err? {
        return;
      }
      receipts := receipts[(d, u) := Authorize(t, v, now)];
    }

    method RevokeFrom(u: Account, d: Account, t: Token, wanted: Option<nat>, callback: bool) returns (r: Outcome)
      modifies this
      ensures Did(old(Abs()), V.RevokeFrom(old(Abs()), u, d, t, wanted, callback), Abs(), r)
    {
      hide V.RevokeFrom;
      var before := Abs();
      r := TryRevokeFrom(u, d, t, wanted, callback);
      if r.Err? {
        Restore(before);
      }
    }

    method TryRevokeFrom(u: Account, d: Account, t: Token, wanted: Option<nat>, callback: bool) returns (r: Outcome)
      modifies this
      ensures Tried(V.RevokeFrom(old(Abs()), u, d, t, wanted, callback), Abs(), r)
    {
      hide V.Unreserve;
      var ks, ka := RKey(ForStash, u, t, d), RKey(ForAuthorizing, u, t, d);
      var held, stash := ReserveAt(reserves, ka), ReserveAt(reserves, ks);
      var v := if wanted.Some? then wanted.value else held;
      if v == 0 {
        return Ok(Done);
      }
      if held < v {
        return Err(V.InsufficientBalance);
      }
      if d !in dominators {
        return Err(V.DominatorNotFound);
      }
      if dominators[d].status == Registered {
        return Err(V.DominatorStatusInvalid);
      }
      if dominators[d].status == Evicted {
        if held + stash > U128_MAX {
          return Err(V.Overflow);
        }
        reserves := reserves[ks := 0][ka := held + stash];
        r := Unreserve(ForAuthorizing, u, t, v, d);
        if r.Err? {
          return;
        }
        receipts := receipts - {(d, u)};
      } else {
        if (d, u) in receipts {
          return Err(V.ReceiptAlreadyExists);
        }
        receipts := receipts[(d, u) := if callback then RevokeWithCallback(t, v, now) else Revoke(t, v, now)];
        r := Ok(Done);
      }
    }

    // --- proofs ---

    /** Clears both account slots of every maker, in order. */
    method ClearMakers(d: Account, base: Token, quote: Token, ms: seq<MakerMutation>) returns (r: Outcome)
      modifies this`ledger, this`reserves
      ensures Tried(Steps.ClearMakers(old(Abs()), d, base, quote, ms), Abs(), r)
    {
      hide V.Clear, Steps.ClearMakers;
      ghost var s := Abs();
      Steps.NothingCleared(s, d, base, quote, ms);
      for i := 0 to |ms|
        invariant Steps.ClearMakers(s, d, base, quote, ms[..i]) == Ok(Abs())
      {
        Steps.ClearMakersStep(s, d, base, quote, ms, i);
        r := Clear(ms[i].who, d, base, ms[i].baseBalance);
        if r.Ok? {
          r := Clear(ms[i].who, d, quote, ms[i].quoteBalance);
        }
        if r.Err? {
          Steps.ClearMakersStops(s, d, base, quote, ms, i + 1);
          return;
        }
      }
      assert ms[..|ms|] == ms;
      r := Ok(Done);
    }

    /** Half of the base fee, rounded up, to the broker if there is one; the rest to the beneficiary. */
    method SplitFee(base: Token, fee: nat, broker: Option<Account>, beneficiary: Account) returns (r: Outcome)
      modifies this`ledger
      ensures Tried(V.SplitFee(old(Abs()), base, fee, broker, beneficiary), Abs(), r)
    {
      hide V.Credit;
      if fee == 0 {
        return Ok(Done);
      }
      var left := fee;
      if broker.Some? {
        var half := MulCeil(500_000, fee);
        r := Credit(base, broker.value, half);
        if r.Err? {
          return;
        }
        if fee < half {
          return Err(V.Overflow);
        }
        left := fee - half;
      }
      r := Credit(base, beneficiary, left);
    }

    method ClearAll(d: Account, o: Order, c: Clearing) returns (r: Outcome)
      modifies this`ledger, this`reserves
      ensures Tried(Steps.ClearAll(old(Abs()), d, o, c), Abs(), r)
    {
      hide V.Clear, Steps.ClearMakers;
      r := ClearMakers(d, o.base, o.quote, c.makers);
      if r.Ok? {
        r := Clear(c.taker.who, d, o.base, c.taker.baseBalance);
      }
      if r.Ok? {
        r := Clear(c.taker.who, d, o.quote, c.taker.quoteBalance);
      }
    }

    /** The order commands: check, clear, book the quote fee, pay out the base fee. */
    method SettleOrder(d: Account, o: Order, broker: Option<Account>, ask: bool, p: Proof, x: V.Outside)
      returns (r: Outcome)
      requires d in dominators
      modifies this`ledger, this`reserves, this`bonuses
      ensures Tried(V.SettleOrder(old(Abs()), d, o, broker, ask, p, x), Abs(), r)
    {
      hide V.ClearLeaves, Steps.ClearAll, V.PutProfit, V.SplitFee, AskAccepts, BidAccepts, ClearingOf, V.CurrentSeason;
      if !V.FeesOk(cfg, o) {
        return Err(V.FeesTooHigh);
      }
      if !x.quoteStable {
        return Err(V.UnsupportedQuoteCurrency);
      }
      var checked: Option<Clearing>;
      if ask {
        checked := Prover.VerifyAskLimit(reserves, d, o, p.makers, p.pages, p.leaves);
      } else {
        checked := Prover.VerifyBidLimit(reserves, d, o, p.makers, p.pages, p.leaves);
      }
      if checked.None? {
        return Err(V.ProofsUnsatisfied);
      }
      var c := checked.value;
      Steps.SlotsAreClearing(Abs(), d, o, p, ask);
      r := ClearAll(d, o, c);
      if r.Err? {
        return;
      }
      if !x.rewarded {
        return Err(V.RewardingFailed);
      }
      r := PutProfit(d, V.CurrentSeason(cfg, now, dominators[d].startFrom), o.quote, c.quoteFee);
      if r.Err? {
        return;
      }
      r := SplitFee(o.base, c.baseFee, broker, x.beneficiary);
    }

    /** Runs the command of a proof; `moves` tells whether the root moves with it. */
    method Execute(d: Account, p: Proof, x: V.Outside) returns (r: Outcome, moves: bool)
      requires d in dominators
      modifies this`ledger, this`reserves, this`bonuses, this`receipts
      ensures var spec := V.Execute(old(Abs()), d, p, x);
              if spec.Ok? then r.Ok? && spec.value == (Abs(), moves) else r == Err(spec.error)
    {
      hide V.SettleOrder, V.Unreserve, CancelOk;
      moves := true;
      match p.cmd {
        case AskLimit(o, broker) =>
          r := SettleOrder(d, o, broker, true, p, x);
        case BidLimit(o, broker) =>
          r := SettleOrder(d, o, broker, false, p, x);
        case Cancel(base, quote) =>
          r := if CancelOk(base, quote, p.user, p.leaves) then Ok(Done) else Err(V.ProofsUnsatisfied);
        case TransferOut(t, v) =>
          if (d, p.user) !in receipts || !V.RevokesExactly(receipts[(d, p.user)], t, v) {
            return Err(V.ReceiptNotExists), true;
          }
          if !TransferOutOk(t, v, p.user, p.leaves) {
            return Err(V.ProofsUnsatisfied), true;
          }
          r := Unreserve(ForAuthorizing, p.user, t, v, d);
          receipts := receipts - {(d, p.user)};
        case TransferIn(t, v) =>
          r := TransferIn(d, t, v, p);
        case RejectTransferOut(t, v) =>
          moves := false;
          if (d, p.user) !in receipts || !V.RevokesExactly(receipts[(d, p.user)], t, v) {
            return Err(V.ReceiptNotExists), false;
          }
          if !RejectOutOk(t, v, p.user, p.leaves) {
            return Err(V.ProofsUnsatisfied), false;
          }
          receipts := receipts - {(d, p.user)};
          r := Ok(Done);
        case RejectTransferIn =>
          moves := false;
          if (d, p.user) !in receipts {
            return Ok(Done), false;
          }
          if !receipts[(d, p.user)].Authorize? {
            return Err(V.ReceiptNotExists), false;
          }
          receipts := receipts - {(d, p.user)};
          r := Ok(Done);
      }
    }

    /** From the stash into the authorizing bucket. */
    method TransferIn(d: Account, t: Token, v: u128, p: Proof) returns (r: Outcome)
      requires d in dominators && p.cmd == Command.TransferIn(t, v)
      modifies this`reserves, this`receipts
      ensures Tried(Steps.First(V.Execute(old(Abs()), d, p, V.Outside(0, true, true))), Abs(), r)
    {
      if (d, p.user) !in receipts || !receipts[(d, p.user)].Authorize?
         || receipts[(d, p.user)].token != t || receipts[(d, p.user)].amount != v {
        return Err(V.ReceiptNotExists);
      }
      if !TransferInOk(t, v, p.user, p.leaves) {
        return Err(V.ProofsUnsatisfied);
      }
      var k := RKey(ForAuthorizing, p.user, t, d);
      reserves := reserves[RKey(ForStash, p.user, t, d) := 0];
      if ReserveAt(reserves, k) + v > U128_MAX {
        return Err(V.Overflow);
      }
      reserves := reserves[k := ReserveAt(reserves, k) + v];
      receipts := receipts - {(d, p.user)};
      r := Ok(Done);
    }

    method VerifyAndUpdate(d: Account, p: Proof, x: V.Outside) returns (r: Outcome)
      requires d in dominators
      modifies this
      ensures Tried(V.VerifyAndUpdate(old(Abs()), d, p, x), Abs(), r)
    {
      hide V.Execute, V.Updated;
      if !V.OldMatches(dominators[d].tree, p.leaves) {
        return Err(V.ProofsUnsatisfied);
      }
      var moves;
      r, moves := Execute(d, p, x);
      if r.Ok? && moves {
        var dom := dominators[d];
        var tree := Rewrite(dom.tree, p.leaves);
        dominators := dominators[d := dom.(tree := tree, sequence := (p.eventId, now))];
      }
    }

    /** The tree behind the new root: the leaves' new values, written one by one. */
    method Rewrite(tree: Tree, leaves: seq<Leaf>) returns (out: Tree)
      ensures out == V.Updated(tree, leaves)
    {
      out := tree;
      for i := 0 to |leaves|
        invariant out == V.Updated(tree, leaves[..i])
      {
        Steps.LastOf(leaves, i);
        out := out[leaves[i].key := (leaves[i].newL, leaves[i].newR)];
      }
      assert leaves[..|leaves|] == leaves;
    }

    /** `verify`: all proofs of a batch, or none of them. */
    method Verify(d: Account, ps: seq<(Proof, V.Outside)>) returns (r: Outcome)
      modifies this
      ensures Did(old(Abs()), V.Verify(old(Abs()), d, ps), Abs(), r)
    {
      hide V.VerifyAndUpdate, V.VerifyBatch;
      var before := Abs();
      Steps.EmptyBatch(before, d, ps);
      if d !in dominators {
        return Err(V.DominatorNotFound);
      }
      if dominators[d].status != Active {
        return Err(V.DominatorInactive);
      }
      for i := 0 to |ps|
        invariant cfg == before.cfg && V.VerifyBatch(before, d, ps[..i]) == Ok(Abs())
      {
        Steps.BatchStep(before, d, ps, i);
        r := VerifyAndUpdate(d, ps[i].0, ps[i].1);
        if r.Err? {
          Steps.BatchStops(before, d, ps, i + 1);
          Restore(before);
          return;
        }
      }
      assert ps[..|ps|] == ps;
      r := Ok(Done);
    }

    // --- block hook ---

    /** Writes the stake of every dominator whose season ends at the current block into that season. */
    method SnapshotSeasons()
      modifies this`bonuses
      ensures Abs() == old(Abs()).(bonuses := V.Snapshot(old(Abs()), now))
    {
      hide V.Snapshot, V.SeasonEnds, V.SeasonEnding, Steps.Visited;
      ghost var s := Abs();
      var rest := dominators.Keys;
      Steps.VisitEnds(dominators);
      Steps.SnapshotNone(s.(dominators := Steps.Visited(dominators, rest)), now);
      while rest != {}
        invariant rest <= dominators.Keys && dominators == s.dominators
        invariant bonuses == V.Snapshot(s.(dominators := Steps.Visited(dominators, rest)), now)
        decreases |rest|
      {
        var d :| d in rest;
        var dom := dominators[d];
        Steps.VisitStep(dominators, rest, d);
        Steps.SnapshotOne(s.(dominators := Steps.Visited(dominators, rest)), now, d, dom);
        if V.SeasonEnds(cfg, now, dom.startFrom) {
          var k := V.SeasonEnding(cfg, now, dom.startFrom);
          bonuses := bonuses[(d, k) := V.BonusAt(bonuses, d, k).(staked := dom.staked)];
        }
        rest := rest - {d};
      }
    }

    /** Takes the queue entries of the current block, in storage order, and releases each that can be. */
    method DrainQueue(order: seq<Account>)
      requires V.DrainOrder(Abs(), now, order)
      modifies this`ledger, this`reserves, this`pending
      ensures var s := V.Release(old(Abs()), now, order);
              Abs() == s.(pending := map k | k in old(pending) && k.0 != now :: old(pending)[k])
    {
      hide V.Unreserve, Steps.Undrained;
      ghost var s := Abs();
      Steps.UndrainedEnds(s, now, order);
      for i := 0 to |order|
        invariant ledger == V.Release(s, now, order[..i]).ledger && reserves == V.Release(s, now, order[..i]).reserves
        invariant pending == Steps.Undrained(s.pending, now, order[..i])
      {
        Steps.LastOf(order, i);
        Steps.UndrainedStep(s, now, order, i);
        Runs.ReleaseFrame(s, now, order[..i]);
        var v := pending[(now, order[i])];
        pending := pending - {(now, order[i])};
        Steps.UnreserveApart(V.Release(s, now, order[..i]), Abs(), order[i], cfg.native, v, cfg.system);
        var r := Unreserve(ForPendingUnstake, order[i], cfg.native, v, cfg.system);
      }
      assert order[..|order|] == order;
      Runs.ReleaseFrame(s, now, order);
    }

    method OnInitialize(order: seq<Account>)
      requires cfg.grace > 0 && V.DrainOrder(Abs(), now + 1, order)
      modifies this
      ensures Abs() == V.NextBlock(old(Abs()), order)
    {
      hide V.Snapshot, V.Release;
      ghost var s := Abs();
      now := now + 1;
      if now % cfg.grace != 0 {
        return;
      }
      SnapshotSeasons();
      DrainQueue(order);
      Steps.ReleaseApart(s.(now := now), s.(now := now, bonuses := bonuses), now, order);
      Runs.ReleaseFrame(s.(now := now), now, order);
      Runs.ReleaseFrame(s.(now := now, bonuses := bonuses), now, order);
      Steps.SnapshotTime(s, now);
    }
  }
}
