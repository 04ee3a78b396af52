/** One-step facts behind the loops of the verifier pallet: clearing, batches and the block hook. */
module PalletSteps {
  import opened Arith
  import opened Ledgers
  import opened Wrappers
  import opened VerifierTypes
  import opened ProofChecks
  import opened VerifierState
  import opened VerifierRuns

  /** Both account slots of every maker, cleared in order. */
  function ClearMakers(s: State, d: Account, base: Token, quote: Token, ms: seq<MakerMutation>): Attempt<State> {
    if ms == [] then Ok(s)
    else
      var s1 :- ClearMakers(s, d, base, quote, ms[..|ms| - 1]);
      var m := ms[|ms| - 1];
      var s2 :- Clear(s1, m.who, d, base, m.baseBalance);
      Clear(s2, m.who, d, quote, m.quoteBalance)
  }

  lemma NothingCleared(s: State, d: Account, base: Token, quote: Token, ms: seq<MakerMutation>)
    ensures ClearMakers(s, d, base, quote, ms[..0]) == Ok(s)
  {
  }

  function ClearAll(s: State, d: Account, o: Order, c: Clearing): Attempt<State> {
    var s1 :- ClearMakers(s, d, o.base, o.quote, c.makers);
    var s2 :- Clear(s1, c.taker.who, d, o.base, c.taker.baseBalance);
    Clear(s2, c.taker.who, d, o.quote, c.taker.quoteBalance)
  }

  function First<A, B>(r: Attempt<(A, B)>): Attempt<A> {
    if r.Ok? then Ok(r.value.0) else Err(r.error)
  }

  lemma {:induction false} ClearMakersStops(
    s: State, d: Account, base: Token, quote: Token, ms: seq<MakerMutation>, i: nat)
    requires i <= |ms| && ClearMakers(s, d, base, quote, ms[..i]).Err?
    ensures ClearMakers(s, d, base, quote, ms) == ClearMakers(s, d, base, quote, ms[..i])
  {
    hide Clear;
    if i == |ms| {
      assert ms[..i] == ms;
    } else {
      assert ms[..|ms| - 1][..i] == ms[..i];
      ClearMakersStops(s, d, base, quote, ms[..|ms| - 1], i);
    }
  }

  lemma ClearMakersStep(s: State, d: Account, base: Token, quote: Token, ms: seq<MakerMutation>, i: nat)
    requires i < |ms| && ClearMakers(s, d, base, quote, ms[..i]).Ok?
    ensures var s1 := Clear(ClearMakers(s, d, base, quote, ms[..i]).value, ms[i].who, d, base, ms[i].baseBalance);
            ClearMakers(s, d, base, quote, ms[..i + 1])
            == if s1.Err? then s1 else Clear(s1.value, ms[i].who, d, quote, ms[i].quoteBalance)
  {
    hide Clear;
    assert ms[..i + 1][..i] == ms[..i];
  }

  /** The entries of `all` that a loop with the keys `rest` still to visit has seen. */
  function Visited<K, T>(all: map<K, T>, rest: set<K>): map<K, T> {
    map k | k in all && k !in rest :: all[k]
  }

  lemma VisitStep<K, T>(all: map<K, T>, rest: set<K>, k: K)
    requires k in rest && k in all
    ensures k !in Visited(all, rest) && Visited(all, rest - {k}) == Visited(all, rest)[k := all[k]]
  {
  }

  lemma VisitEnds<K, T>(all: map<K, T>)
    ensures Visited(all, all.Keys) == map[] && Visited(all, {}) == all
  {
  }

  lemma LastOf<T>(s: seq<T>, i: nat)
    requires i < |s|
    ensures s[..i + 1][..i] == s[..i] && s[..i + 1][i] == s[i]
  {
  }

  lemma ClearTwoLeaves(s: State, d: Account, ls: seq<Leaf>)
    requires |ls| >= 2
    requires ls[|ls| - 1].key.AccountKey? && ls[|ls| - 2].key.AccountKey?
    ensures var b, q := ls[|ls| - 2], ls[|ls| - 1];
            ClearLeaves(s, d, ls)
            == (var s1 :- ClearLeaves(s, d, ls[..|ls| - 2]);
                var s2 :- Clear(s1, b.key.who, d, b.key.token, b.NewSum());
                Clear(s2, q.key.who, d, q.key.token, q.NewSum()))
  {
    hide Clear;
    var init := ls[..|ls| - 1];
    assert init[..|init| - 1] == ls[..|ls| - 2];
    assert ClearLeaves(s, d, init)
        == (var s1 :- ClearLeaves(s, d, ls[..|ls| - 2]);
            Clear(s1, ls[|ls| - 2].key.who, d, ls[|ls| - 2].key.token, ls[|ls| - 2].NewSum()));
  }

  /** The last maker's slots name one account, in base and quote; the makers before it are acceptable as well. */
  lemma LastMaker(r: Reserves, d: Account, o: Order, leaves: seq<Leaf>, n: nat, baseGrows: bool)
    requires 0 < n && 2 * n < |leaves| && MakersOk(r, d, o, leaves, n, baseGrows)
    ensures MakersOk(r, d, o, leaves, n - 1, baseGrows)
    ensures var b, q := leaves[2 * n - 1], leaves[2 * n];
            b.key == AccountKey(o.base, b.key.who) && q.key == AccountKey(o.quote, b.key.who)
  {
    assert AccountPair(r, d, o, leaves[2 * (n - 1) + 1], leaves[2 * (n - 1) + 2], baseGrows);
    PairKeys(r, d, o, leaves[2 * n - 1], leaves[2 * n], baseGrows);
  }

  /** The makers' leaves are cleared exactly as their mutations say. */
  lemma {:induction false} MakersClearLeaves(
    s: State, d: Account, r: Reserves, o: Order, leaves: seq<Leaf>, n: nat, baseGrows: bool)
    requires 2 * n < |leaves| && MakersOk(r, d, o, leaves, n, baseGrows)
    ensures ClearLeaves(s, d, leaves[1..2 * n + 1]) == ClearMakers(s, d, o.base, o.quote, Mutations(leaves, n))
  {
    hide Clear, MakersOk;
    if n == 0 {
      assert leaves[1..2 * n + 1] == [];
    } else {
      var ls, ms := leaves[1..2 * n + 1], Mutations(leaves, n);
      LastMaker(r, d, o, leaves, n, baseGrows);
      MakersClearLeaves(s, d, r, o, leaves, n - 1, baseGrows);
      assert ls[..|ls| - 2] == leaves[1..2 * (n - 1) + 1];
      assert ls[|ls| - 2] == leaves[2 * n - 1] && ls[|ls| - 1] == leaves[2 * n];
      ClearTwoLeaves(s, d, ls);
      assert ms[..|ms| - 1] == Mutations(leaves, n - 1);
    }
  }

  lemma PairKeys(r: Reserves, d: Account, o: Order, b: Leaf, q: Leaf, baseGrows: bool)
    requires AccountPair(r, d, o, b, q, baseGrows)
    ensures b.key == AccountKey(o.base, b.key.who) && q.key == AccountKey(o.quote, b.key.who)
  {
  }

  lemma AcceptedTaker(r: Reserves, d: Account, o: Order, p: Proof, ask: bool)
    requires Accepts(r, d, o, p, ask)
    ensures var b, q := p.leaves[p.makers + 1], p.leaves[p.makers + 2];
            b.key == AccountKey(o.base, b.key.who) && q.key == AccountKey(o.quote, b.key.who)
    ensures MakersOk(r, d, o, p.leaves, p.makers / 2, ask)
  {
    hide AskWalk, BidWalk, MakersOk;
  }

  /** Clearing the slots of an accepted order is clearing its makers, then its taker. */
  lemma SlotsAreClearing(s: State, d: Account, o: Order, p: Proof, ask: bool)
    requires Accepts(s.reserves, d, o, p, ask)
    ensures ClearLeaves(s, d, AccountSlots(p)) == ClearAll(s, d, o, ClearingOf(o, p.leaves, p.makers, ask))
  {
    hide Clear, Accepts, MakersOk, ClearLeaves;
    AcceptedTaker(s.reserves, d, o, p, ask);
    var ls := AccountSlots(p);
    MakersClearLeaves(s, d, s.reserves, o, p.leaves, p.makers / 2, ask);
    assert ls[..|ls| - 2] == p.leaves[1..p.makers + 1];
    assert ls[|ls| - 2] == p.leaves[p.makers + 1] && ls[|ls| - 1] == p.leaves[p.makers + 2];
    ClearTwoLeaves(s, d, ls);
  }

  // --- batches ---

  lemma EmptyBatch(s: State, d: Account, ps: seq<(Proof, Outside)>)
    ensures d in s.dominators ==> VerifyBatch(s, d, ps[..0]) == Ok(s)
    ensures d !in s.dominators ==> VerifyBatch(s, d, ps) == Err(DominatorNotFound)
  {
  }

  lemma {:induction false} BatchStops(s: State, d: Account, ps: seq<(Proof, Outside)>, i: nat)
    requires i <= |ps| && VerifyBatch(s, d, ps[..i]).Err?
    ensures VerifyBatch(s, d, ps) == VerifyBatch(s, d, ps[..i])
  {
    hide VerifyAndUpdate;
    if i == |ps| {
      assert ps[..i] == ps;
    } else {
      assert ps[..|ps| - 1][..i] == ps[..i];
      BatchStops(s, d, ps[..|ps| - 1], i);
    }
  }

  lemma BatchStep(s: State, d: Account, ps: seq<(Proof, Outside)>, i: nat)
    requires i < |ps| && d in s.dominators && VerifyBatch(s, d, ps[..i]).Ok?
    ensures d in VerifyBatch(s, d, ps[..i]).value.dominators
    ensures VerifyBatch(s, d, ps[..i + 1]) == VerifyAndUpdate(VerifyBatch(s, d, ps[..i]).value, d, ps[i].0, ps[i].1)
  {
    hide VerifyAndUpdate;
    assert ps[..i + 1][..i] == ps[..i];
    BatchFrame(s, d, ps[..i]);
  }

  // --- block hook ---

  /** One more dominator in the snapshot loop. */
  lemma SnapshotOne(s: State, at: Block, d: Account, dom: Dominator)
    requires d !in s.dominators
    ensures var k := (d, SeasonEnding(s.cfg, at, dom.startFrom));
            Snapshot(s.(dominators := s.dominators[d := dom]), at)
            == if SeasonEnds(s.cfg, at, dom.startFrom)
               then Snapshot(s, at)[k := BonusAt(Snapshot(s, at), k.0, k.1).(staked := dom.staked)]
               else Snapshot(s, at)
  {
    hide SeasonEnds, SeasonEnding;
    var more := s.dominators[d := dom];
    var old0, new0 := Snapshots(s.cfg, at, s.dominators), Snapshots(s.cfg, at, more);
    forall k: (Account, Season)
      ensures k in new0
              <==> k in old0
                   || (SeasonEnds(s.cfg, at, dom.startFrom) && k == (d, SeasonEnding(s.cfg, at, dom.startFrom)))
      ensures k in old0 ==> k.0 != d && k.0 in s.dominators
    {
      SnapshotsHas(s.cfg, at, s.dominators, k);
      SnapshotsHas(s.cfg, at, more, k);
    }
    SnapshotFrom(s, more, at, d, dom);
  }

  lemma SnapshotsHas(cfg: Config, at: Block, doms: map<Account, Dominator>, k: (Account, Season))
    ensures k in Snapshots(cfg, at, doms) <==>
            k.0 in doms && SeasonEnds(cfg, at, doms[k.0].startFrom) && k.1 == SeasonEnding(cfg, at, doms[k.0].startFrom)
  {
    hide SeasonEnds, SeasonEnding;
    assert k == (k.0, k.1);
  }

  lemma SnapshotFrom(s: State, more: map<Account, Dominator>, at: Block, d: Account, dom: Dominator)
    requires d !in s.dominators && more == s.dominators[d := dom]
    requires forall k | k in Snapshots(s.cfg, at, s.dominators) :: k.0 != d && k.0 in s.dominators
    requires forall k :: k in Snapshots(s.cfg, at, more) <==>
                         (k in Snapshots(s.cfg, at, s.dominators)
                          || (SeasonEnds(s.cfg, at, dom.startFrom) && k == (d, SeasonEnding(s.cfg, at, dom.startFrom))))
    ensures var k := (d, SeasonEnding(s.cfg, at, dom.startFrom));
            Snapshot(s.(dominators := more), at)
            == if SeasonEnds(s.cfg, at, dom.startFrom)
               then Snapshot(s, at)[k := BonusAt(Snapshot(s, at), k.0, k.1).(staked := dom.staked)]
               else Snapshot(s, at)
  {
    hide SeasonEnds, SeasonEnding, Snapshots;
  }

  lemma SnapshotTime(s: State, at: Block)
    ensures Snapshot(s.(now := at), at) == Snapshot(s, at)
  {
  }

  lemma SnapshotNone(s: State, at: Block)
    requires s.dominators == map[]
    ensures Snapshot(s, at) == s.bonuses
  {
  }

  /** The queue after the entries of `seen` at block `at` have been drained. */
  function Undrained(p: map<(Block, Account), nat>, at: Block, seen: seq<Account>): map<(Block, Account), nat> {
    map k | k in p && !(k.0 == at && k.1 in seen) :: p[k]
  }

  lemma UndrainedStep(s: State, at: Block, order: seq<Account>, i: nat)
    requires DrainOrder(s, at, order) && i < |order|
    ensures var p := Undrained(s.pending, at, order[..i]);
            && (at, order[i]) in p && p[(at, order[i])] == QueueAt(s, at, order[i])
            && Undrained(s.pending, at, order[..i + 1]) == p - {(at, order[i])}
  {
    LastOf(order, i);
    forall j | 0 <= j < i
      ensures order[j] != order[i]
    {
    }
  }

  lemma UndrainedEnds(s: State, at: Block, order: seq<Account>)
    requires DrainOrder(s, at, order)
    ensures Undrained(s.pending, at, order[..0]) == s.pending
    ensures Undrained(s.pending, at, order) == map k | k in s.pending && k.0 != at :: s.pending[k]
  {
  }

  /** The queue release does not look at seasons, nor at what the queue holds elsewhere. */
  lemma {:induction false} ReleaseApart(s: State, s': State, at: Block, order: seq<Account>)
    requires s'.cfg == s.cfg && s'.ledger == s.ledger && s'.reserves == s.reserves
    requires forall i | 0 <= i < |order| :: QueueAt(s', at, order[i]) == QueueAt(s, at, order[i])
    ensures var r, r' := Release(s, at, order), Release(s', at, order);
            r'.ledger == r.ledger && r'.reserves == r.reserves
  {
    hide Unreserve;
    if order == [] {
    } else {
      var before, x := order[..|order| - 1], order[|order| - 1];
      ReleaseApart(s, s', at, before);
      ReleaseFrame(s, at, before);
      ReleaseFrame(s', at, before);
      UnreserveApart(Release(s, at, before), Release(s', at, before), x, s.cfg.native, QueueAt(s, at, x), s.cfg.system);
    }
  }

  lemma UnreserveApart(s: State, s': State, x: Account, t: Token, v: nat, to: Account)
    requires s'.cfg == s.cfg && s'.ledger == s.ledger && s'.reserves == s.reserves
    ensures var r, r' := Unreserve(s, ForPendingUnstake, x, t, v, to), Unreserve(s', ForPendingUnstake, x, t, v, to);
            r.Ok? == r'.Ok? && (r.Ok? ==> r'.value.ledger == r.value.ledger && r'.value.reserves == r.value.reserves)
  {
  }
}
