/** What each command of a proof requires and changes, the root included. */
module ProofCommands {
  import opened Arith
  import opened Ledgers
  import opened Wrappers
  import opened VerifierTypes
  import opened ProofChecks
  import opened OrderAcceptance
  import opened VerifierState
  import opened VerifierRuns
  import opened Coupling

  // --- the root ---

  /** An accepted proof agrees with the known root in its old values; a proof that moves the root writes exactly its new
      values and its event, all others leave the dominators alone. */
  lemma RootMoves(s: State, d: Account, p: Proof, x: Outside)
    requires d in s.dominators && VerifyAndUpdate(s, d, p, x).Ok?
    ensures forall i | 0 <= i < |p.leaves| ::
              TreeAt(s.dominators[d].tree, p.leaves[i].key) == (p.leaves[i].oldL, p.leaves[i].oldR)
    ensures var doms := VerifyAndUpdate(s, d, p, x).value.dominators;
            if p.cmd.RejectTransferOut? || p.cmd.RejectTransferIn? then doms == s.dominators
            else
              && d in doms && doms == s.dominators[d := doms[d]]
              && doms[d] == s.dominators[d].(tree := doms[d].tree, sequence := (p.eventId, s.now))
              && (DistinctKeys(p.leaves) ==>
                    forall i | 0 <= i < |p.leaves| ::
                      TreeAt(doms[d].tree, p.leaves[i].key) == (p.leaves[i].newL, p.leaves[i].newR))
              && (forall k: Key | forall i | 0 <= i < |p.leaves| :: p.leaves[i].key != k ::
                    TreeAt(doms[d].tree, k) == TreeAt(s.dominators[d].tree, k))
  {
    hide Execute, Updated, DistinctKeys;
    ExecuteFrame(s, d, p, x);
    ExecuteMoves(s, d, p, x);
    var dom := s.dominators[d];
    if DistinctKeys(p.leaves) {
      forall i | 0 <= i < |p.leaves|
        ensures TreeAt(Updated(dom.tree, p.leaves), p.leaves[i].key) == (p.leaves[i].newL, p.leaves[i].newR)
      {
        UpdatedHit(dom.tree, p.leaves, i);
      }
    }
    forall k: Key | forall i | 0 <= i < |p.leaves| :: p.leaves[i].key != k
      ensures TreeAt(Updated(dom.tree, p.leaves), k) == TreeAt(dom.tree, k)
    {
      UpdatedMiss(dom.tree, p.leaves, k);
    }
  }

  /** A proof is refused when an old value is not what the known root holds, and otherwise exactly when its command
      is; the command decides balances, reserves, receipts and profits. */
  lemma CommandDecides(s: State, d: Account, p: Proof, x: Outside)
    requires d in s.dominators
    ensures var r, e, dom := VerifyAndUpdate(s, d, p, x), Execute(s, d, p, x), s.dominators[d];
            if exists i | 0 <= i < |p.leaves| ::
              TreeAt(dom.tree, p.leaves[i].key) != (p.leaves[i].oldL, p.leaves[i].oldR)
            then r == Err(ProofsUnsatisfied)
            else if e.Err? then r == Err(e.error)
            else
              && r.Ok?
              && r.value == e.value.0.(dominators := r.value.dominators)
  {
    hide Execute, Updated;
  }

  /** A batch is its proofs one after the other: the first failure is the failure of the batch. */
  lemma {:induction false} BatchSplit(
    s: State, d: Account, ps: seq<(Proof, Outside)>, qs: seq<(Proof, Outside)>)
    requires d in s.dominators
    ensures var r := VerifyBatch(s, d, ps);
            VerifyBatch(s, d, ps + qs) == if r.Err? then r else VerifyBatch(r.value, d, qs)
  {
    hide VerifyAndUpdate;
    var r := VerifyBatch(s, d, ps);
    if qs == [] {
      assert ps + qs == ps;
      if r.Ok? {
        BatchFrame(s, d, ps);
      }
    } else {
      var before := qs[..|qs| - 1];
      BatchSplit(s, d, ps, before);
      assert (ps + qs)[..|ps + qs| - 1] == ps + before;
      if r.Ok? {
        BatchFrame(s, d, ps);
      }
    }
  }

  lemma BatchOne(s: State, d: Account, p: Proof, x: Outside)
    requires d in s.dominators
    ensures VerifyBatch(s, d, [(p, x)]) == VerifyAndUpdate(s, d, p, x)
  {
    hide VerifyAndUpdate;
    var one := [(p, x)];
    assert one[..0] == [];
    assert VerifyBatch(s, d, one[..0]) == Ok(s);
  }

  /** Only an active dominator may verify. */
  lemma OnlyActive(s: State, d: Account, ps: seq<(Proof, Outside)>)
    ensures Verify(s, d, ps).Ok? ==> d in s.dominators && s.dominators[d].status == Active
    ensures d !in s.dominators ==> Verify(s, d, ps) == Err(DominatorNotFound)
    ensures d in s.dominators && s.dominators[d].status != Active ==> Verify(s, d, ps) == Err(DominatorInactive)
    ensures d in s.dominators && s.dominators[d].status == Active ==> Verify(s, d, ps) == VerifyBatch(s, d, ps)
  {
    hide VerifyAndUpdate;
  }

  // --- cancelling ---

  function Pow2(n: nat): (p: nat)
    ensures p > 0
  {
    if n == 0 then 1 else 2 * Pow2(n - 1)
  }

  /** Bit `k` of a number. */
  function Bit(a: nat, k: nat): nat {
    a / Pow2(k) % 2
  }

  lemma BitShift(a: nat, k: nat)
    ensures Bit(a, k + 1) == Bit(a / 2, k)
  {
    DivTwice(a, Pow2(k));
  }

  lemma DivTwice(a: nat, p: nat)
    requires p > 0
    ensures a / (2 * p) == a / 2 / p
  {
    var h, r := a / 2, a % 2;
    var q, m := h / p, h % p;
    assert a == q * (2 * p) + (2 * m + r) by {
      assert a == 2 * h + r && h == q * p + m;
      assert 2 * (q * p) == q * (2 * p);
    }
    DivModUnique(a, 2 * p, q, 2 * m + r);
  }

  lemma {:induction false} NoBits(k: nat)
    ensures Bit(0, k) == 0
  {
    SmallDiv(0, Pow2(k));
  }

  /** The test is the bitwise one: no bit is set in both numbers. */
  lemma {:induction false} DisjointBitsIff(a: nat, b: nat)
    ensures DisjointBits(a, b) <==> forall k: nat :: Bit(a, k) == 0 || Bit(b, k) == 0
    decreases a
  {
    hide Bit;
    forall k: nat ensures Bit(0, k) == 0 {
      NoBits(k);
    }
    if a != 0 && b != 0 {
      DisjointBitsIff(a / 2, b / 2);
      LowBit(a);
      LowBit(b);
      forall k: nat ensures Bit(a, k + 1) == Bit(a / 2, k) && Bit(b, k + 1) == Bit(b / 2, k) {
        BitShift(a, k);
        BitShift(b, k);
      }
      if forall k: nat :: Bit(a, k) == 0 || Bit(b, k) == 0 {
        forall k: nat ensures Bit(a / 2, k) == 0 || Bit(b / 2, k) == 0 {
          assert Bit(a, k + 1) == 0 || Bit(b, k + 1) == 0;
        }
        assert Bit(a, 0) == 0 || Bit(b, 0) == 0;
      }
      if DisjointBits(a, b) {
        forall k: nat ensures Bit(a, k) == 0 || Bit(b, k) == 0 {
          if k > 0 {
            assert Bit(a, k - 1 + 1) == Bit(a / 2, k - 1) && Bit(b, k - 1 + 1) == Bit(b / 2, k - 1);
          }
        }
      }
    }
  }

  lemma LowBit(a: nat)
    ensures Bit(a, 0) == a % 2
  {
    assert Pow2(0) == 1 && a / 1 == a;
  }

  /** A slot of the user whose available plus frozen amount stays what it is. */
  predicate Kept(l: Leaf, token: Token, user: Account) {
    l.key == AccountKey(token, user) && Before(l) == After(l) <= U128_MAX
  }

  /** When a cancel is accepted: the two book sizes fall by amounts without a common bit, not both zero, the user keeps
      what is owned in either token, and the page, at or beyond a best price, loses what its side of the book loses. */
  ghost predicate CancelTerms(base: Token, quote: Token, user: Account, ls: seq<Leaf>) {
    && |ls| == 5
    && (ls[0].key == BookKey(base, quote) || ls[0].key == BestKey(base, quote))
    && ls[0].newL <= ls[0].oldL && ls[0].newR <= ls[0].oldR
    && (var asks, bids := ls[0].oldL - ls[0].newL, ls[0].oldR - ls[0].newR;
        && 0 < asks + bids <= U128_MAX && (forall k: nat :: Bit(asks, k) == 0 || Bit(bids, k) == 0)
        && Kept(ls[1], base, user) && Kept(ls[2], quote, user)
        && ls[4].key.PageKey? && ls[4].key == PageKey(base, quote, ls[4].key.price)
        && (ls[3].oldL <= ls[4].key.price || ls[4].key.price <= ls[3].oldR)
        && Before(ls[4]) <= U128_MAX && After(ls[4]) <= U128_MAX
        && Before(ls[4]) == After(ls[4]) + if 0 < ls[3].oldL <= ls[4].key.price then asks else bids)
  }

  lemma CancelOkIff(base: Token, quote: Token, user: Account, ls: seq<Leaf>)
    ensures CancelOk(base, quote, user, ls) <==> CancelTerms(base, quote, user, ls)
  {
    hide DisjointBits, Bit;
    if |ls| == 5 && ls[0].newL <= ls[0].oldL && ls[0].newR <= ls[0].oldR {
      DisjointBitsIff(ls[0].oldL - ls[0].newL, ls[0].oldR - ls[0].newR);
      KeptIff(ls[1], base, user);
      KeptIff(ls[2], quote, user);
    }
  }

  lemma KeptIff(l: Leaf, token: Token, user: Account)
    ensures Kept(l, token, user) <==> Reshuffled(l, token, user)
  {
  }

  /** A cancel moves nothing but the root. */
  lemma CancelCommand(s: State, d: Account, p: Proof, x: Outside)
    requires d in s.dominators && p.cmd.Cancel?
    ensures Execute(s, d, p, x)
            == if CancelTerms(p.cmd.base, p.cmd.quote, p.user, p.leaves) then Ok((s, true)) else Err(ProofsUnsatisfied)
  {
    hide CancelOk, CancelTerms;
    CancelOkIff(p.cmd.base, p.cmd.quote, p.user, p.leaves);
  }

  // --- transfers ---

  /** The receipt of a withdrawal of `v`, with or without a callback. */
  predicate Withdraws(s: State, d: Account, u: Account, t: Token, v: nat) {
    && (d, u) in s.receipts
    && (var r := s.receipts[(d, u)]; r == Revoke(t, v, r.at) || r == RevokeWithCallback(t, v, r.at))
  }

  predicate Deposits(s: State, d: Account, u: Account, t: Token, v: nat) {
    (d, u) in s.receipts && s.receipts[(d, u)] == Authorize(t, v, s.receipts[(d, u)].at)
  }

  /** The only leaf is the account of `u`, whose available amount grows by `v` while the frozen amount stays. */
  predicate Enters(ls: seq<Leaf>, t: Token, u: Account, v: nat) {
    |ls| == 1 && ls[0].key == AccountKey(t, u) && ls[0].newL == ls[0].oldL + v && ls[0].newR == ls[0].oldR
  }

  /** The same with an available amount that falls by `v`. */
  predicate Exits(ls: seq<Leaf>, t: Token, u: Account, v: nat) {
    |ls| == 1 && ls[0].key == AccountKey(t, u) && ls[0].oldL == ls[0].newL + v && ls[0].newR == ls[0].oldR
  }

  /** A withdrawal needs its receipt, a leaf that gives up the amount, and the reserves; it turns exactly that much of
      the user's reserved balance and authorizing reserve into free balance, and the receipt is gone. */
  lemma TransferOutCommand(s: State, d: Account, p: Proof, x: Outside)
    requires d in s.dominators && p.cmd.TransferOut?
    ensures var t, v, u, r := p.cmd.currency, p.cmd.amount, p.user, Execute(s, d, p, x);
            var bal := BalanceAt(s.ledger, t, u);
            && (r == Err(ReceiptNotExists) <==> !Withdraws(s, d, u, t, v))
            && (r == Err(ProofsUnsatisfied) <==> Withdraws(s, d, u, t, v) && !Exits(p.leaves, t, u, v))
            && (r.Ok? <==>
                  && Withdraws(s, d, u, t, v) && Exits(p.leaves, t, u, v)
                  && (v > 0 ==>
                        && v <= Held(s, ForAuthorizing, u, t, d) && v <= bal.reserved
                        && (t == s.cfg.native || bal.free + v <= U128_MAX)))
            && (r.Ok? ==>
                  var (s', moves) := r.value;
                  && moves && s' == s.(ledger := s'.ledger, reserves := s'.reserves, receipts := s.receipts - {(d, u)})
                  && (forall c: Token, a: Account ::
                        var was, out := BalanceAt(s.ledger, c, a), if c == t && a == u then v else 0;
                        && out <= was.reserved
                        && BalanceAt(s'.ledger, c, a) == Balance(was.free + out, was.reserved - out))
                  && (forall k: RKey ::
                        ReserveAt(s'.reserves, k)
                        == ReserveAt(s.reserves, k) - if k == RKey(ForAuthorizing, u, t, d) then v else 0))
  {
    hide SettleOrder, CancelOk;
    var t, v, u := p.cmd.currency, p.cmd.amount, p.user;
    LeavesReceipt(s, d, u, t, v);
    UnreserveIff(s, ForAuthorizing, u, t, v, d);
    hide Unreserve, RevokesExactly, Withdraws, BalanceAt, ReserveAt;
    if Unreserve(s, ForAuthorizing, u, t, v, d).Ok? {
      UnreserveEffect(s, ForAuthorizing, u, t, v, d);
      forall c: Token, a: Account
        ensures var was, out := BalanceAt(s.ledger, c, a), if c == t && a == u then v else 0;
                && out <= was.reserved
                && BalanceAt(Unreserve(s, ForAuthorizing, u, t, v, d).value.ledger, c, a)
                  == Balance(was.free + out, was.reserved - out)
      {
        UnreserveBalance(s, ForAuthorizing, u, t, v, d, c, a);
      }
    }
  }

  lemma LeavesReceipt(s: State, d: Account, u: Account, t: Token, v: nat)
    ensures Withdraws(s, d, u, t, v) <==> (d, u) in s.receipts && RevokesExactly(s.receipts[(d, u)], t, v)
  {
  }

  lemma UnreserveIff(s: State, b: Bucket, u: Account, t: Token, v: nat, from: Account)
    ensures var r, bal := Unreserve(s, b, u, t, v, from), BalanceAt(s.ledger, t, u);
            && (r.Ok? <==>
                  (v > 0 ==>
                    && v <= Held(s, b, u, t, from) && v <= bal.reserved
                    && (t == s.cfg.native || bal.free + v <= U128_MAX)))
            && (r.Err? ==> r.error == InsufficientBalance || r.error == Overflow)
  {
  }

  /** What a release does to the balances. */
  lemma UnreserveBalance(s: State, b: Bucket, u: Account, t: Token, v: nat, from: Account, c: Token, a: Account)
    requires Unreserve(s, b, u, t, v, from).Ok?
    ensures var was, out := BalanceAt(s.ledger, c, a), if c == t && a == u then v else 0;
            && out <= was.reserved
            && BalanceAt(Unreserve(s, b, u, t, v, from).value.ledger, c, a)
               == Balance(was.free + out, was.reserved - out)
  {
    assert (c, a) == (t, u) || c != t || a != u;
  }

  /** A deposit needs its receipt and a leaf that gains the amount; the stash is emptied, the authorizing reserve grows
      by the amount, no balance changes, and the receipt is gone. */
  lemma TransferInCommand(s: State, d: Account, p: Proof, x: Outside)
    requires d in s.dominators && p.cmd.TransferIn?
    ensures var t, v, u, r := p.cmd.currency, p.cmd.amount, p.user, Execute(s, d, p, x);
            && (r == Err(ReceiptNotExists) <==> !Deposits(s, d, u, t, v))
            && (r == Err(ProofsUnsatisfied) <==> Deposits(s, d, u, t, v) && !Enters(p.leaves, t, u, v))
            && (r.Ok? <==>
                  && Deposits(s, d, u, t, v) && Enters(p.leaves, t, u, v)
                  && Held(s, ForAuthorizing, u, t, d) + v <= U128_MAX)
            && (r.Ok? ==>
                  var (s', moves) := r.value;
                  && moves && s' == s.(reserves := s'.reserves, receipts := s.receipts - {(d, u)})
                  && (forall k: RKey ::
                        ReserveAt(s'.reserves, k)
                        == if k == RKey(ForStash, u, t, d) then 0
                           else ReserveAt(s.reserves, k) + if k == RKey(ForAuthorizing, u, t, d) then v else 0))
  {
    hide SettleOrder, CancelOk, Unreserve;
  }

  /** A rejected withdrawal needs its receipt and shows that less than the amount is available; only the receipt
      goes. */
  lemma RejectOutCommand(s: State, d: Account, p: Proof, x: Outside)
    requires d in s.dominators && p.cmd.RejectTransferOut?
    ensures var t, v, u, r, ls := p.cmd.currency, p.cmd.amount, p.user, Execute(s, d, p, x), p.leaves;
            var short := |ls| == 1 && ls[0].key == AccountKey(t, u) && ls[0].oldL < v;
            if !Withdraws(s, d, u, t, v) then r == Err(ReceiptNotExists)
            else if !short then r == Err(ProofsUnsatisfied)
            else r == Ok((s.(receipts := s.receipts - {(d, u)}), false))
  {
    hide SettleOrder, CancelOk, Unreserve;
    LeavesReceipt(s, d, p.user, p.cmd.currency, p.cmd.amount);
  }

  /** A rejected deposit drops the receipt of one, if there is any, and refuses that of a withdrawal. */
  lemma RejectInCommand(s: State, d: Account, p: Proof, x: Outside)
    requires d in s.dominators && p.cmd.RejectTransferIn?
    ensures var u, r := p.user, Execute(s, d, p, x);
            if (d, u) !in s.receipts then r == Ok((s, false))
            else if exists t: Token, v: nat :: Withdraws(s, d, u, t, v) then r == Err(ReceiptNotExists)
            else r == Ok((s.(receipts := s.receipts - {(d, u)}), false))
  {
    hide SettleOrder, CancelOk, Unreserve;
    if (d, p.user) in s.receipts && !s.receipts[(d, p.user)].Authorize? {
      var r := s.receipts[(d, p.user)];
      assert Withdraws(s, d, p.user, r.token, r.amount);
    }
  }

  /** Orders do what settling them does, and move the root. */
  lemma OrderCommand(s: State, d: Account, p: Proof, x: Outside)
    requires d in s.dominators && (p.cmd.AskLimit? || p.cmd.BidLimit?)
    ensures var r, o := SettleOrder(s, d, p.cmd.order, p.cmd.broker, p.cmd.AskLimit?, p, x), Execute(s, d, p, x);
            if r.Err? then o == Err(r.error) else o == Ok((r.value, true))
  {
    hide SettleOrder;
  }
}
