/** Which deposits and withdrawals can be asked for, why the others are refused, and what they write. */
module CustodyCalls {
  import opened Arith
  import opened Ledgers
  import opened Wrappers
  import opened VerifierTypes
  import opened VerifierState
  import opened VerifierRuns
  import opened ProofCommands
  import opened StakingCalls

  /** An active dominator without an open request of the user takes any amount the user has free. */
  lemma AuthorizeCall(s: State, u: Account, d: Account, t: Token, v: nat)
    ensures var r, bal := AuthorizeTo(s, u, d, t, v), BalanceAt(s.ledger, t, u);
            if d !in s.dominators then r == Err(DominatorNotFound)
            else if s.dominators[d].status != Active then r == Err(DominatorInactive)
            else if (d, u) in s.receipts then r == Err(ReceiptAlreadyExists)
            else if bal.free < v then r == Err(InsufficientBalance)
            else if v > 0 && (bal.reserved + v > U128_MAX || Held(s, ForStash, u, t, d) + v > U128_MAX) then
              r == Err(Overflow)
            else r.Ok?
  {
    hide Reserve, ReserveAt, BalanceAt;
    ReserveCall(s, ForStash, u, t, v, d);
  }

  /** The amount moves from the free to the reserved balance and into the stash, under a receipt of this block. */
  lemma AuthorizeWrites(s: State, u: Account, d: Account, t: Token, v: nat)
    requires AuthorizeTo(s, u, d, t, v).Ok?
    ensures var s' := AuthorizeTo(s, u, d, t, v).value;
            && s' == s.(ledger := s'.ledger, reserves := s'.reserves,
                        receipts := s.receipts[(d, u) := Authorize(t, v, s.now)])
            && (forall c: Token, a: Account ::
                  var was, moved := BalanceAt(s.ledger, c, a), if c == t && a == u then v else 0;
                  && moved <= was.free
                  && BalanceAt(s'.ledger, c, a) == Balance(was.free - moved, was.reserved + moved))
            && (forall k: RKey ::
                  ReserveAt(s'.reserves, k)
                  == ReserveAt(s.reserves, k) + if k == RKey(ForStash, u, t, d) then v else 0)
  {
    hide Reserve, ReserveAt, BalanceAt;
    ReserveEffect(s, ForStash, u, t, v, d);
    forall c: Token, a: Account
      ensures var was, moved := BalanceAt(s.ledger, c, a), if c == t && a == u then v else 0;
              && moved <= was.free
              && BalanceAt(Reserve(s, ForStash, u, t, v, d).value.ledger, c, a)
                 == Balance(was.free - moved, was.reserved + moved)
    {
      ReserveBalance(s, ForStash, u, t, v, d, c, a);
    }
  }

  /** What a withdrawal asks for: the given amount, or all that is authorized. */
  function Wanted(s: State, u: Account, d: Account, t: Token, wanted: Option<nat>): nat {
    if wanted.Some? then wanted.value else Held(s, ForAuthorizing, u, t, d)
  }

  /** At most what is authorized can be asked back from a launched dominator: one that is not evicted must have no open
      request of the user, an evicted one pays at once, out of what is authorized and stashed. */
  lemma RevokeCall(s: State, u: Account, d: Account, t: Token, wanted: Option<nat>, callback: bool)
    ensures var r, v := RevokeFrom(s, u, d, t, wanted, callback), Wanted(s, u, d, t, wanted);
            var bal := BalanceAt(s.ledger, t, u);
            var held, stash := Held(s, ForAuthorizing, u, t, d), Held(s, ForStash, u, t, d);
            if v == 0 then r == Ok(s)
            else if held < v then r == Err(InsufficientBalance)
            else if d !in s.dominators then r == Err(DominatorNotFound)
            else if s.dominators[d].status == Registered then r == Err(DominatorStatusInvalid)
            else if s.dominators[d].status != Evicted then
              if (d, u) in s.receipts then r == Err(ReceiptAlreadyExists)
              else r == Ok(s.(receipts := s.receipts[(d, u) :=
                                if callback then RevokeWithCallback(t, v, s.now) else Revoke(t, v, s.now)]))
            else if held + stash > U128_MAX then r == Err(Overflow)
            else if bal.reserved < v then r == Err(InsufficientBalance)
            else if t != s.cfg.native && bal.free + v > U128_MAX then r == Err(Overflow)
            else
              && r.Ok?
              && r.value == s.(ledger := r.value.ledger, reserves := r.value.reserves,
                               receipts := s.receipts - {(d, u)})
  {
    hide BalanceAt;
  }

  /** Asked back from an evicted dominator, the amount moves from the reserved to the free balance, what was stashed
      counts as authorized from then on, and nothing else moves. */
  lemma EvictedPays(s: State, u: Account, d: Account, t: Token, wanted: Option<nat>, callback: bool)
    requires IsEvicted(s, d) && Wanted(s, u, d, t, wanted) > 0 && RevokeFrom(s, u, d, t, wanted, callback).Ok?
    ensures var s', v := RevokeFrom(s, u, d, t, wanted, callback).value, Wanted(s, u, d, t, wanted);
            && (forall c: Token, a: Account ::
                  var was, out := BalanceAt(s.ledger, c, a), if c == t && a == u then v else 0;
                  out <= was.reserved && BalanceAt(s'.ledger, c, a) == Balance(was.free + out, was.reserved - out))
            && (forall k: RKey ::
                  ReserveAt(s'.reserves, k)
                  == if k == RKey(ForStash, u, t, d) then 0
                     else ReserveAt(s.reserves, k)
                          + if k == RKey(ForAuthorizing, u, t, d) then Held(s, ForStash, u, t, d) - v else 0)
  {
    var v := Wanted(s, u, d, t, wanted);
    var moved := s.reserves[RKey(ForStash, u, t, d) := 0]
                           [RKey(ForAuthorizing, u, t, d) :=
                              Held(s, ForAuthorizing, u, t, d) + Held(s, ForStash, u, t, d)];
    var s0 := s.(reserves := moved);
    hide Unreserve, BalanceAt;
    UnreserveEffect(s0, ForAuthorizing, u, t, v, d);
    forall c: Token, a: Account
      ensures var was, out := BalanceAt(s.ledger, c, a), if c == t && a == u then v else 0;
              && out <= was.reserved
              && BalanceAt(Unreserve(s0, ForAuthorizing, u, t, v, d).value.ledger, c, a)
                 == Balance(was.free + out, was.reserved - out)
    {
      UnreserveBalance(s0, ForAuthorizing, u, t, v, d, c, a);
    }
  }
}
