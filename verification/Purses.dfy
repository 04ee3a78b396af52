/** Free balances of one token, and payments between them. */
module Purses {
  import opened Arith
  import opened Ledgers
  import opened Wrappers

  type Purse = map<Account, nat>

  datatype PayError = InsufficientBalance | Overflow

  function FreeOf(p: Purse, a: Account): nat {
    if a in p then p[a] else 0
  }

  /** `transfer_token`: nothing happens for a zero amount or between one and the same account. */
  function Pay(p: Purse, from: Account, recipient: Account, v: nat): Result<Purse, PayError> {
    if v == 0 || from == recipient then Ok(p)
    else if FreeOf(p, from) < v then Err(InsufficientBalance)
    else if FreeOf(p, recipient) + v > U128_MAX then Err(Overflow)
    else Ok(p[from := FreeOf(p, from) - v][recipient := FreeOf(p, recipient) + v])
  }

  lemma PayMoves(p: Purse, from: Account, recipient: Account, v: nat, a: Account)
    requires Pay(p, from, recipient, v).Ok?
    ensures FreeOf(Pay(p, from, recipient, v).value, a)
            == FreeOf(p, a) - (if a == from && from != recipient then v else 0)
               + (if a == recipient && from != recipient then v else 0)
  {
  }

  /** Every free balance after `v` has moved from one account to another; to itself, nothing moves. */
  ghost predicate Moves(p: Purse, p': Purse, from: Account, recipient: Account, v: nat) {
    forall a: Account ::
      FreeOf(p', a) == FreeOf(p, a) - (if a == from != recipient then v else 0)
                       + (if a == recipient != from then v else 0)
  }

  /** A payment to somebody else needs the funds and the room; any other moves nothing. */
  lemma PayCases(p: Purse, from: Account, recipient: Account, v: nat)
    ensures var r := Pay(p, from, recipient, v);
            if v > 0 && from != recipient && FreeOf(p, from) < v then r == Err(InsufficientBalance)
            else if v > 0 && from != recipient && FreeOf(p, recipient) + v > U128_MAX then r == Err(Overflow)
            else r.Ok? && Moves(p, r.value, from, recipient, v)
  {
  }
}
