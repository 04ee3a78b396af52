/** Free and reserved balances of accounts, per token. */
module Ledgers {
  import opened Sums

  type Account = nat
  type Token = nat

  /** Free and reserved balance of one account in one token. */
  datatype Balance = Balance(free: nat, reserved: nat) {
    function Total(): nat { free + reserved }
  }

  type Ledger = map<(Token, Account), Balance>

  function BalanceAt(l: Ledger, t: Token, a: Account): Balance {
    if (t, a) in l then l[(t, a)] else Balance(0, 0)
  }

  function Worth(t: Token, k: (Token, Account), b: Balance): nat {
    if k.0 == t then b.Total() else 0
  }

  function OfToken(t: Token): ((Token, Account), Balance) -> nat {
    (k: (Token, Account), b: Balance) => Worth(t, k, b)
  }

  /** Free plus reserved of all accounts. */
  ghost function Supply(l: Ledger, t: Token): nat {
    Sum(l, OfToken(t))
  }

  lemma SupplyPut(l: Ledger, c: Token, a: Account, b: Balance, t: Token)
    ensures var was := BalanceAt(l, c, a);
            Supply(l[(c, a) := b], t) + (if c == t then was.free + was.reserved else 0)
            == Supply(l, t) + (if c == t then b.free + b.reserved else 0)
  {
    SumPut(l, (c, a), b, OfToken(t));
  }

  lemma SupplyDrop(l: Ledger, c: Token, a: Account, t: Token)
    ensures Supply(l - {(c, a)}, t) + (if c == t then BalanceAt(l, c, a).Total() else 0) == Supply(l, t)
  {
    SumDrop(l, (c, a), OfToken(t));
  }
}
