/** Which token calls go through, why the others fail, and every balance and record afterwards. */
module TokenCalls {
  import opened Arith
  import opened Ledgers
  import opened Wrappers
  import opened Decimals
  import opened TokenLedger

  // --- amounts ---

  lemma TenTo18()
    ensures Pow10(0) == 1 && Pow10(18) == QUINTILL
    ensures forall n: nat :: Pow10(n + 1) == 10 * Pow10(n)
  {
    assert Pow10(6) == 1_000_000;
    assert Pow10(12) == 1_000_000_000_000;
  }

  /** External amounts of up to eighteen decimals are multiplied by the missing powers of ten and must fit; of more
      decimals the whole units are kept. */
  lemma StandardIs(amount: nat, d: nat)
    ensures d <= 18 ==>
              Standardised(amount, d)
              == if amount * Pow10(18 - d) <= U128_MAX then Some(amount * Pow10(18 - d)) else None
    ensures d > 18 ==>
              && Standardised(amount, d).Some?
              && var u := Standardised(amount, d).value;
                 u * Pow10(d - 18) <= amount < u * Pow10(d - 18) + Pow10(d - 18)
  {
    if d > 18 {
      FloorBounds(amount, Pow10(d - 18));
    }
  }

  /** The other way round. */
  lemma ExternalIs(amount: nat, d: nat)
    ensures d > 18 ==>
              Externalised(amount, d)
              == if amount * Pow10(d - 18) <= U128_MAX then Some(amount * Pow10(d - 18)) else None
    ensures d <= 18 ==>
              && Externalised(amount, d).Some?
              && var e := Externalised(amount, d).value;
                 e * Pow10(18 - d) <= amount < e * Pow10(18 - d) + Pow10(18 - d)
  {
    if d <= 18 {
      FloorBounds(amount, Pow10(18 - d));
    }
  }

  // --- records ---

  /** Two to eight ASCII characters. */
  predicate Spelt(symbol: Bytes) {
    2 <= |symbol| <= 8 && forall c | c in symbol :: c < 128
  }

  /** A contract name of three to a hundred and nineteen bytes that is not in use, or an address of twenty. */
  predicate Addressed(s: State, x: XToken)
    requires x.Bridged?
  {
    if x.chain.Nep141? then 3 <= |x.contract| <= 119 && x.contract !in s.names else |x.contract| == 20
  }

  /** A token is recorded under the next id, with nothing issued and not as stable; the name of a NEAR contract leads to
      it from then on. */
  lemma CreateCall(s: State, x: XToken)
    ensures var r := Create(s, x);
            if x.Bridged? && x.decimals > 24 then r == Err(InvalidDecimals)
            else if !Spelt(x.symbol) then r == Err(InvalidTokenName)
            else if x.Bridged? && !Addressed(s, x) then r == Err(ContractError)
            else if s.next >= U32_MAX then r == Err(Overflow)
            else
              && r.Ok? && r.value.1 == s.next
              && var s' := r.value.0;
              && s' == s.(next := s.next + 1, tokens := s'.tokens, names := s'.names)
              && s'.tokens
                 == s.tokens[s.next := if x.FND10? then FND10(x.symbol, 0)
                                       else Bridged(x.chain, x.symbol, x.contract, 0, false, x.decimals)]
              && s'.names == if x.Bridged? && x.chain.Nep141? then s.names[x.contract := s.next] else s.names
  {
    assert (forall c | c in x.symbol :: c < 128) <==> forall i | 0 <= i < |x.symbol| :: x.symbol[i] < 128 by {
      assert forall i | 0 <= i < |x.symbol| :: x.symbol[i] in x.symbol;
    }
  }

  /** Only a bridged token can be marked stable, and nothing else about it changes. */
  lemma MarkCall(s: State, t: Token)
    ensures var r := MarkStable(s, t);
            if t in s.tokens && s.tokens[t].Bridged? then
              r == Ok(s.(tokens := s.tokens[t := Bridged(s.tokens[t].chain, s.tokens[t].symbol, s.tokens[t].contract,
                                                         s.tokens[t].total, true, s.tokens[t].decimals)]))
            else r == Err(TokenNotFound)
  {
  }

  // --- balances ---

  /** Only the account of `a` in token `t` has changed, and holds `now`; it is dropped if it holds nothing. */
  ghost predicate NowHolds(l: Ledger, l': Ledger, t: Token, a: Account, now: Balance) {
    && BalanceAt(l', t, a) == now
    && forall c: Token, e: Account | c != t || e != a ::
         BalanceAt(l', c, e) == BalanceAt(l, c, e) && ((c, e) in l' <==> (c, e) in l)
  }

  lemma PutHolds(l: Ledger, t: Token, a: Account, b: Balance)
    ensures NowHolds(l, Put(l, t, a, b), t, a, b)
    ensures (t, a) in Put(l, t, a, b) <==> b.free > 0 || b.reserved > 0
    ensures NowHolds(l, l[(t, a) := b], t, a, b)
  {
    forall c: Token, e: Account | c != t || e != a
      ensures (c, e) != (t, a)
    {
    }
  }

  /** Minting a bridged token adds the standardised amount to the total and to the beneficiary's free balance. */
  lemma MintCall(s: State, t: Token, who: Account, amount: nat)
    requires t in s.tokens ==> s.tokens[t].Bridged?
    ensures var r := Mint(s, t, who, amount);
            if amount == 0 then r == Ok(s)
            else if t !in s.tokens then r == Err(TokenNotFound)
            else
              var x, u, b := s.tokens[t], Standardised(amount, s.tokens[t].decimals), BalanceAt(s.balances, t, who);
              if u.None? then r == Err(Overflow)
              else if x.total + u.value > U128_MAX then r == Err(InsufficientBalance)
              else if u.value == 0 then r == Err(AmountZero)
              else if b.free + u.value > U128_MAX then r == Err(Overflow)
              else
                && r.Ok? && r.value == s.(tokens := r.value.tokens, balances := r.value.balances)
                && r.value.tokens
                   == s.tokens[t := Bridged(x.chain, x.symbol, x.contract, x.total + u.value, x.stable, x.decimals)]
                && NowHolds(s.balances, r.value.balances, t, who, Balance(b.free + u.value, b.reserved))
  {
    hide Standardised;
    if t in s.tokens && Standardised(amount, s.tokens[t].decimals).Some? {
      var b := BalanceAt(s.balances, t, who);
      PutHolds(s.balances, t, who, Balance(b.free + Standardised(amount, s.tokens[t].decimals).value, b.reserved));
    }
  }

  /** Burning takes the standardised amount from both, and drops an account that is left with nothing. */
  lemma BurnCall(s: State, t: Token, who: Account, amount: nat)
    requires t in s.tokens ==> s.tokens[t].Bridged?
    ensures var r := Burn(s, t, who, amount);
            if amount == 0 then r == Err(AmountZero)
            else if t !in s.tokens then r == Err(BalanceZero)
            else
              var x, u, b := s.tokens[t], Standardised(amount, s.tokens[t].decimals), BalanceAt(s.balances, t, who);
              if u.None? then r == Err(Overflow)
              else if x.total < u.value then r == Err(InsufficientBalance)
              else if u.value == 0 then r == Err(AmountZero)
              else if (t, who) !in s.balances then r == Err(BalanceZero)
              else if b.free < u.value then r == Err(InsufficientBalance)
              else
                && r.Ok? && r.value == s.(tokens := r.value.tokens, balances := r.value.balances)
                && r.value.tokens
                   == s.tokens[t := Bridged(x.chain, x.symbol, x.contract, x.total - u.value, x.stable, x.decimals)]
                && NowHolds(s.balances, r.value.balances, t, who, Balance(b.free - u.value, b.reserved))
                && ((t, who) in r.value.balances <==> u.value < b.free || b.reserved > 0)
  {
    hide Standardised, Put;
    if t in s.tokens && Standardised(amount, s.tokens[t].decimals).Some? {
      var b, u := BalanceAt(s.balances, t, who), Standardised(amount, s.tokens[t].decimals).value;
      if u <= b.free {
        PutHolds(s.balances, t, who, Balance(b.free - u, b.reserved));
      }
    }
  }

  function Gone(s: State, t: Token): TokenLedger.Error {
    if t == s.native then InsufficientBalance else BalanceZero
  }

  /** A transfer moves the amount between free balances; of nothing, or to oneself, it always works and moves
      nothing. */
  lemma TransferCall(s: State, from: Account, t: Token, v: nat, target: Account)
    ensures var r := Transfer(s, from, t, v, target);
            var b, c := BalanceAt(s.balances, t, from), BalanceAt(s.balances, t, target);
            if v == 0 || from == target then r == Ok(s)
            else if (t, from) !in s.balances then r == Err(Gone(s, t))
            else if b.free < v then r == Err(InsufficientBalance)
            else if c.free + v > U128_MAX then r == Err(Overflow)
            else
              && r.Ok? && r.value == s.(balances := r.value.balances)
              && BalanceAt(r.value.balances, t, from) == Balance(b.free - v, b.reserved)
              && BalanceAt(r.value.balances, t, target) == Balance(c.free + v, c.reserved)
              && ((t, from) in r.value.balances <==> v < b.free || b.reserved > 0)
              && forall e: Token, a: Account | e != t || (a != from && a != target) ::
                   BalanceAt(r.value.balances, e, a) == BalanceAt(s.balances, e, a)
  {
    hide Put;
    var b, c := BalanceAt(s.balances, t, from), BalanceAt(s.balances, t, target);
    if v <= b.free && from != target {
      var less := Balance(b.free - v, b.reserved);
      var l1 := Put(s.balances, t, from, less);
      PutHolds(s.balances, t, from, less);
      PutHolds(l1, t, target, Balance(c.free + v, c.reserved));
    }
  }

  /** Reserving and releasing move an amount between the two halves of one balance. */
  lemma ReserveCalls(s: State, t: Token, who: Account, v: nat)
    ensures var r, b := Reserve(s, t, who, v), BalanceAt(s.balances, t, who);
            if v == 0 then r == Ok(s)
            else if (t, who) !in s.balances then r == Err(Gone(s, t))
            else if b.free < v then r == Err(InsufficientBalance)
            else if b.reserved + v > U128_MAX then r == Err(Overflow)
            else
              && r.Ok? && r.value == s.(balances := r.value.balances)
              && NowHolds(s.balances, r.value.balances, t, who, Balance(b.free - v, b.reserved + v))
    ensures var r, b := Unreserve(s, t, who, v), BalanceAt(s.balances, t, who);
            if v == 0 then r == Ok(s)
            else if (t, who) !in s.balances then r == Err(Gone(s, t))
            else if b.reserved < v then r == Err(InsufficientBalance)
            else if b.free + v > U128_MAX then r == Err(Overflow)
            else
              && r.Ok? && r.value == s.(balances := r.value.balances)
              && NowHolds(s.balances, r.value.balances, t, who, Balance(b.free + v, b.reserved - v))
  {
    hide Put;
    var b := BalanceAt(s.balances, t, who);
    if v <= b.free {
      PutHolds(s.balances, t, who, Balance(b.free - v, b.reserved + v));
    }
    if v <= b.reserved {
      PutHolds(s.balances, t, who, Balance(b.free + v, b.reserved - v));
    }
  }

  /** To another account, a reserved amount can be moved if it is there and fits, natively only to an account that
      exists; it arrives on the chosen side. */
  lemma RepatriateCall(s: State, t: Token, slashed: Account, other: Account, v: nat, st: Status)
    requires slashed != other
    ensures var r := Repatriate(s, t, slashed, other, v, st);
            var b, c := BalanceAt(s.balances, t, slashed), BalanceAt(s.balances, t, other);
            var room := if st == Free then c.free + v <= U128_MAX && c.reserved <= U128_MAX
                        else c.reserved + v <= U128_MAX && c.free <= U128_MAX;
            if t == s.native && b.reserved < v then r == Err(InsufficientBalance)
            else if t == s.native && v == 0 then r == Ok(s)
            else if t == s.native && (t, other) !in s.balances then r == Err(DeadAccount)
            else if (t, slashed) !in s.balances then r == Err(Gone(s, t))
            else if b.reserved < v then r == Err(InsufficientBalance)
            else if !room then r == Err(Overflow)
            else
              && r.Ok? && r.value == s.(balances := r.value.balances)
              && BalanceAt(r.value.balances, t, slashed) == Balance(b.free, b.reserved - v)
              && BalanceAt(r.value.balances, t, other)
                 == (if st == Free then Balance(c.free + v, c.reserved) else Balance(c.free, c.reserved + v))
              && forall e: Token, a: Account | e != t || (a != slashed && a != other) ::
                   BalanceAt(r.value.balances, e, a) == BalanceAt(s.balances, e, a)
  {
    hide Put;
    var b, c := BalanceAt(s.balances, t, slashed), BalanceAt(s.balances, t, other);
    if v <= b.reserved {
      var less := Balance(b.free, b.reserved - v);
      var l1 := Put(s.balances, t, slashed, less);
      PutHolds(s.balances, t, slashed, less);
      PutHolds(l1, t, other, if st == Free then c.(free := c.free + v) else c.(reserved := c.reserved + v));
    }
  }

  /** To oneself it releases the amount, or, asked to stay reserved, does nothing in the native currency and reserves
      the amount once more in any other token. */
  lemma RepatriateSelfCall(s: State, t: Token, who: Account, v: nat, st: Status)
    ensures var r, short := Repatriate(s, t, who, who, v, st),
                            t == s.native && BalanceAt(s.balances, t, who).reserved < v;
            r == if short then Err(InsufficientBalance)
                 else if st == Free then Unreserve(s, t, who, v)
                 else if t == s.native then Ok(s)
                 else Reserve(s, t, who, v)
  {
    hide Reserve, Unreserve;
  }

  /** A closure over an account writes what it leaves, or fails as a whole. */
  lemma MutateCall(s: State, t: Token, who: Account, b: Attempt<Balance>)
    ensures var r := Mutate(s, t, who, b);
            if b.Err? then r == Err(b.error)
            else
              && r.Ok? && r.value == s.(balances := r.value.balances)
              && NowHolds(s.balances, r.value.balances, t, who, b.value)
              && ((t, who) in r.value.balances <==> b.value.free > 0 || b.value.reserved > 0)
  {
    hide Put;
    if b.Ok? {
      PutHolds(s.balances, t, who, b.value);
    }
  }
}
