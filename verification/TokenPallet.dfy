/** The token pallet as an object: storage in fields, updated in place. */
module TokenPallet {
  import opened Arith
  import opened Ledgers
  import opened Wrappers
  import opened Decimals
  import L = TokenLedger

  type Outcome = Result<Done, L.Error>

  class Pallet {
    const native: Token
    var next: nat
    var tokens: map<Token, L.XToken>
    var names: map<L.Bytes, Token>
    var balances: Ledger

    function Abs(): L.State
      reads this
    {
      L.State(native, next, tokens, names, balances)
    }

    constructor (l: Ledger)
      ensures Abs() == L.Genesis(l)
    {
      native, next, tokens, names, balances := 0, 1, map[], map[], l;
    }

    /** Rolls storage back to `s`. */
    method Restore(s: L.State)
      requires s.native == native
      modifies this
      ensures Abs() == s
    {
      next, tokens, names, balances := s.next, s.tokens, s.names, s.balances;
    }

    method Create(x: L.XToken) returns (r: Result<Token, L.Error>)
      modifies this
      ensures var spec := L.Create(old(Abs()), x);
              if spec.Ok? then spec.value.0 == Abs() && r == Ok(spec.value.1)
              else r == Err(spec.error) && Abs() == old(Abs())
    {
      if x.Bridged? && x.decimals > MAX_DECIMALS {
        return Err(L.InvalidDecimals);
      }
      if !L.NameOk(x.symbol) {
        return Err(L.InvalidTokenName);
      }
      if x.Bridged? && !L.ContractOk(Abs(), x) {
        return Err(L.ContractError);
      }
      if next + 1 > U32_MAX {
        return Err(L.Overflow);
      }
      var id := next;
      if x.Bridged? && x.chain == L.Nep141 {
        names := names[x.contract := id];
      }
      next := next + 1;
      tokens := tokens[id := if x.Bridged? then x.(total := 0, stable := false) else L.FND10(x.symbol, 0)];
      r := Ok(id);
    }

    method Unified(x: L.XToken, amount: nat) returns (u: L.Attempt<nat>)
      requires amount <= U128_MAX
      ensures u == L.Unified(x, amount)
    {
      if x.FND10? {
        return Ok(x.total);
      }
      var v := ToStandard(amount, x.decimals);
      u := if v.Some? then Ok(v.value) else Err(L.Overflow);
    }

    /** Writes an account back, or drops it when nothing is left. */
    method Put(t: Token, a: Account, b: Balance)
      modifies this`balances
      ensures balances == L.Put(old(balances), t, a, b)
    {
      if b.free == 0 && b.reserved == 0 {
        balances := balances - {(t, a)};
      } else {
        balances := balances[(t, a) := b];
      }
    }

    method Mint(t: Token, who: Account, amount: nat) returns (r: Outcome)
      requires amount <= U128_MAX
      modifies this
      ensures Did(old(Abs()), L.Mint(old(Abs()), t, who, amount), Abs(), r)
    {
      hide L.Unified;
      if amount == 0 {
        return Ok(Done);
      }
      if t !in tokens {
        return Err(L.TokenNotFound);
      }
      var x, b := tokens[t], BalanceAt(balances, t, who);
      var u := Unified(x, amount);
      if u.Err? {
        return Err(u.error);
      }
      if x.Bridged? {
        if x.total + u.value > U128_MAX {
          return Err(L.InsufficientBalance);
        }
        x := x.(total := x.total + u.value);
      }
      if u.value == 0 {
        return Err(L.AmountZero);
      }
      if b.free + u.value > U128_MAX {
        return Err(L.Overflow);
      }
      balances := balances[(t, who) := b.(free := b.free + u.value)];
      tokens := tokens[t := x];
      r := Ok(Done);
    }

    method Burn(t: Token, who: Account, amount: nat) returns (r: Outcome)
      requires amount <= U128_MAX
      modifies this
      ensures Did(old(Abs()), L.Burn(old(Abs()), t, who, amount), Abs(), r)
    {
      hide L.Unified, L.Put;
      if amount == 0 {
        return Err(L.AmountZero);
      }
      if t !in tokens {
        return Err(L.BalanceZero);
      }
      var x, b := tokens[t], BalanceAt(balances, t, who);
      var u := Unified(x, amount);
      if u.Err? {
        return Err(u.error);
      }
      if x.Bridged? {
        if x.total < u.value {
          return Err(L.InsufficientBalance);
        }
        x := x.(total := x.total - u.value);
      }
      if u.value == 0 {
        return Err(L.AmountZero);
      }
      if (t, who) !in balances {
        return Err(L.BalanceZero);
      }
      if b.free < u.value {
        return Err(L.InsufficientBalance);
      }
      Put(t, who, b.(free := b.free - u.value));
      tokens := tokens[t := x];
      r := Ok(Done);
    }

    method Transfer(from: Account, t: Token, amount: nat, target: Account) returns (r: Outcome)
      modifies this`balances
      ensures Did(old(Abs()), L.Transfer(old(Abs()), from, t, amount, target), Abs(), r)
    {
      hide L.Put;
      if amount == 0 || from == target {
        return Ok(Done);
      }
      var b, c := BalanceAt(balances, t, from), BalanceAt(balances, t, target);
      if (t, from) !in balances {
        return Err(L.Missing(Abs(), t));
      }
      if b.free < amount {
        return Err(L.InsufficientBalance);
      }
      if c.free + amount > U128_MAX {
        return Err(L.Overflow);
      }
      Put(t, from, b.(free := b.free - amount));
      balances := balances[(t, target) := c.(free := c.free + amount)];
      r := Ok(Done);
    }

    method Reserve(t: Token, who: Account, v: nat) returns (r: Outcome)
      modifies this`balances
      ensures Did(old(Abs()), L.Reserve(old(Abs()), t, who, v), Abs(), r)
    {
      if v == 0 {
        return Ok(Done);
      }
      if (t, who) !in balances {
        return Err(L.Missing(Abs(), t));
      }
      var b := balances[(t, who)];
      if b.free < v {
        return Err(L.InsufficientBalance);
      }
      if b.reserved + v > U128_MAX {
        return Err(L.Overflow);
      }
      balances := balances[(t, who) := Balance(b.free - v, b.reserved + v)];
      r := Ok(Done);
    }

    method Unreserve(t: Token, who: Account, v: nat) returns (r: Outcome)
      modifies this`balances
      ensures Did(old(Abs()), L.Unreserve(old(Abs()), t, who, v), Abs(), r)
    {
      if v == 0 {
        return Ok(Done);
      }
      if (t, who) !in balances {
        return Err(L.Missing(Abs(), t));
      }
      var b := balances[(t, who)];
      if b.reserved < v {
        return Err(L.InsufficientBalance);
      }
      if b.free + v > U128_MAX {
        return Err(L.Overflow);
      }
      balances := balances[(t, who) := Balance(b.free + v, b.reserved - v)];
      r := Ok(Done);
    }

    method Repatriate(t: Token, slashed: Account, beneficiary: Account, v: nat, st: L.Status) returns (r: Outcome)
      modifies this`balances
      ensures Did(old(Abs()), L.Repatriate(old(Abs()), t, slashed, beneficiary, v, st), Abs(), r)
    {
      hide L.Put, L.Reserve, L.Unreserve;
      var b, c := BalanceAt(balances, t, slashed), BalanceAt(balances, t, beneficiary);
      if t == native && b.reserved < v {
        return Err(L.InsufficientBalance);
      }
      if slashed == beneficiary {
        if st == L.Free {
          r := Unreserve(t, slashed, v);
        } else if t == native {
          r := Ok(Done);
        } else {
          r := Reserve(t, slashed, v);
        }
        return;
      }
      if t == native && v == 0 {
        return Ok(Done);
      }
      if t == native && (t, beneficiary) !in balances {
        return Err(L.DeadAccount);
      }
      if (t, slashed) !in balances {
        return Err(L.Missing(Abs(), t));
      }
      if b.reserved < v {
        return Err(L.InsufficientBalance);
      }
      var c' := if st == L.Free then c.(free := c.free + v) else c.(reserved := c.reserved + v);
      if c'.free > U128_MAX || c'.reserved > U128_MAX {
        return Err(L.Overflow);
      }
      Put(t, slashed, b.(reserved := b.reserved - v));
      balances := balances[(t, beneficiary) := c'];
      r := Ok(Done);
    }

    method MutateAccount(t: Token, who: Account, b: L.Attempt<Balance>) returns (r: Outcome)
      modifies this`balances
      ensures Did(old(Abs()), L.Mutate(old(Abs()), t, who, b), Abs(), r)
    {
      if b.Err? {
        return Err(b.error);
      }
      Put(t, who, b.value);
      r := Ok(Done);
    }
  }
}
