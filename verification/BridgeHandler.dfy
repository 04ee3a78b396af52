/** The bridge handler: fees, burning and minting bridged tokens, locking and unlocking the native currency. */
module BridgeHandler {
  import opened Arith
  import opened Ledgers
  import opened Wrappers
  import opened Decimals
  import T = TokenLedger
  import TokenPallet

  datatype Error = InvalidResourceId | LessThanBridgingThreshold | OverTransferLimit | Overflow | NotWhitelisted
                 | Token(error: T.Error)

  type Attempt<+A> = Result<A, Error>

  function Lift<A>(r: T.Attempt<A>): Attempt<A> {
    if r.Ok? then Ok(r.value) else Err(Token(r.error))
  }

  function Fits(r: Option<nat>): Attempt<nat> {
    if r.Some? then Ok(r.value) else Err(Overflow)
  }

  // --- fee ---

  /** `calculate_bridging_fee`: the whole and the fractional part of `usd / price`, in 10^-18 units. */
  function FeeParts(usd: nat, price: nat): Option<nat> {
    if price == 0 || usd == 0 then Some(0)
    else Narrow(Times(Quotient(usd, price), QUINTILL) + FromRational(usd % price, price))
  }

  /** The fee is the exact quotient rounded down. */
  lemma FeeExact(usd: nat, price: nat)
    requires price > 0
    ensures FeeParts(usd, price) == Narrow(Quotient(Times(usd, QUINTILL), price))
  {
    var q, r := usd / price, usd % price;
    var f := r * QUINTILL / price;
    assert usd * QUINTILL == (q * QUINTILL + f) * price + r * QUINTILL % price by {
      assert usd == q * price + r;
      assert usd * QUINTILL == q * price * QUINTILL + r * QUINTILL;
      assert r * QUINTILL == f * price + r * QUINTILL % price;
      assert (q * QUINTILL + f) * price == q * price * QUINTILL + f * price;
    }
    DivModUnique(usd * QUINTILL, price, q * QUINTILL + f, r * QUINTILL % price);
    if usd == 0 {
      assert Times(usd, QUINTILL) == 0;
    }
  }

  // --- burning ---

  /** What a burn sends across and what it costs, all in standard units but `emitted`. */
  datatype Quote = Quote(amount: nat, emitted: nat, bridged: nat) {
    function Fee(): int { amount - bridged }
  }

  function QuoteOf(amount: nat, d: nat, fee: nat): Attempt<Quote> {
    var std :- Fits(Standardised(amount, d));
    if fee + fee > U128_MAX then Err(Overflow)
    else if std <= fee + fee then Err(LessThanBridgingThreshold)
    else
      var e :- Fits(Externalised(std - fee, d));
      var back :- Fits(Standardised(e, d));
      Ok(Quote(std, e, back))
  }

  /** `do_burn_assets` for the token the resource resolves to; `open` tells whether the target chain is whitelisted. */
  function BurnAssets(
    s: T.State, treasury: Account, who: Account, token: Option<Token>, amount: nat, fee: Option<nat>, open: bool)
    : Attempt<(T.State, nat)>
  {
    if token.None? then Err(InvalidResourceId)
    else
      var t := token.value;
      var d :- Lift(T.ExternalDecimals(s, t));
      var f :- Fits(fee);
      var q :- QuoteOf(amount, d, f);
      if q.Fee() < 0 then Err(Overflow)
      else
        var s1 :- Lift(T.Transfer(s, who, t, q.Fee(), treasury));
        var s2 :- Lift(T.Burn(s1, t, who, q.emitted));
        if open then Ok((s2, q.emitted)) else Err(NotWhitelisted)
  }

  /** The fee really taken covers the quoted fee and exceeds it by less than one external unit. */
  lemma QuoteBounds(amount: nat, d: nat, fee: nat)
    requires amount <= U128_MAX && QuoteOf(amount, d, fee).Ok?
    ensures var q := QuoteOf(amount, d, fee).value;
            && Standardised(amount, d) == Some(q.amount) && q.bridged == Standardised(q.emitted, d).value
            && fee <= q.Fee()
            && (if d < STANDARD_DECIMALS then q.Fee() < fee + Pow10(STANDARD_DECIMALS - d) else q.Fee() == fee)
  {
    hide Standardised, Externalised;
    RoundTripStd(amount, d);
    RoundTrip(Standardised(amount, d).value - fee, d);
  }

  lemma RoundTripStd(amount: nat, d: nat)
    requires amount <= U128_MAX && Standardised(amount, d).Some?
    ensures Standardised(amount, d).value <= U128_MAX
  {
    if d > STANDARD_DECIMALS {
      QuotientSmall(amount, Pow10(d - STANDARD_DECIMALS));
    }
  }

  /** The steps of an accepted burn. */
  lemma BurnSteps(s: T.State, treasury: Account, who: Account, t: Token, amount: nat, fee: nat)
    requires T.FundsEmpty(s) && amount <= U128_MAX
    requires BurnAssets(s, treasury, who, Some(t), amount, Some(fee), true).Ok?
    ensures t in s.tokens && s.tokens[t].Bridged? && t != s.native
    ensures var d := s.tokens[t].decimals;
            && QuoteOf(amount, d, fee).Ok?
            && var q := QuoteOf(amount, d, fee).value;
            && q.Fee() >= 0 && T.Transfer(s, who, t, q.Fee(), treasury).Ok?
            && var s1 := T.Transfer(s, who, t, q.Fee(), treasury).value;
            && T.Burn(s1, t, who, q.emitted).Ok?
            && BurnAssets(s, treasury, who, Some(t), amount, Some(fee), true)
               == Ok((T.Burn(s1, t, who, q.emitted).value, q.emitted))
  {
    hide Standardised, Externalised, T.Put;
  }

  /** One accepted transfer between two accounts of a bridged token. */
  lemma TransferMoves(s: T.State, from: Account, t: Token, v: nat, target: Account, a: Account)
    requires T.Transfer(s, from, t, v, target).Ok?
    ensures var s' := T.Transfer(s, from, t, v, target).value;
            && s' == s.(balances := s'.balances)
            && BalanceAt(s'.balances, t, a).free
               == BalanceAt(s.balances, t, a).free
                  - (if from != target && a == from then v else 0) + (if from != target && a == target then v else 0)
  {
  }

  lemma BurnMoves(s: T.State, t: Token, who: Account, amount: nat, a: Account)
    requires T.Burn(s, t, who, amount).Ok? && t in s.tokens && s.tokens[t].Bridged?
    ensures var s', u := T.Burn(s, t, who, amount).value, Standardised(amount, s.tokens[t].decimals);
            && u.Some? && u.value <= s.tokens[t].total
            && s'.tokens == s.tokens[t := s.tokens[t].(total := s.tokens[t].total - u.value)]
            && BalanceAt(s'.balances, t, a).free == BalanceAt(s.balances, t, a).free - (if a == who then u.value else 0)
  {
    hide Standardised;
  }

  /** An accepted burn: a sender other than the treasury pays exactly the standardised amount, and issuance falls by
      the value sent across. */
  lemma BurnExact(s: T.State, treasury: Account, who: Account, t: Token, amount: nat, fee: nat, a: Account)
    requires T.FundsEmpty(s) && amount <= U128_MAX
    requires BurnAssets(s, treasury, who, Some(t), amount, Some(fee), true).Ok?
    ensures var (s', emitted) := BurnAssets(s, treasury, who, Some(t), amount, Some(fee), true).value;
            var d := s.tokens[t].decimals;
            var std, value := Standardised(amount, d), Standardised(emitted, d);
            && std.Some? && value.Some? && value.value <= std.value
            && (var taken := std.value - value.value;
                && fee <= taken
                && (if d < STANDARD_DECIMALS then taken < fee + Pow10(STANDARD_DECIMALS - d) else taken == fee)
                && BalanceAt(s'.balances, t, a).free
                   == BalanceAt(s.balances, t, a).free
                      - (if a == who then value.value else 0)
                      - (if a == who && who != treasury then taken else 0)
                      + (if a == treasury && who != treasury then taken else 0))
            && T.TotalOf(s', t) == T.TotalOf(s, t) - value.value
  {
    hide BurnAssets, QuoteOf, Standardised, Externalised, T.Transfer, T.Burn, BalanceAt;
    BurnSteps(s, treasury, who, t, amount, fee);
    var d := s.tokens[t].decimals;
    var q := QuoteOf(amount, d, fee).value;
    QuoteBounds(amount, d, fee);
    var s1 := T.Transfer(s, who, t, q.Fee(), treasury).value;
    TransferMoves(s, who, t, q.Fee(), treasury, a);
    BurnMoves(s1, t, who, q.emitted, a);
  }

  /** No fee is taken exactly when none is quoted: then the converted amount is a whole number of external units. */
  lemma FreeQuote(amount: nat, d: nat, fee: nat)
    requires amount <= U128_MAX && QuoteOf(amount, d, fee).Ok?
    ensures QuoteOf(amount, d, fee).value.Fee() == 0 <==> fee == 0
  {
    QuoteBounds(amount, d, fee);
    if fee == 0 && d < STANDARD_DECIMALS {
      var p := Pow10(STANDARD_DECIMALS - d);
      DivModUnique(Times(amount, p), p, amount, 0);
    }
  }

  /** The sender is debited the standardised amount exactly when it is not the treasury, or no fee is quoted. */
  lemma DebitExact(s: T.State, treasury: Account, who: Account, t: Token, amount: nat, fee: nat)
    requires T.FundsEmpty(s) && amount <= U128_MAX
    requires BurnAssets(s, treasury, who, Some(t), amount, Some(fee), true).Ok?
    ensures var (s', _) := BurnAssets(s, treasury, who, Some(t), amount, Some(fee), true).value;
            var std := Standardised(amount, s.tokens[t].decimals);
            && std.Some?
            && (BalanceAt(s.balances, t, who).free - BalanceAt(s'.balances, t, who).free == std.value
                <==> who != treasury || fee == 0)
  {
    hide BurnAssets, Standardised, Externalised, BalanceAt, QuoteOf;
    BurnExact(s, treasury, who, t, amount, fee, who);
    BurnSteps(s, treasury, who, t, amount, fee);
    FreeQuote(amount, s.tokens[t].decimals, fee);
    QuoteBounds(amount, s.tokens[t].decimals, fee);
  }

  /** `do_mint_assets`. */
  function MintAssets(s: T.State, who: Account, token: Option<Token>, amount: nat): Attempt<T.State> {
    if token.None? then Err(InvalidResourceId) else Lift(T.Mint(s, token.value, who, amount))
  }

  /** Minting back what a burn has sent restores the issuance; it fails only when the account cannot hold it. */
  lemma BurnThenMint(
    s: T.State, treasury: Account, who: Account, t: Token, amount: nat, fee: nat, beneficiary: Account)
    requires T.FundsEmpty(s) && amount <= U128_MAX && T.TotalOf(s, t) <= U128_MAX
    requires BurnAssets(s, treasury, who, Some(t), amount, Some(fee), true).Ok?
    ensures var (s', emitted) := BurnAssets(s, treasury, who, Some(t), amount, Some(fee), true).value;
            var value := Standardised(emitted, s.tokens[t].decimals);
            var back := MintAssets(s', beneficiary, Some(t), emitted);
            && (back.Ok? <==> value.Some? && BalanceAt(s'.balances, t, beneficiary).free + value.value <= U128_MAX)
            && (back.Ok? ==> T.TotalOf(back.value, t) == T.TotalOf(s, t))
  {
    hide BurnAssets, Standardised, BalanceAt, T.Burn, T.Transfer, QuoteOf;
    BurnExact(s, treasury, who, t, amount, fee, who);
    BurnSteps(s, treasury, who, t, amount, fee);
    var d := s.tokens[t].decimals;
    var q := QuoteOf(amount, d, fee).value;
    var s1 := T.Transfer(s, who, t, q.Fee(), treasury).value;
    TransferMoves(s, who, t, q.Fee(), treasury, who);
    BurnMoves(s1, t, who, q.emitted, who);
    BurnPositive(s1, t, who, q.emitted);
  }

  lemma BurnPositive(s: T.State, t: Token, who: Account, amount: nat)
    requires T.Burn(s, t, who, amount).Ok? && t in s.tokens && s.tokens[t].Bridged?
    ensures amount > 0 && Standardised(amount, s.tokens[t].decimals) != Some(0)
  {
    hide Standardised, T.Put;
  }

  // --- the native currency ---

  /** `do_lock`: `cap` is a third of the native supply limit, when checked. */
  function Lock(
    s: T.State, treasury: Account, bridge: Account, who: Account, amount: nat, cap: Option<nat>, fee: Option<nat>,
    open: bool)
    : Attempt<(T.State, nat)>
  {
    var held := BalanceAt(s.balances, s.native, bridge).free + amount;
    if cap.Some? && held > U128_MAX then Err(Overflow)
    else if cap.Some? && held > cap.value then Err(OverTransferLimit)
    else
      var f :- Fits(fee);
      if f + f > U128_MAX then Err(Overflow)
      else if amount <= f + f then Err(LessThanBridgingThreshold)
      else
        var s1 :- Lift(T.Transfer(s, who, s.native, f, treasury));
        var s2 :- Lift(T.Transfer(s1, who, s.native, amount - f, bridge));
        if open then Ok((s2, amount - f)) else Err(NotWhitelisted)
  }

  /** `do_unlock`. */
  function Unlock(s: T.State, bridge: Account, beneficiary: Account, amount: nat): Attempt<T.State> {
    Lift(T.Transfer(s, bridge, s.native, amount, beneficiary))
  }

  /** A transfer of a bridged or native token between two accounts fails only for want of funds or of room. */
  lemma TransferRoom(s: T.State, from: Account, t: Token, v: nat, target: Account)
    requires from != target && v > 0
    ensures T.Transfer(s, from, t, v, target).Ok?
            <==> v <= BalanceAt(s.balances, t, from).free && BalanceAt(s.balances, t, target).free + v <= U128_MAX
  {
  }

  /** An accepted lock debits the sender the whole amount, gives the fee to the treasury and the rest to the bridge. */
  lemma LockMoves(
    s: T.State, treasury: Account, bridge: Account, who: Account, amount: nat, cap: Option<nat>, fee: nat, a: Account)
    requires treasury != bridge && who != bridge
    requires Lock(s, treasury, bridge, who, amount, cap, Some(fee), true).Ok?
    ensures var (s', emitted) := Lock(s, treasury, bridge, who, amount, cap, Some(fee), true).value;
            && s'.native == s.native && emitted + fee == amount && emitted > fee
            && (cap.Some? ==> BalanceAt(s'.balances, s.native, bridge).free + fee <= cap.value)
            && BalanceAt(s'.balances, s.native, a).free
               == BalanceAt(s.balances, s.native, a).free
                  + (if a == bridge then emitted else 0) + (if a == treasury && who != treasury then fee else 0)
                  - (if a == who then if who == treasury then emitted else amount else 0)
  {
    hide T.Transfer;
    var n := s.native;
    var s1 := T.Transfer(s, who, n, fee, treasury).value;
    TransferMoves(s, who, n, fee, treasury, a);
    TransferMoves(s, who, n, fee, treasury, bridge);
    TransferMoves(s1, who, n, amount - fee, bridge, a);
    TransferMoves(s1, who, n, amount - fee, bridge, bridge);
  }

  /** Unlocking what a lock has sent gives the bridge account back what it had; it fails only for want of room. */
  lemma LockThenUnlock(
    s: T.State, treasury: Account, bridge: Account, who: Account, amount: nat, cap: Option<nat>, fee: nat,
    beneficiary: Account)
    requires treasury != bridge && who != bridge && beneficiary != bridge
    requires Lock(s, treasury, bridge, who, amount, cap, Some(fee), true).Ok?
    ensures var (s', emitted) := Lock(s, treasury, bridge, who, amount, cap, Some(fee), true).value;
            var u := Unlock(s', bridge, beneficiary, emitted);
            && (u.Ok? <==> BalanceAt(s'.balances, s.native, beneficiary).free + emitted <= U128_MAX)
            && (u.Ok? ==>
                  && BalanceAt(u.value.balances, s.native, bridge).free == BalanceAt(s.balances, s.native, bridge).free
                  && BalanceAt(u.value.balances, s.native, beneficiary).free
                     == BalanceAt(s'.balances, s.native, beneficiary).free + emitted)
  {
    hide T.Transfer, Lock, BalanceAt;
    LockMoves(s, treasury, bridge, who, amount, cap, fee, bridge);
    var (s', emitted) := Lock(s, treasury, bridge, who, amount, cap, Some(fee), true).value;
    TransferRoom(s', bridge, s.native, emitted, beneficiary);
    if T.Transfer(s', bridge, s.native, emitted, beneficiary).Ok? {
      TransferMoves(s', bridge, s.native, emitted, beneficiary, bridge);
      TransferMoves(s', bridge, s.native, emitted, beneficiary, beneficiary);
    }
  }

  // --- the pallet ---

  class Handler {
    const ledger: TokenPallet.Pallet
    const treasury: Account
    const bridge: Account
    const maxNative: nat
    var nativeCheck: bool
    /** The bridging fee in USD of each target chain; two dollars unless set. */
    var usdFees: map<nat, nat>

    constructor (l: TokenPallet.Pallet, t: Account, b: Account, m: nat)
      ensures ledger == l && treasury == t && bridge == b && maxNative == m && !nativeCheck && usdFees == map[]
    {
      ledger, treasury, bridge, maxNative, nativeCheck, usdFees := l, t, b, m, false, map[];
    }

    function UsdFee(dest: nat): (usd: nat)
      reads this
      ensures dest in usdFees ==> usd == usdFees[dest]
      ensures dest !in usdFees ==> usd == 2_000_000_000_000_000_000
    {
      if dest in usdFees then usdFees[dest] else 2 * QUINTILL
    }

    method BridgingFee(dest: nat, price: nat) returns (fee: Option<nat>)
      ensures fee == if price == 0 then Some(0) else Narrow(Quotient(Times(UsdFee(dest), QUINTILL), price))
    {
      var usd := UsdFee(dest);
      if price == 0 || usd == 0 {
        if price > 0 {
          FeeExact(usd, price);
        }
        return Some(0);
      }
      FeeExact(usd, price);
      var n := usd / price * QUINTILL + FromRational(usd % price, price);
      fee := if n <= U128_MAX then Some(n) else None;
    }

    /** Sends a bridged token to another chain; an error leaves every balance as it was. */
    method TransferOut(who: Account, token: Option<Token>, amount: nat, dest: nat, price: nat, open: bool)
      returns (r: Attempt<nat>)
      requires amount <= U128_MAX
      modifies ledger
      ensures var fee := if price == 0 then Some(0) else Narrow(Quotient(Times(UsdFee(dest), QUINTILL), price));
              var spec := BurnAssets(old(ledger.Abs()), treasury, who, token, amount, fee, open);
              if spec.Ok? then spec.value.0 == ledger.Abs() && r == Ok(spec.value.1)
              else r == Err(spec.error) && ledger.Abs() == old(ledger.Abs())
    {
      hide BurnAssets, Times, Quotient;
      var before := ledger.Abs();
      r := TryTransferOut(who, token, amount, dest, price, open);
      if r.Err? {
        ledger.Restore(before);
      }
    }

    method TryTransferOut(who: Account, token: Option<Token>, amount: nat, dest: nat, price: nat, open: bool)
      returns (r: Attempt<nat>)
      requires amount <= U128_MAX
      modifies ledger
      ensures var fee := if price == 0 then Some(0) else Narrow(Quotient(Times(UsdFee(dest), QUINTILL), price));
              var spec := BurnAssets(old(ledger.Abs()), treasury, who, token, amount, fee, open);
              if spec.Ok? then spec.value.0 == ledger.Abs() && r == Ok(spec.value.1) else r == Err(spec.error)
    {
      hide Standardised, Externalised, T.Transfer, T.Burn, Times, Quotient;
      if token.None? {
        return Err(InvalidResourceId);
      }
      var t := token.value;
      var d := T.ExternalDecimals(ledger.Abs(), t);
      if d.Err? {
        return Err(Token(d.error));
      }
      var fee := BridgingFee(dest, price);
      var q := Price(amount, d.value, fee);
      if q.Err? {
        return Err(q.error);
      }
      if q.value.Fee() < 0 {
        return Err(Overflow);
      }
      var moved := ledger.Transfer(who, t, q.value.Fee(), treasury);
      if moved.Err? {
        return Err(Token(moved.error));
      }
      Small(amount, d.value, fee.value);
      var burnt := ledger.Burn(t, who, q.value.emitted);
      if burnt.Err? {
        return Err(Token(burnt.error));
      }
      r := if open then Ok(q.value.emitted) else Err(NotWhitelisted);
    }

    /** Mints what has come in for the token the resource resolves to. */
    method MintIn(who: Account, token: Option<Token>, amount: nat) returns (r: Result<Done, Error>)
      requires amount <= U128_MAX
      modifies ledger
      ensures Did(old(ledger.Abs()), MintAssets(old(ledger.Abs()), who, token, amount), ledger.Abs(), r)
    {
      hide T.Mint;
      if token.None? {
        return Err(InvalidResourceId);
      }
      var minted := ledger.Mint(token.value, who, amount);
      r := if minted.Ok? then Ok(Done) else Err(Token(minted.error));
    }

    /** Locks native currency in the bridge account; an error leaves every balance as it was. */
    method LockNative(who: Account, amount: nat, dest: nat, price: nat, open: bool) returns (r: Attempt<nat>)
      modifies ledger
      ensures var fee := if price == 0 then Some(0) else Narrow(Quotient(Times(UsdFee(dest), QUINTILL), price));
              var cap := if nativeCheck then Some(maxNative / 3) else None;
              var spec := Lock(old(ledger.Abs()), treasury, bridge, who, amount, cap, fee, open);
              if spec.Ok? then spec.value.0 == ledger.Abs() && r == Ok(spec.value.1)
              else r == Err(spec.error) && ledger.Abs() == old(ledger.Abs())
    {
      hide T.Transfer, Times, Quotient;
      var before := ledger.Abs();
      if nativeCheck {
        var held := BalanceAt(ledger.balances, ledger.native, bridge).free + amount;
        if held > U128_MAX {
          return Err(Overflow);
        }
        if held > maxNative / 3 {
          return Err(OverTransferLimit);
        }
      }
      var fee := BridgingFee(dest, price);
      if fee.None? || fee.value + fee.value > U128_MAX {
        return Err(Overflow);
      }
      if amount <= fee.value + fee.value {
        return Err(LessThanBridgingThreshold);
      }
      var paid := ledger.Transfer(who, ledger.native, fee.value, treasury);
      if paid.Err? {
        return Err(Token(paid.error));
      }
      paid := ledger.Transfer(who, ledger.native, amount - fee.value, bridge);
      if paid.Err? {
        ledger.Restore(before);
        return Err(Token(paid.error));
      }
      if !open {
        ledger.Restore(before);
        return Err(NotWhitelisted);
      }
      r := Ok(amount - fee.value);
    }

    /** The conversions of a burn, there and back. */
    static method Price(amount: nat, d: nat, fee: Option<nat>) returns (q: Attempt<Quote>)
      requires amount <= U128_MAX
      ensures q == if fee.None? then (Err(Overflow)) else QuoteOf(amount, d, fee.value)
    {
      hide Standardised, Externalised;
      if fee.None? {
        return Err(Overflow);
      }
      var std := ToStandard(amount, d);
      if std.None? || fee.value + fee.value > U128_MAX {
        return Err(Overflow);
      }
      if std.value <= fee.value + fee.value {
        return Err(LessThanBridgingThreshold);
      }
      RoundTripStd(amount, d);
      var e := ToExternal(std.value - fee.value, d);
      if e.None? {
        return Err(Overflow);
      }
      ExternalFits(std.value - fee.value, d);
      var back := ToStandard(e.value, d);
      if back.None? {
        return Err(Overflow);
      }
      q := Ok(Quote(std.value, e.value, back.value));
    }
  }

  lemma ExternalFits(amount: nat, d: nat)
    requires amount <= U128_MAX && Externalised(amount, d).Some?
    ensures Externalised(amount, d).value <= U128_MAX
  {
    if d <= STANDARD_DECIMALS {
      QuotientSmall(amount, Pow10(STANDARD_DECIMALS - d));
    }
  }

  lemma Small(amount: nat, d: nat, fee: nat)
    requires amount <= U128_MAX && QuoteOf(amount, d, fee).Ok?
    ensures QuoteOf(amount, d, fee).value.emitted <= U128_MAX
  {
    hide Standardised, Externalised;
    RoundTripStd(amount, d);
    ExternalFits(Standardised(amount, d).value - fee, d);
  }
}
