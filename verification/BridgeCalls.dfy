/** Which burns, mints, locks and unlocks of the bridge go through, and what they send. */
module BridgeCalls {
  import opened Arith
  import opened Ledgers
  import opened Wrappers
  import opened Decimals
  import opened TokenCalls
  import opened BridgeHandler
  import T = TokenLedger

  /** What is sent for an amount from which a fee is held back: whole external units, rounded down. */
  predicate Sent(emitted: nat, std: nat, fee: nat, d: nat) {
    && fee <= std
    && if d > 18 then emitted == (std - fee) * Pow10(d - 18)
       else emitted * Pow10(18 - d) <= std - fee < emitted * Pow10(18 - d) + Pow10(18 - d)
  }

  /** A burn is quoted exactly if its standardised amount exceeds twice the fee and every number fits. */
  lemma QuoteCall(amount: nat, d: nat, fee: nat)
    requires amount <= U128_MAX
    ensures var r, std := QuoteOf(amount, d, fee), Standardised(amount, d);
            if std.None? || fee + fee > U128_MAX then r == Err(Overflow)
            else if std.value <= 2 * fee then r == Err(LessThanBridgingThreshold)
            else if Externalised(std.value - fee, d).None? then r == Err(Overflow)
            else r.Ok? && r.value.amount == std.value && Sent(r.value.emitted, std.value, fee, d)
  {
    hide Standardised, Externalised;
    if Standardised(amount, d).Some? {
      var std := Standardised(amount, d).value;
      RoundTripStd(amount, d);
      if 2 * fee < std {
        ExternalIs(std - fee, d);
        if Externalised(std - fee, d).Some? {
          RoundTrip(std - fee, d);
        }
      }
    }
  }

  /** Nothing is burnt without a resolved resource, a token with known decimals, a fee, and a whitelisted chain. */
  lemma BurnNeeds(
    s: T.State, treasury: Account, who: Account, token: Option<Token>, amount: nat, fee: Option<nat>, open: bool)
    ensures token.None? ==> BurnAssets(s, treasury, who, token, amount, fee, open) == Err(InvalidResourceId)
    ensures BurnAssets(s, treasury, who, token, amount, fee, open).Ok? ==>
              && token.Some? && fee.Some? && open
              && (token.value == s.native || (token.value in s.tokens && s.tokens[token.value].Bridged?))
    ensures open ==> BurnAssets(s, treasury, who, token, amount, fee, false) == Err(NotWhitelisted)
                     || BurnAssets(s, treasury, who, token, amount, fee, open).Err?
  {
    hide QuoteOf, T.Transfer, T.Burn;
  }

  /** A sender other than the treasury can burn a bridged token exactly if the amount exceeds twice the fee,
      something is left to send, the sender has the whole amount, the treasury can hold what is kept, and the total
      covers it. */
  lemma BurnSucceeds(s: T.State, treasury: Account, who: Account, t: Token, amount: nat, fee: nat)
    requires T.FundsEmpty(s) && amount <= U128_MAX && who != treasury && t in s.tokens && s.tokens[t].Bridged?
    ensures var r, d := BurnAssets(s, treasury, who, Some(t), amount, Some(fee), true), s.tokens[t].decimals;
            var q := QuoteOf(amount, d, fee);
            r.Ok? <==>
              && q.Ok? && 0 < q.value.bridged <= s.tokens[t].total
              && q.value.amount <= BalanceAt(s.balances, t, who).free
              && (q.value.bridged < q.value.amount ==>
                    BalanceAt(s.balances, t, treasury).free + (q.value.amount - q.value.bridged) <= U128_MAX)
  {
    hide QuoteOf, Standardised, T.Transfer, T.Burn, BalanceAt;
    var d := s.tokens[t].decimals;
    var q := QuoteOf(amount, d, fee);
    if q.Ok? {
      QuoteBounds(amount, d, fee);
      var taken := q.value.Fee();
      TransferCall(s, who, t, taken, treasury);
      Held(s, t, who);
      if T.Transfer(s, who, t, taken, treasury).Ok? {
        var s1 := T.Transfer(s, who, t, taken, treasury).value;
        BurnCall(s1, t, who, q.value.emitted);
        Sends(q.value, d, fee, amount);
        Held(s1, t, who);
      }
    }
  }

  lemma Held(s: T.State, t: Token, a: Account)
    ensures BalanceAt(s.balances, t, a).free > 0 ==> (t, a) in s.balances
  {
  }

  /** Sending nothing and sending something worth nothing is the same. */
  lemma Sends(q: Quote, d: nat, fee: nat, amount: nat)
    requires QuoteOf(amount, d, fee) == Ok(q)
    ensures q.emitted == 0 ==> q.bridged == 0
    ensures Standardised(q.emitted, d) == Some(q.bridged)
  {
    hide Externalised;
    NothingIsNothing(d);
  }

  lemma NothingIsNothing(d: nat)
    ensures Standardised(0, d) == Some(0)
  {
    if d > STANDARD_DECIMALS {
      SmallDiv(0, Pow10(d - STANDARD_DECIMALS));
    }
  }

  /** What an accepted burn sends. */
  lemma BurnSends(s: T.State, treasury: Account, who: Account, t: Token, amount: nat, fee: nat)
    requires T.FundsEmpty(s) && amount <= U128_MAX
    requires BurnAssets(s, treasury, who, Some(t), amount, Some(fee), true).Ok?
    ensures t in s.tokens && s.tokens[t].Bridged?
    ensures var d := s.tokens[t].decimals;
            var emitted := BurnAssets(s, treasury, who, Some(t), amount, Some(fee), true).value.1;
            && Standardised(amount, d).Some? && 2 * fee < Standardised(amount, d).value
            && Sent(emitted, Standardised(amount, d).value, fee, d)
  {
    hide BurnAssets, QuoteOf, Standardised, Sent, T.Transfer, T.Burn;
    BurnSteps(s, treasury, who, t, amount, fee);
    QuoteCall(amount, s.tokens[t].decimals, fee);
  }

  /** Minting goes to the token the resource resolves to. */
  lemma MintAssetsCall(s: T.State, who: Account, token: Option<Token>, amount: nat)
    ensures var r := MintAssets(s, who, token, amount);
            if token.None? then r == Err(InvalidResourceId)
            else
              var m := T.Mint(s, token.value, who, amount);
              if m.Ok? then r == Ok(m.value) else r == Err(Error.Token(m.error))
  {
    hide T.Mint;
  }

  // --- the native currency ---

  /** A lock is refused for an amount that would take the bridge account over the cap, or that does not exceed twice the
      fee; a sender who is neither treasury nor bridge then needs the amount, and both of them room for their parts. */
  lemma LockCall(
    s: T.State, treasury: Account, bridge: Account, who: Account, amount: nat, cap: Option<nat>, fee: Option<nat>,
    open: bool)
    requires who != treasury && who != bridge && treasury != bridge
    ensures var r := Lock(s, treasury, bridge, who, amount, cap, fee, open);
            var held, has := BalanceAt(s.balances, s.native, bridge).free, BalanceAt(s.balances, s.native, who).free;
            if cap.Some? && held + amount > U128_MAX then r == Err(Overflow)
            else if cap.Some? && held + amount > cap.value then r == Err(OverTransferLimit)
            else if fee.None? || 2 * fee.value > U128_MAX then r == Err(Overflow)
            else if amount <= 2 * fee.value then r == Err(LessThanBridgingThreshold)
            else
              && (r.Ok? <==>
                    && open && amount <= has && held + (amount - fee.value) <= U128_MAX
                    && (fee.value > 0 ==> BalanceAt(s.balances, s.native, treasury).free + fee.value <= U128_MAX))
              && (r.Ok? ==> r.value.1 == amount - fee.value && r.value.0 == s.(balances := r.value.0.balances))
  {
    hide T.Transfer, BalanceAt;
    if fee.Some? && 2 * fee.value < amount {
      var f := fee.value;
      TransferCall(s, who, s.native, f, treasury);
      Held(s, s.native, who);
      if T.Transfer(s, who, s.native, f, treasury).Ok? {
        var s1 := T.Transfer(s, who, s.native, f, treasury).value;
        TransferCall(s1, who, s.native, amount - f, bridge);
        Held(s1, s.native, who);
        TransferMoves(s, who, s.native, f, treasury, who);
        TransferMoves(s, who, s.native, f, treasury, bridge);
      }
    }
  }

  /** Unlocking pays out of the bridge account what is there. */
  lemma UnlockCall(s: T.State, bridge: Account, beneficiary: Account, amount: nat, a: Account)
    requires beneficiary != bridge && amount > 0
    ensures var r := Unlock(s, bridge, beneficiary, amount);
            && (r.Ok? <==>
                  && amount <= BalanceAt(s.balances, s.native, bridge).free
                  && BalanceAt(s.balances, s.native, beneficiary).free + amount <= U128_MAX)
            && (r.Ok? ==>
                  && r.value == s.(balances := r.value.balances)
                  && BalanceAt(r.value.balances, s.native, a).free
                     == BalanceAt(s.balances, s.native, a).free
                        - (if a == bridge then amount else 0) + (if a == beneficiary then amount else 0))
  {
    hide T.Transfer, BalanceAt;
    TransferRoom(s, bridge, s.native, amount, beneficiary);
    if T.Transfer(s, bridge, s.native, amount, beneficiary).Ok? {
      TransferMoves(s, bridge, s.native, amount, beneficiary, a);
    }
  }
}
