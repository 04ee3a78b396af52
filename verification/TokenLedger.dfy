/** The token pallet: token records, balances and their supply over whole runs. */
module TokenLedger {
  import opened Arith
  import opened Sums
  import opened Ledgers
  import opened Wrappers
  import opened Decimals

  datatype Error =
    | AmountZero | BalanceZero | InvalidTokenName | TokenNotFound | InsufficientBalance | Overflow
    | InvalidDecimals | ContractError | DeadAccount

  type Attempt<+T> = Result<T, Error>

  datatype Chain = Nep141 | Erc20 | Polygon | Bep20

  type Bytes = seq<nat>

  datatype XToken =
    | Bridged(chain: Chain, symbol: Bytes, contract: Bytes, total: nat, stable: bool, decimals: nat)
    | FND10(symbol: Bytes, total: nat)

  datatype State = State(
    native: Token, next: nat, tokens: map<Token, XToken>, names: map<Bytes, Token>, balances: Ledger)

  // --- token records ---

  /** `AsciiStr::from_ascii` and the length bounds. */
  predicate NameOk(symbol: Bytes) {
    2 <= |symbol| <= 8 && forall i | 0 <= i < |symbol| :: symbol[i] < 128
  }

  predicate ContractOk(s: State, x: XToken)
    requires x.Bridged?
  {
    if x.chain == Nep141 then 2 < |x.contract| < 120 && x.contract !in s.names else |x.contract| == 20
  }

  function Create(s: State, x: XToken): Attempt<(State, Token)> {
    if x.Bridged? && x.decimals > MAX_DECIMALS then Err(InvalidDecimals)
    else if !NameOk(x.symbol) then Err(InvalidTokenName)
    else if x.Bridged? && !ContractOk(s, x) then Err(ContractError)
    else if s.next + 1 > U32_MAX then Err(Overflow)
    else
      var record := if x.Bridged? then x.(total := 0, stable := false) else FND10(x.symbol, 0);
      var names := if x.Bridged? && x.chain == Nep141 then s.names[x.contract := s.next] else s.names;
      Ok((s.(next := s.next + 1, tokens := s.tokens[s.next := record], names := names), s.next))
  }

  function MarkStable(s: State, t: Token): Attempt<State> {
    if t !in s.tokens || s.tokens[t].FND10? then Err(TokenNotFound)
    else Ok(s.(tokens := s.tokens[t := s.tokens[t].(stable := true)]))
  }

  function TotalOf(s: State, t: Token): nat {
    if t in s.tokens then s.tokens[t].total else 0
  }

  function ExternalDecimals(s: State, t: Token): Attempt<nat> {
    if t == s.native then Ok(STANDARD_DECIMALS)
    else if t in s.tokens && s.tokens[t].Bridged? then Ok(s.tokens[t].decimals)
    else Err(TokenNotFound)
  }

  /** The unified amount of a mint or burn; for a foundation token it is the recorded total. */
  function Unified(x: XToken, amount: nat): Attempt<nat> {
    if x.FND10? then Ok(x.total)
    else
      match Standardised(amount, x.decimals)
      case Some(u) => Ok(u)
      case None => Err(Overflow)
  }

  // --- accounts ---

  /** Writes an account back, or drops it when nothing is left. */
  function Put(l: Ledger, t: Token, a: Account, b: Balance): Ledger {
    if b == Balance(0, 0) then l - {(t, a)} else l[(t, a) := b]
  }

  function Mint(s: State, t: Token, who: Account, amount: nat): Attempt<State> {
    if amount == 0 then Ok(s)
    else if t !in s.tokens then Err(TokenNotFound)
    else
      var x, b := s.tokens[t], BalanceAt(s.balances, t, who);
      var u :- Unified(x, amount);
      if x.Bridged? && x.total + u > U128_MAX then Err(InsufficientBalance)
      else if u == 0 then Err(AmountZero)
      else if b.free + u > U128_MAX then Err(Overflow)
      else Ok(s.(balances := s.balances[(t, who) := b.(free := b.free + u)],
                 tokens := s.tokens[t := if x.Bridged? then x.(total := x.total + u) else x]))
  }

  function Burn(s: State, t: Token, who: Account, amount: nat): Attempt<State> {
    if amount == 0 then Err(AmountZero)
    else if t !in s.tokens then Err(BalanceZero)
    else
      var x, b := s.tokens[t], BalanceAt(s.balances, t, who);
      var u :- Unified(x, amount);
      if x.Bridged? && x.total < u then Err(InsufficientBalance)
      else if u == 0 then Err(AmountZero)
      else if (t, who) !in s.balances then Err(BalanceZero)
      else if b.free < u then Err(InsufficientBalance)
      else Ok(s.(balances := Put(s.balances, t, who, b.(free := b.free - u)),
                 tokens := s.tokens[t := if x.Bridged? then x.(total := x.total - u) else x]))
  }

  /** A missing account is an error here; the native currency reports a lack of funds instead. */
  function Missing(s: State, t: Token): Error {
    if t == s.native then InsufficientBalance else BalanceZero
  }

  function Transfer(s: State, from: Account, t: Token, amount: nat, target: Account): Attempt<State> {
    if amount == 0 || from == target then Ok(s)
    else
      var b, c := BalanceAt(s.balances, t, from), BalanceAt(s.balances, t, target);
      if (t, from) !in s.balances then Err(Missing(s, t))
      else if b.free < amount then Err(InsufficientBalance)
      else if c.free + amount > U128_MAX then Err(Overflow)
      else Ok(s.(balances := Put(s.balances, t, from, b.(free := b.free - amount))
                             [(t, target) := c.(free := c.free + amount)]))
  }

  function Reserve(s: State, t: Token, who: Account, v: nat): Attempt<State> {
    var b := BalanceAt(s.balances, t, who);
    if v == 0 then Ok(s)
    else if (t, who) !in s.balances then Err(Missing(s, t))
    else if b.free < v then Err(InsufficientBalance)
    else if b.reserved + v > U128_MAX then Err(Overflow)
    else Ok(s.(balances := s.balances[(t, who) := Balance(b.free - v, b.reserved + v)]))
  }

  function Unreserve(s: State, t: Token, who: Account, v: nat): Attempt<State> {
    var b := BalanceAt(s.balances, t, who);
    if v == 0 then Ok(s)
    else if (t, who) !in s.balances then Err(Missing(s, t))
    else if b.reserved < v then Err(InsufficientBalance)
    else if b.free + v > U128_MAX then Err(Overflow)
    else Ok(s.(balances := s.balances[(t, who) := Balance(b.free + v, b.reserved - v)]))
  }

  datatype Status = Free | Reserved

  /** To itself with `Reserved`, a bridged token is reserved once more while the native currency stays as it is. */
  function RepatriateSelf(s: State, t: Token, who: Account, v: nat, st: Status): Attempt<State> {
    if st == Free then Unreserve(s, t, who, v)
    else if t == s.native then Ok(s)
    else Reserve(s, t, who, v)
  }

  /** The native currency is moved to existing accounts only. */
  function Repatriate(s: State, t: Token, slashed: Account, beneficiary: Account, v: nat, st: Status): Attempt<State> {
    var b, c := BalanceAt(s.balances, t, slashed), BalanceAt(s.balances, t, beneficiary);
    if t == s.native && b.reserved < v then Err(InsufficientBalance)
    else if slashed == beneficiary then RepatriateSelf(s, t, slashed, v, st)
    else if t == s.native && v == 0 then Ok(s)
    else if t == s.native && (t, beneficiary) !in s.balances then Err(DeadAccount)
    else if (t, slashed) !in s.balances then Err(Missing(s, t))
    else if b.reserved < v then Err(InsufficientBalance)
    else
      var c' := if st == Free then c.(free := c.free + v) else c.(reserved := c.reserved + v);
      if c'.free > U128_MAX || c'.reserved > U128_MAX then Err(Overflow)
      else Ok(s.(balances := Put(s.balances, t, slashed, b.(reserved := b.reserved - v))[(t, beneficiary) := c']))
  }

  /** `try_mutate_account` with a closure that leaves the account at `b`, or fails. */
  function Mutate(s: State, t: Token, who: Account, b: Attempt<Balance>): Attempt<State> {
    if b.Err? then Err(b.error) else Ok(s.(balances := Put(s.balances, t, who, b.value)))
  }

  // --- runs ---

  datatype Op =
    | Creating(x: XToken)
    | Marking(t: Token)
    | Minting(t: Token, who: Account, amount: nat)
    | Burning(t: Token, who: Account, amount: nat)
    | Transferring(from: Account, t: Token, amount: nat, target: Account)
    | Reserving(t: Token, who: Account, amount: nat)
    | Unreserving(t: Token, who: Account, amount: nat)
    | Repatriating(t: Token, slashed: Account, beneficiary: Account, amount: nat, status: Status)
    | Mutating(t: Token, who: Account, b: Attempt<Balance>)

  function Call(s: State, op: Op): Attempt<State> {
    match op
    case Creating(x) => var (s', _) :- Create(s, x); Ok(s')
    case Marking(t) => MarkStable(s, t)
    case Minting(t, who, v) => Mint(s, t, who, v)
    case Burning(t, who, v) => Burn(s, t, who, v)
    case Transferring(from, t, v, target) => Transfer(s, from, t, v, target)
    case Reserving(t, who, v) => Reserve(s, t, who, v)
    case Unreserving(t, who, v) => Unreserve(s, t, who, v)
    case Repatriating(t, a, b, v, st) => Repatriate(s, t, a, b, v, st)
    case Mutating(t, who, b) => Mutate(s, t, who, b)
  }

  function Step(s: State, op: Op): State {
    if Call(s, op).Ok? then Call(s, op).value else s
  }

  function Run(s: State, ops: seq<Op>): State {
    if ops == [] then s else Step(Run(s, ops[..|ops| - 1]), ops[|ops| - 1])
  }

  /** Before any call only the native currency, token zero, has balances; ids are issued from one on. */
  function Genesis(l: Ledger): State {
    State(0, 1, map[], map[], l)
  }

  predicate NativeOnly(l: Ledger) {
    forall k | k in l :: k.0 == 0
  }

  /** What the closures of `try_mutate_account` add to token `t` along a run. */
  ghost function Injected(s: State, ops: seq<Op>, t: Token): int {
    if ops == [] then 0
    else Injected(s, ops[..|ops| - 1], t) + Injects(Run(s, ops[..|ops| - 1]), ops[|ops| - 1], t)
  }

  ghost function Injects(s: State, op: Op, t: Token): int {
    if op.Mutating? && op.t == t && op.b.Ok? then op.b.value.Total() - BalanceAt(s.balances, t, op.who).Total() else 0
  }

  lemma PutSupply(l: Ledger, c: Token, a: Account, b: Balance, t: Token)
    ensures Supply(Put(l, c, a, b), t) + (if c == t then BalanceAt(l, c, a).Total() else 0)
            == Supply(l, t) + (if c == t then b.Total() else 0)
  {
    hide Supply, BalanceAt;
    if b == Balance(0, 0) {
      SupplyDrop(l, c, a, t);
    } else {
      SupplyPut(l, c, a, b, t);
    }
  }

  lemma PutElsewhere(l: Ledger, c: Token, a: Account, b: Balance, t: Token, e: Account)
    requires t != c || e != a
    ensures BalanceAt(Put(l, c, a, b), t, e) == BalanceAt(l, t, e)
  {
    assert (t, e) != (c, a);
  }

  /** Moving value between two accounts of a token keeps every supply. */
  lemma MoveSupply(l: Ledger, c: Token, a: Account, b: Balance, e: Account, d: Balance, t: Token)
    requires a != e && b.Total() + d.Total() == BalanceAt(l, c, a).Total() + BalanceAt(l, c, e).Total()
    ensures Supply(Put(l, c, a, b)[(c, e) := d], t) == Supply(l, t)
  {
    hide Supply, Put, BalanceAt;
    PutElsewhere(l, c, a, b, c, e);
    PutSupply(l, c, a, b, t);
    SupplyPut(Put(l, c, a, b), c, e, d, t);
  }

  // --- supply ---

  /** Issuance in the books minus issuance held, per step. */
  lemma RecordGap(s: State, op: Op, t: Token)
    requires Call(s, op).Ok? && (op.Creating? || op.Marking?) && FundsEmpty(s)
    ensures var s' := Call(s, op).value; s'.balances == s.balances && TotalOf(s', t) == TotalOf(s, t)
  {
  }

  lemma MintGap(s: State, t: Token, who: Account, amount: nat, c: Token)
    requires FundsEmpty(s) && Mint(s, t, who, amount).Ok?
    ensures var s' := Mint(s, t, who, amount).value;
            Supply(s'.balances, c) - TotalOf(s', c) == Supply(s.balances, c) - TotalOf(s, c)
  {
    hide Supply, Standardised;
    if amount != 0 {
      var u, b := Unified(s.tokens[t], amount).value, BalanceAt(s.balances, t, who);
      SupplyPut(s.balances, t, who, b.(free := b.free + u), c);
    }
  }

  lemma BurnGap(s: State, t: Token, who: Account, amount: nat, c: Token)
    requires FundsEmpty(s) && Burn(s, t, who, amount).Ok?
    ensures var s' := Burn(s, t, who, amount).value;
            Supply(s'.balances, c) - TotalOf(s', c) == Supply(s.balances, c) - TotalOf(s, c)
  {
    hide Supply, Standardised, Put;
    var u, b := Unified(s.tokens[t], amount).value, BalanceAt(s.balances, t, who);
    PutSupply(s.balances, t, who, b.(free := b.free - u), c);
  }

  lemma MovesGap(s: State, op: Op, c: Token)
    requires Call(s, op).Ok? && (op.Transferring? || op.Reserving? || op.Unreserving?)
    ensures var s' := Call(s, op).value;
            s' == s.(balances := s'.balances) && Supply(s'.balances, c) == Supply(s.balances, c)
  {
    hide Supply, Put, BalanceAt, Reserve, Unreserve;
    match op
    case Transferring(from, t, v, target) =>
      if v != 0 && from != target {
        var b, d := BalanceAt(s.balances, t, from), BalanceAt(s.balances, t, target);
        MoveSupply(s.balances, t, from, b.(free := b.free - v), target, d.(free := d.free + v), c);
      }
    case Reserving(t, who, v) => ReserveGap(s, t, who, v, c);
    case Unreserving(t, who, v) => ReserveGap(s, t, who, v, c);
  }

  lemma ReserveGap(s: State, t: Token, who: Account, v: nat, c: Token)
    ensures Reserve(s, t, who, v).Ok? ==>
              var s' := Reserve(s, t, who, v).value;
              s' == s.(balances := s'.balances) && Supply(s'.balances, c) == Supply(s.balances, c)
    ensures Unreserve(s, t, who, v).Ok? ==>
              var s' := Unreserve(s, t, who, v).value;
              s' == s.(balances := s'.balances) && Supply(s'.balances, c) == Supply(s.balances, c)
  {
    hide Supply, BalanceAt;
    var b := BalanceAt(s.balances, t, who);
    if v <= b.free {
      SupplyPut(s.balances, t, who, Balance(b.free - v, b.reserved + v), c);
    }
    if v <= b.reserved {
      SupplyPut(s.balances, t, who, Balance(b.free + v, b.reserved - v), c);
    }
  }

  lemma RepatriateGap(s: State, t: Token, a: Account, e: Account, v: nat, st: Status, c: Token)
    requires Repatriate(s, t, a, e, v, st).Ok?
    ensures var s' := Repatriate(s, t, a, e, v, st).value;
            s' == s.(balances := s'.balances) && Supply(s'.balances, c) == Supply(s.balances, c)
  {
    hide Supply, Put, Reserve, Unreserve, BalanceAt;
    if a == e {
      ReserveGap(s, t, a, v, c);
    } else if !(t == s.native && v == 0) {
      var b, d := BalanceAt(s.balances, t, a), BalanceAt(s.balances, t, e);
      var d' := if st == Free then d.(free := d.free + v) else d.(reserved := d.reserved + v);
      MoveSupply(s.balances, t, a, b.(reserved := b.reserved - v), e, d', c);
    }
  }

  /** Foundation tokens are recorded with a total of zero, and ids are issued in order. */
  ghost predicate FundsEmpty(s: State) {
    && s.native == 0 && s.next >= 1
    && (forall t | t in s.tokens :: 1 <= t < s.next)
    && (forall t | t in s.tokens && s.tokens[t].FND10? :: s.tokens[t].total == 0)
  }

  lemma StepRecords(s: State, op: Op)
    requires FundsEmpty(s)
    ensures FundsEmpty(Step(s, op)) && Step(s, op).native == s.native && s.next <= Step(s, op).next
  {
    hide Put, Standardised;
  }

  lemma StepGap(s: State, op: Op, c: Token)
    requires FundsEmpty(s)
    ensures Supply(Step(s, op).balances, c) - TotalOf(Step(s, op), c)
            == Supply(s.balances, c) - TotalOf(s, c) + Injects(s, op, c)
  {
    hide Supply, Put, Create, MarkStable, Mint, Burn, Transfer, Reserve, Unreserve, Repatriate, BalanceAt, FundsEmpty;
    if Call(s, op).Ok? {
      match op
      case Creating(_) => RecordGap(s, op, c);
      case Marking(_) => RecordGap(s, op, c);
      case Minting(t, who, v) => MintGap(s, t, who, v, c);
      case Burning(t, who, v) => BurnGap(s, t, who, v, c);
      case Repatriating(t, a, b, v, st) => RepatriateGap(s, t, a, b, v, st, c);
      case Mutating(t, who, b) => PutSupply(s.balances, t, who, b.value, c);
      case _ => MovesGap(s, op, c);
    }
  }

  /** Over any run: what all accounts hold of a token is its recorded total plus what account closures injected. */
  lemma {:induction false} RunSupply(s: State, ops: seq<Op>, t: Token)
    requires FundsEmpty(s)
    ensures FundsEmpty(Run(s, ops))
    ensures Supply(Run(s, ops).balances, t) - TotalOf(Run(s, ops), t)
            == Supply(s.balances, t) - TotalOf(s, t) + Injected(s, ops, t)
  {
    hide Step, Supply, Injects, FundsEmpty;
    if ops == [] {
    } else {
      var before := ops[..|ops| - 1];
      RunSupply(s, before, t);
      StepRecords(Run(s, before), ops[|ops| - 1]);
      StepGap(Run(s, before), ops[|ops| - 1], t);
    }
  }

  /** Runs in which no closure changes what an account of `t` holds in sum. */
  ghost predicate Closed(s: State, ops: seq<Op>, t: Token) {
    forall i | 0 <= i < |ops| :: Injects(Run(s, ops[..i]), ops[i], t) == 0
  }

  lemma {:induction false} ClosedInjectsNothing(s: State, ops: seq<Op>, t: Token)
    requires Closed(s, ops, t)
    ensures Injected(s, ops, t) == 0
  {
    hide Step, Injects;
    if ops == [] {
    } else {
      var before := ops[..|ops| - 1];
      forall i | 0 <= i < |before|
        ensures Injects(Run(s, before[..i]), before[i], t) == 0
      {
        assert before[..i] == ops[..i];
      }
      ClosedInjectsNothing(s, before, t);
    }
  }

  /** The recorded total of an issued token is what its accounts hold, and an id not yet issued is held by nobody. */
  lemma SupplyRecorded(l: Ledger, ops: seq<Op>, t: Token)
    requires NativeOnly(l) && t != 0 && Closed(Genesis(l), ops, t)
    ensures var s := Run(Genesis(l), ops);
            && Supply(s.balances, t) == TotalOf(s, t)
            && (t >= s.next || (t in s.tokens && s.tokens[t].FND10?)
                ==> forall a: Account :: BalanceAt(s.balances, t, a) == Balance(0, 0))
  {
    hide Run, Closed, Injected;
    var s0, s := Genesis(l), Run(Genesis(l), ops);
    RunSupply(s0, ops, t);
    ClosedInjectsNothing(s0, ops, t);
    SumZero(l, OfToken(t));
    if TotalOf(s, t) == 0 {
      forall a: Account
        ensures BalanceAt(s.balances, t, a) == Balance(0, 0)
      {
        SumMember(s.balances, (t, a), OfToken(t));
      }
    }
  }

  /** The pallet never creates or destroys native currency. */
  lemma NativeConserved(l: Ledger, ops: seq<Op>)
    requires Closed(Genesis(l), ops, 0)
    ensures Supply(Run(Genesis(l), ops).balances, 0) == Supply(l, 0)
  {
    hide Run, Closed, Injected;
    RunSupply(Genesis(l), ops, 0);
    ClosedInjectsNothing(Genesis(l), ops, 0);
  }

  /** A foundation token can be neither minted nor burnt: both work with the recorded total, which stays zero. */
  lemma FundTokenInert(s: State, t: Token, who: Account, amount: nat)
    requires FundsEmpty(s) && t in s.tokens && s.tokens[t].FND10? && amount > 0
    ensures Mint(s, t, who, amount) == Err(AmountZero) && Burn(s, t, who, amount) == Err(AmountZero)
  {
  }

  /** Burning what was just minted gives back the state, unless the mint left an empty account behind. */
  lemma MintThenBurn(s: State, t: Token, who: Account, amount: nat)
    requires Mint(s, t, who, amount).Ok? && amount > 0
    requires (t, who) in s.balances ==> s.balances[(t, who)] != Balance(0, 0)
    requires t in s.tokens && s.tokens[t].Bridged?
    ensures Burn(Mint(s, t, who, amount).value, t, who, amount) == Ok(s)
  {
    hide Standardised;
    var s1 := Mint(s, t, who, amount).value;
    assert s1.tokens[t := s.tokens[t]] == s.tokens;
    assert Put(s1.balances, t, who, BalanceAt(s.balances, t, who)) == s.balances;
  }

  /** What is reserved can be released again. */
  lemma ReserveThenUnreserve(s: State, t: Token, who: Account, v: nat)
    requires Reserve(s, t, who, v).Ok? && BalanceAt(s.balances, t, who).free <= U128_MAX
    ensures Unreserve(Reserve(s, t, who, v).value, t, who, v) == Ok(s)
  {
    if v != 0 {
      var s1 := Reserve(s, t, who, v).value;
      assert s1.balances[(t, who) := s.balances[(t, who)]] == s.balances;
    }
  }

  /** A repatriation takes the amount from the one reserve and adds it on the chosen side of the other account. */
  lemma RepatriateMoves(s: State, t: Token, slashed: Account, beneficiary: Account, v: nat, st: Status, a: Account)
    requires slashed != beneficiary && Repatriate(s, t, slashed, beneficiary, v, st).Ok?
    ensures var was, now := BalanceAt(s.balances, t, a),
                            BalanceAt(Repatriate(s, t, slashed, beneficiary, v, st).value.balances, t, a);
            && now.reserved == was.reserved - (if a == slashed then v else 0)
                               + (if a == beneficiary && st == Reserved then v else 0)
            && now.free == was.free + if a == beneficiary && st == Free then v else 0
  {
  }
}
