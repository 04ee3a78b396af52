/** When a proof's leaves are accepted: the order, cancel and transfer checks of the verifier. */
module ProofChecks {
  import opened Arith
  import opened Ledgers
  import opened Wrappers
  import opened VerifierTypes

  const TOLERANCE: nat := 100_000_000_000

  predicate IsSymbol(k: Key, base: Token, quote: Token) {
    (k.BookKey? || k.BestKey?) && k.base == base && k.quote == quote
  }

  predicate IsPage(k: Key, base: Token, quote: Token) {
    k.PageKey? && k.base == base && k.quote == quote
  }

  predicate Owned(k: Key, token: Token) {
    k.AccountKey? && k.token == token
  }

  /** `has_authorized_exactly_on`: the reserve matches up to the tolerance. */
  predicate AuthorizedOn(r: Reserves, who: Account, token: Token, amount: nat, d: Account) {
    var confirmed := ReserveAt(r, RKey(ForAuthorizing, who, token, d));
    if confirmed >= amount then confirmed - amount <= TOLERANCE else amount - confirmed <= TOLERANCE
  }

  /** An account leaf pair (base leaf, quote leaf) of one user whose sums move in the given directions. */
  predicate AccountPair(r: Reserves, d: Account, o: Order, b: Leaf, q: Leaf, baseGrows: bool) {
    && Owned(b.key, o.base) && Owned(q.key, o.quote) && b.key.who == q.key.who
    && b.Fits() && q.Fits()
    && AuthorizedOn(r, b.key.who, o.base, b.OldSum(), d)
    && AuthorizedOn(r, q.key.who, o.quote, q.OldSum(), d)
    && (if baseGrows then b.OldSum() <= b.NewSum() && q.NewSum() <= q.OldSum()
        else b.NewSum() <= b.OldSum() && q.OldSum() <= q.NewSum())
  }

  /** `4u8 + maker_accounts + pages` leaves, and an even number of maker accounts. */
  predicate Shape(leaves: seq<Leaf>, makers: nat, pages: nat) {
    4 + makers + pages <= 255 && |leaves| == 4 + makers + pages && makers % 2 == 0
  }

  predicate MakersOk(r: Reserves, d: Account, o: Order, leaves: seq<Leaf>, n: nat, baseGrows: bool)
    requires 2 * n < |leaves|
  {
    forall i | 0 <= i < n :: AccountPair(r, d, o, leaves[2 * i + 1], leaves[2 * i + 2], baseGrows)
  }

  /** Net change of available plus frozen over the first `n` maker leaves at parity `off`. */
  function Change(leaves: seq<Leaf>, n: nat, off: nat): int
    requires off <= 2 && 2 * n < |leaves|
  {
    if n == 0 then 0
    else Change(leaves, n - 1, off) + leaves[2 * (n - 1) + off].NewSum() - leaves[2 * (n - 1) + off].OldSum()
  }

  /** The price a walk over `ps` has reached. */
  function EndPrice(ps: seq<Leaf>, start: nat): nat {
    if ps == [] then start else ps[|ps| - 1].Price()
  }

  /** The next page of a bid book lies strictly below, the next page of an ask book not below. */
  predicate Follows(prev: nat, price: nat, down: bool) {
    if down then prev > price else prev <= price
  }

  /** Pages taken as a whole: of this market, in order, and empty afterwards. */
  predicate Swept(ps: seq<Leaf>, o: Order, start: nat, down: bool) {
    ps == [] ||
    (var before, page := ps[..|ps| - 1], ps[|ps| - 1];
     && Swept(before, o, start, down)
     && IsPage(page.key, o.base, o.quote) && page.Fits() && page.NewSum() == 0
     && Follows(EndPrice(before, start), page.Price(), down))
  }

  function OldTotal(ps: seq<Leaf>): nat {
    if ps == [] then 0 else OldTotal(ps[..|ps| - 1]) + ps[|ps| - 1].OldSum()
  }

  function NewTotal(ps: seq<Leaf>): nat {
    if ps == [] then 0 else NewTotal(ps[..|ps| - 1]) + ps[|ps| - 1].NewSum()
  }

  /** The order pages of a proof. */
  function Pages(leaves: seq<Leaf>, makers: nat): seq<Leaf>
    requires makers + 4 <= |leaves|
  {
    leaves[makers + 4..]
  }

  // --- ask orders ---

  predicate AskTaker(r: Reserves, d: Account, o: Order, book: Leaf, b: Leaf, q: Leaf) {
    && IsSymbol(book.key, o.base, o.quote)
    && book.newL >= book.oldL && book.oldR >= book.newR
    && AccountPair(r, d, o, b, q, false)
    && (if book.newL != book.oldL then b.oldL >= b.newL && o.amount == b.oldL - b.newL
        else b.oldR == b.newR)
    && book.oldR - book.newR == b.OldSum() - b.NewSum()
  }

  predicate AskMoney(r: Reserves, d: Account, o: Order, leaves: seq<Leaf>, makers: nat)
    requires makers % 2 == 0 && makers + 3 <= |leaves|
  {
    var sold, paid := leaves[makers + 1].OldSum() - leaves[makers + 1].NewSum(), -Change(leaves, makers / 2, 2);
    var got := leaves[makers + 2].NewSum() - leaves[makers + 2].OldSum();
    && AskTaker(r, d, o, leaves[0], leaves[makers + 1], leaves[makers + 2])
    && MakersOk(r, d, o, leaves, makers / 2, true)
    && Change(leaves, makers / 2, 1) + MulCeil(o.makerFee, sold) == sold
    && 0 <= paid <= U128_MAX
    && got + MulCeil(o.takerFee, paid) == paid
  }

  predicate AskWalk(o: Order, leaves: seq<Leaf>, makers: nat, pages: nat)
    requires Shape(leaves, makers, pages)
  {
    var best, ps, last := leaves[makers + 3], Pages(leaves, makers), leaves[|leaves| - 1];
    var placed, sold := leaves[0].newL != leaves[0].oldL, leaves[0].oldR - leaves[0].newR;
    && IsSymbol(best.key, o.base, o.quote)
    && if sold != 0 then
         && pages > 0 && o.price <= best.oldR && best.oldR + 1 <= U128_MAX
         && Swept(ps[..pages - 1], o, best.oldR + 1, true) && OldTotal(ps[..pages - 1]) <= U128_MAX
         && IsPage(last.key, o.base, o.quote) && last.Fits()
         && EndPrice(ps[..pages - 1], best.oldR + 1) > last.Price() >= best.newR
         && (if placed then
               && best.newL == o.price && last.Price() == o.price
               && OldTotal(ps) + last.NewSum() == o.amount
             else
               && best.newL == best.oldL && OldTotal(ps) <= U128_MAX
               && sold == OldTotal(ps) - last.NewSum())
       else
         && best.newR == best.oldR
         && (placed ==>
               && IsPage(last.key, o.base, o.quote) && last.Fits() && last.Price() > best.newR
               && o.amount == last.NewSum() - last.OldSum())
  }

  /** `verify_ask_limit` returns a clearing result. */
  predicate AskAccepts(r: Reserves, d: Account, o: Order, makers: nat, pages: nat, leaves: seq<Leaf>) {
    Shape(leaves, makers, pages) && AskMoney(r, d, o, leaves, makers) && AskWalk(o, leaves, makers, pages)
  }

  // --- bid orders ---

  predicate BidTaker(r: Reserves, d: Account, o: Order, book: Leaf, b: Leaf, q: Leaf) {
    book.oldL >= book.newL && book.newR >= book.oldR && AccountPair(r, d, o, b, q, true)
  }

  predicate BidMoney(r: Reserves, d: Account, o: Order, leaves: seq<Leaf>, makers: nat)
    requires makers % 2 == 0 && makers + 3 <= |leaves|
  {
    var bought, sold := leaves[makers + 1].NewSum() - leaves[makers + 1].OldSum(), -Change(leaves, makers / 2, 1);
    var paid := leaves[makers + 2].OldSum() - leaves[makers + 2].NewSum();
    var placed := leaves[0].newR - leaves[0].oldR;
    && BidTaker(r, d, o, leaves[0], leaves[makers + 1], leaves[makers + 2])
    && MakersOk(r, d, o, leaves, makers / 2, false)
    && Change(leaves, makers / 2, 2) + MulCeil(o.makerFee, paid) == paid
    && 0 <= sold <= U128_MAX
    && bought + MulCeil(o.takerFee, sold) == sold
    && leaves[0].oldL - leaves[0].newL == sold
    && (placed != 0 ==> placed == o.amount - sold)
  }

  predicate BidWalk(o: Order, leaves: seq<Leaf>, makers: nat, pages: nat)
    requires Shape(leaves, makers, pages)
  {
    var best, ps, last := leaves[makers + 3], Pages(leaves, makers), leaves[|leaves| - 1];
    var placed, sold := leaves[0].newR != leaves[0].oldR, leaves[0].oldL - leaves[0].newL;
    && IsSymbol(best.key, o.base, o.quote)
    && if sold != 0 then
         && pages > 0 && o.price >= best.oldL
         && Swept(ps[..pages - 1], o, best.oldL, false) && OldTotal(ps[..pages - 1]) <= U128_MAX
         && IsPage(last.key, o.base, o.quote) && last.Fits()
         && (if placed then
               && last.Price() == o.price && best.newR == o.price
               && OldTotal(ps) + last.NewSum() == o.amount
             else
               && best.newR == best.oldR && OldTotal(ps) <= U128_MAX
               && sold == OldTotal(ps) - last.NewSum())
       else
         && best.newL == best.oldL
         && (placed ==>
               && IsPage(last.key, o.base, o.quote) && last.Fits() && last.Price() == o.price
               && o.amount == last.NewSum() - last.OldSum())
  }

  /** `verify_bid_limit` returns a clearing result. */
  predicate BidAccepts(r: Reserves, d: Account, o: Order, makers: nat, pages: nat, leaves: seq<Leaf>) {
    Shape(leaves, makers, pages) && BidMoney(r, d, o, leaves, makers) && BidWalk(o, leaves, makers, pages)
  }

  function Distance(a: nat, b: nat): nat {
    if a <= b then b - a else a - b
  }

  function Who(l: Leaf): Account {
    if l.key.AccountKey? then l.key.who else 0
  }

  /** The balances the first `n` maker pairs end up with. */
  function Mutations(leaves: seq<Leaf>, n: nat): seq<MakerMutation>
    requires 2 * n < |leaves|
  {
    if n == 0 then []
    else
      var b, q := leaves[2 * n - 1], leaves[2 * n];
      Mutations(leaves, n - 1) + [MakerMutation(Who(b), Distance(q.OldSum(), q.NewSum()), b.NewSum(), q.NewSum())]
  }

  function TakerMutationOf(leaves: seq<Leaf>, makers: nat, volume: nat, amount: nat): TakerMutation
    requires makers + 3 <= |leaves|
  {
    var b, q := leaves[makers + 1], leaves[makers + 2];
    TakerMutation(Who(b), q.newR, volume, amount, b.NewSum(), q.NewSum())
  }

  /** Base sold by the taker of an ask, or bought from the makers of a bid, and the quote paid for it. */
  function Traded(leaves: seq<Leaf>, makers: nat, ask: bool): (nat, nat)
    requires makers % 2 == 0 && makers + 3 <= |leaves|
  {
    var b, q := leaves[makers + 1], leaves[makers + 2];
    if ask then (Distance(b.OldSum(), b.NewSum()), Magnitude(Change(leaves, makers / 2, 2)))
    else (Magnitude(Change(leaves, makers / 2, 1)), Distance(q.OldSum(), q.NewSum()))
  }

  function Magnitude(x: int): nat {
    if x < 0 then -x else x
  }

  /** The clearing result of an accepted order. */
  function ClearingOf(o: Order, leaves: seq<Leaf>, makers: nat, ask: bool): Clearing
    requires makers % 2 == 0 && makers + 3 <= |leaves|
  {
    var (amount, volume) := Traded(leaves, makers, ask);
    Clearing(Mutations(leaves, makers / 2), TakerMutationOf(leaves, makers, volume, amount),
             MulCeil(if ask then o.makerFee else o.takerFee, amount),
             MulCeil(if ask then o.takerFee else o.makerFee, volume))
  }

  // --- transfers and cancellation ---

  predicate TransferInOk(currency: Token, amount: u128, user: Account, leaves: seq<Leaf>) {
    && |leaves| == 1 && leaves[0].newL - leaves[0].oldL == amount && leaves[0].newR == leaves[0].oldR
    && leaves[0].key == AccountKey(currency, user)
  }

  predicate TransferOutOk(currency: Token, amount: u128, user: Account, leaves: seq<Leaf>) {
    && |leaves| == 1 && leaves[0].oldL - leaves[0].newL == amount && leaves[0].newR == leaves[0].oldR
    && leaves[0].key == AccountKey(currency, user)
  }

  predicate RejectOutOk(currency: Token, amount: u128, user: Account, leaves: seq<Leaf>) {
    |leaves| == 1 && leaves[0].oldL < amount && leaves[0].key == AccountKey(currency, user)
  }

  /** The bitwise `a & b == 0`. */
  predicate DisjointBits(a: nat, b: nat)
    decreases a
  {
    a == 0 || b == 0 || (!(a % 2 == 1 && b % 2 == 1) && DisjointBits(a / 2, b / 2))
  }

  /** A leaf that only moves value between available and frozen. */
  predicate Reshuffled(l: Leaf, token: Token, user: Account) {
    l.key == AccountKey(token, user) && l.Fits() && l.OldSum() == l.NewSum()
  }

  predicate CancelOk(base: Token, quote: Token, user: Account, leaves: seq<Leaf>) {
    && |leaves| == 5
    && IsSymbol(leaves[0].key, base, quote)
    && leaves[0].oldL >= leaves[0].newL && leaves[0].oldR >= leaves[0].newR
    && (var ask, bid := leaves[0].oldL - leaves[0].newL, leaves[0].oldR - leaves[0].newR;
        && 0 < ask + bid <= U128_MAX && DisjointBits(ask, bid)
        && Reshuffled(leaves[1], base, user) && Reshuffled(leaves[2], quote, user)
        && IsPage(leaves[4].key, base, quote)
        && (leaves[4].Price() >= leaves[3].oldL || leaves[4].Price() <= leaves[3].oldR)
        && leaves[4].Fits()
        && leaves[4].OldSum() - leaves[4].NewSum()
           == if leaves[4].Price() >= leaves[3].oldL && leaves[3].oldL != 0 then ask else bid)
  }
}
