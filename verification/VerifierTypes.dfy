/** Entities of the verifier pallet: Merkle leaves, commands, reserves, receipts and dominators. */
module VerifierTypes {
  import opened Arith
  import opened Ledgers
  import opened Wrappers

  type Season = nat
  type Block = nat

  /** What a leaf key decodes to; `OtherKey` stands for every key no parser accepts. */
  datatype Key =
    | AccountKey(token: Token, who: Account)
    | BookKey(base: Token, quote: Token)
    | BestKey(base: Token, quote: Token)
    | PageKey(base: Token, quote: Token, price: u128)
    | OtherKey(raw: nat)

  /** A Merkle leaf: its key and the two halves of its old and new value. */
  datatype Leaf = Leaf(key: Key, oldL: u128, oldR: u128, newL: u128, newR: u128) {
    function OldSum(): nat { oldL + oldR }

    function NewSum(): nat { newL + newR }

    /** Neither half-sum overflows. */
    predicate Fits() { OldSum() <= U128_MAX && NewSum() <= U128_MAX }

    function Price(): nat { if key.PageKey? then key.price else 0 }
  }

  /** A Merkle root, identified with the one key-value map it commits to; absent keys hold zeros. */
  type Tree = map<Key, (u128, u128)>

  function TreeAt(t: Tree, k: Key): (u128, u128) {
    if k in t then t[k] else (0, 0)
  }

  /** Available plus frozen amount of `who` in `token`. */
  function TreeSum(t: Tree, token: Token, who: Account): nat {
    TreeAt(t, AccountKey(token, who)).0 + TreeAt(t, AccountKey(token, who)).1
  }

  datatype Order = Order(
    price: u128, amount: u128, makerFee: nat, takerFee: nat, base: Token, quote: Token)

  datatype Command =
    | AskLimit(order: Order, broker: Option<Account>)
    | BidLimit(order: Order, broker: Option<Account>)
    | Cancel(base: Token, quote: Token)
    | TransferOut(currency: Token, amount: u128)
    | TransferIn(currency: Token, amount: u128)
    | RejectTransferOut(currency: Token, amount: u128)
    | RejectTransferIn

  datatype Proof = Proof(
    eventId: nat, user: Account, cmd: Command, leaves: seq<Leaf>, pages: nat, makers: nat)

  datatype Bucket = ForStaking | ForAuthorizing | ForStash | ForPendingUnstake

  datatype RKey = RKey(bucket: Bucket, owner: Account, token: Token, to: Account)

  type Reserves = map<RKey, nat>

  function ReserveAt(r: Reserves, k: RKey): nat {
    if k in r then r[k] else 0
  }

  datatype Receipt =
    | Authorize(token: Token, amount: nat, at: Block)
    | Revoke(token: Token, amount: nat, at: Block)
    | RevokeWithCallback(token: Token, amount: nat, at: Block)

  datatype Status = Registered | Inactive | Active | Evicted

  newtype byte = x: int | 0 <= x < 256

  type Name = seq<byte>

  datatype Dominator = Dominator(
    staked: nat, tree: Tree, startFrom: Block, sequence: (nat, Block), status: Status, name: Name)

  datatype Stake = Stake(fromSeason: Season, amount: nat)

  datatype Bonus = Bonus(staked: nat, profit: map<Token, nat>)

  datatype MakerMutation = MakerMutation(
    who: Account, filledVolume: nat, baseBalance: nat, quoteBalance: nat)

  datatype TakerMutation = TakerMutation(
    who: Account, unfilledVolume: nat, filledVolume: nat, filledAmount: nat,
    baseBalance: nat, quoteBalance: nat)

  datatype Clearing = Clearing(
    makers: seq<MakerMutation>, taker: TakerMutation, baseFee: nat, quoteFee: nat)
}
