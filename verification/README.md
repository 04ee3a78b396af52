# Settlement and ledgers of the Fusotao chain

A Dafny model of the on-chain half of a "match off-chain, verify on-chain" exchange, and of the pallets around it. The
main theorems are about whole runs: any sequence of calls, failed calls included, from genesis or from the creation of
the object in question. `PageWalk`, `Decimals`, `BridgeHandler`, `ProofVerifier`, `OrderAcceptance`,
`OrderSettlement`, `ProofCommands`, `SeasonShares` and the `...Calls` modules are about single calls on any input, and
the `...Pallet` modules tie methods that change stored maps to the functions these theorems are about.

## What is modelled

**The verifier pallet.** Dominators submit batches of proofs. A proof carries a command and Merkle leaves with old and
new values; `ProofChecks` says which leaves each command accepts and `ProofVerifier` runs the pallet's loops against
that. `VerifierState` holds the storage and every call (registering, staking, unstaking, claiming, authorizing,
revoking, verifying, the block hook), `VerifierRuns` the runs. On top of them: `Custody`, `CustodyGap` and
`CustodyStash` (reserves are always backed, and by how much more), `Registry` (names), `Coupling` (the tree agrees
with the reserves), `Conservation` (money is moved, never made), `PageWalk` (what an accepted order does to the book),
`StakeLedger` and `UnstakeQueue` (stakes, status, delayed unstaking), `Seasons`, `SeasonRuns` and `Payouts` (profit
sharing). What each call accepts, what a refused one reports, and what everybody holds afterwards is said in terms of
leaves, balances and records alone, without the functions that compute it, in `OrderAcceptance`, `OrderSettlement`,
`ProofCommands`, `CustodyCalls`, `StakingCalls` and `SeasonShares`. `StrandedDeposit` and `MarketRuns` are concrete
runs from genesis, begun in `VerifierSetup`, that reach the cases in which the code does not keep what it promises.
`VerifierPallet` is the pallet as an object whose methods update the maps in place, loop by loop, and do exactly what
those specifications say; `PalletSteps` holds the facts about one round of its loops.

**The token pallet** (`TokenLedger`, `TokenPallet`) with its decimal conversions (`Decimals`), and **the bridge
handler** (`BridgeHandler`), which burns, mints, locks and unlocks on that ledger.

**The bridge pallet** (`BridgeVoting`, `BridgePallet`): relayers, threshold, ballots, execution, nonces.

**The reward pallet** (`EraRewards`, `RewardPallet`): liquidity, contributions per era, rotation into rewards.

**The foundation pallet** (`Vesting`, `VestingRuns`, `FoundationPallet`): vaults, approvals, release of tranches.

**The tournament pallet**: bettings (`Betting`, `BettingPallet`) and one season of votes, results, settlement, closing
and prize claims (`Tournament`, `TournamentCounts`, `TournamentRounds`, `TournamentTable`, `TournamentPrize`,
`TournamentClaims`, `TournamentShortfall`, `TournamentPallet`).

`TokenCalls`, `BridgeCalls`, `VotingCalls`, `RewardCalls`, `VestingCalls`, `BettingCalls` and `TournamentCalls` do for
these pallets what the modules named above do for the verifier: who is accepted, who pays, who is paid.

`Sums`, `Arith`, `Ratios`, `Ledgers`, `Purses` and `Wrappers` are shared ground. Each `...Pallet` module pairs a
class, whose methods have the loops and assignments of the source, with the functions that specify them; the lemmas
are about those functions, and each method's `ensures` ties the object to them, including the rollback of a failed
call.

## Assumptions

- A call that returns an error leaves storage as it was, as dispatchable calls of the framework version in use do.
- Plain `+`, `-` and `*` that leave 128 (or, for counters and epochs, 32) bits make the call fail.
- The sparse Merkle library is ideal: a root stands for one key-value map, absent keys hold zeros, and an accepted pair
  of old and new values changes exactly the listed keys. Where a theorem needs distinct keys it says so.
- `Permill::mul_ceil` rounds up, `Perquintill::from_rational` rounds down at 10^-18 and saturates at one, and
  `ratio * x` rounds to the nearest integer.
- The native currency is an abstract ledger of free and reserved balances: no existential deposit, locks or dust.
  Repatriating to an account that no longer exists fails.
- Foreign outcomes are parameters: the resolved fee beneficiary, whether a token is stable, whether the reward pallet
  accepts a contribution, the oracle price, whether a proposal's call succeeds, the storage order of an iteration.
- Other pallets may change balances between calls but never lower a reserved balance (verifier, foundation), and never
  spend from a pledge (betting).
- Codes of failed proofs collapse into `ProofsUnsatisfied`, which also covers arithmetic failures inside the checks;
  the order in which liquidity updates and clearing fail is not told apart.
- Seasons and payouts assume that the grace period divides the season and that both and the active threshold are
  positive; where the delay of 57600 blocks is not a multiple of the grace period the model proves what happens instead.

## Where the code differs from what it promises

- Best-price and page slots of a proof are not checked to hold what the slot layout says. Leaf 3 of a cancel, for one,
  may name an account: `Coupling.StrayCancelDecouples`, reached by `MarketRuns.StrayReached`. The coupling holds exactly
  when such slots leave accounts alone.
- The comment above the page walk asks for every page of a bid to lie between the two best prices. Pages are only
  compared with their predecessors by `<=`, and the last page of a filled bid not at all. The walk holds exactly under
  the condition of `PageWalk.BidClimbs`; `PageWalk.BidLastPageFree` is a bid without it, reached by
  `MarketRuns.FilledReached`.
- For a partly filled order, page totals and book totals agree only under a condition the code does not check:
  `PageWalk.AskPartialPages`, `PageWalk.BidPartialPages`, with `PageWalk.PartialAskMismatch` as a case without it,
  reached by `MarketRuns.PartialReached`.
- A cancel tests its two book differences with a bitwise `&`. Only one side falls exactly under the condition of
  `PageWalk.CancelOneSide`; `PageWalk.CancelBothSides` is a cancel without it, reached by `MarketRuns.BothSidesReached`.
- A rejected deposit drops its receipt and leaves its stash, and the next accepted deposit wipes the whole stash but
  enters its own amount only: `CustodyStash.ExactCustody` has the exact loss, `CustodyStash.NothingStranded` when there
  is none, `StrandedDeposit.DepositStranded` a run with one.
- If the grace period does not divide 57600, unstaked amounts are never released: `UnstakeQueue.StuckForever`.
- A foundation token keeps a total of zero and can be neither minted nor burnt: `TokenLedger.FundTokenInert`.
- A bridging sender that is the treasury pays no fee: the debit is exact for any other sender, and for the treasury
  only when the quoted fee is zero: `BridgeHandler.DebitExact`.
- Lowering the threshold does not decide ballots that already have enough votes: `BridgeVoting.StepNoLag` and
  `BridgeVoting.RunNoLag` say exactly when that leaves an approved-by-count ballot open, `BridgeVoting.LagReached` is
  such a run, and `BridgeVoting.LagEvaluated` says how it ends.
- A vault records approvals for the first amount and all tranches but the last, and a genesis vault without delay keeps
  its first amount reserved for good: `VestingRuns.LastTrancheFree`, `VestingRuns.NoDelayKeepsFirst`.
- Merging bets can owe more than was promised, so neither the pledge check nor the withdrawal of the remainder
  guarantees full payment: by exactly one unit for each bet that `Betting.RunOwes` counts, and full payment after the
  withdrawal holds exactly if there is none: `Betting.RevokeLeavesEnough`. `Betting.OwedExceedsPledge` is a case.
- Sixteenth and eighth finals are accepted by neither settling call, yet first votes must be on battles of the opening
  round. In seasons that open with one of them, and whose kind and battles nobody edits, no voted selection is ever
  fully settled, and as a rule nobody counts as champion: `TournamentRounds.SettlingOpenings`,
  `TournamentRounds.NoChampions`.
- Claims count every result, the close counts settled battles only. The two agree exactly where no right pick is
  unsettled: `TournamentCounts.WinsAgree`. And votes, results and settlements stay open after the close. So prizes can
  exceed the treasury, through a pick unsettled at the close or through a first result after it:
  `TournamentShortfall.ClaimsExceedTreasury`, `TournamentShortfall.LateResultExceedsTreasury`. They never do exactly
  when no close and no later result overdraws it, which the counted and the right tickets tell beforehand:
  `TournamentPrize.CoveredExactly`, `TournamentClaims.RunSound`, `TournamentClaims.CoveredMeansPaid`.
- A result given again after settlement counts twice: `TournamentCounts.Resettled`.

## Model

| member | source | states |
|---|---|---|
| Coupling.RunCoupled | pallets/verifier/src/lib.rs:1216-1568 | In every run whose proofs have distinct keys and leave what accounts own in unchecked slots alone, for every dominator not evicted, every user and token, the authorizing reserve equals available plus frozen in the tree behind the root. |
| Coupling.ProofCoupling | pallets/verifier/src/lib.rs:1216-1568 | For an accepted proof with distinct keys on coupled books: the books are coupled afterwards if and only if no slot outside the command's checks changes what an account owns, or the root does not move. |
| Coupling.ProofCoupledAt | pallets/verifier/src/lib.rs:1216-1568 | The same, both ways, for one account and token. |
| Coupling.SettleOrderHeld | pallets/verifier/src/lib.rs:1278-1437 | An accepted order leaves the new sum of each maker and taker slot as authorizing reserve and touches no other authorizing reserve of the dominator. |
| Coupling.ToleranceUnused | pallets/verifier/src/lib.rs:2132-2147 | On coupled books the reserve compared with an account leaf is exactly the leaf's old sum, so the tolerance of 10^11 is never needed. |
| Coupling.StrayCancelDecouples | pallets/verifier/src/lib.rs:2076-2121 | A cancel whose unchecked leaf 3 names an account is accepted and leaves the books uncoupled. |
| Coupling.StrayCancelOk | pallets/verifier/src/lib.rs:2076-2121 | The concrete leaves of that example pass the cancel check. |
| MarketRuns.StrayReached | pallets/verifier/src/lib.rs:1033-1244 | A run from genesis, coupled up to its last proof, that this cancel leaves uncoupled: one deposit and one resting bid lead to it. |
| Coupling.RevokeCoupled | pallets/verifier/src/lib.rs:1071-1141 | Revoking keeps the books coupled, because a dominator whose reserves it moves is evicted. |
| Coupling.BatchCoupled | pallets/verifier/src/lib.rs:1182-1213 | A batch of well-formed proofs keeps the books coupled. |
| Conservation.OrderConserves | pallets/verifier/src/lib.rs:1278-1437 | An accepted ask or bid with any number of makers keeps the sum of all balances in base, lowers the sum in quote by exactly the quote fee, and raises the season's recorded profit by the same fee. |
| Conservation.SlotsChange | pallets/verifier/src/lib.rs:1586-1692 | What the leaves of an accepted order announce in sum is minus the base fee in base and minus the quote fee in quote, on either side of the book; the two tokens differ. |
| Conservation.OrderMoney | pallets/verifier/src/lib.rs:1683-1692 | Maker and taker changes of an accepted order add up to the two fees. |
| Conservation.ProofConserves | pallets/verifier/src/lib.rs:1216-1568 | Whatever the command, supply plus recorded profit of the running season is the same before and after, in every token. |
| Conservation.BatchConserves | pallets/verifier/src/lib.rs:1182-1213 | The same over a whole batch. |
| Conservation.SplitFeeHalves | pallets/verifier/src/lib.rs:1325-1342 | With a broker, half of the base fee rounded up goes to the broker and the rest, without underflow, to the beneficiary of the dominator; one account that is both gets both parts, any other nothing. |
| Conservation.ClearLeavesSupply | pallets/verifier/src/lib.rs:1290-1317 | Clearing accounts one after the other changes the supply by exactly what their leaves announce. |
| ProofVerifier.VerifyAskLimit | pallets/verifier/src/lib.rs:1570-1787 | The loops over maker accounts and pages return a clearing result exactly when the ask meets the terms of OrderAcceptance.AskAcceptedIff, and then the one of OrderAcceptance.ClearingIs. |
| ProofVerifier.VerifyBidLimit | pallets/verifier/src/lib.rs:1789-2011 | The same for bids, with OrderAcceptance.BidAcceptedIff; their last page is checked less strictly. |
| ProofVerifier.CheckMakers | pallets/verifier/src/lib.rs:1636-1682 | The accumulating maker loop accepts exactly when every pair is owned by one account, moves in the right direction, is authorised, and no total overflows; it returns the totals and the clearing instructions. |
| ProofVerifier.CheckPages | pallets/verifier/src/lib.rs:1714-1724 | The page loop accepts exactly when each page belongs to the market, follows in price and is emptied; it returns the volume taken and the last price. |
| ProofVerifier.CheckAskWalk | pallets/verifier/src/lib.rs:1701-1780 | The page walk of an ask as a condition on the leaves, both for trading and for merely placing orders; leaf by leaf it is in OrderAcceptance.AskAcceptedIff. |
| ProofVerifier.CheckBidWalk | pallets/verifier/src/lib.rs:1927-2004 | The page walk of a bid as a condition on the leaves; leaf by leaf it is in OrderAcceptance.BidAcceptedIff. |
| OrderAcceptance.AskAcceptedIff | pallets/verifier/src/lib.rs:1570-1787 | An ask is accepted exactly on these terms, read off order and leaves: each maker pair and the taker is one account, authorized up to 10^11, and makers buy base while the taker sells it; what is sold reaches the makers less the maker fee, what they pay reaches the taker less the taker fee, both fees rounded up; the book loses as many bids as are sold; a trading ask has a limit at most the old best bid, its pages descend from there to the new one and all but the last are emptied; an ask that does not trade leaves the best bid and rests above it. |
| OrderAcceptance.BidAcceptedIff | pallets/verifier/src/lib.rs:1789-2011 | The same for bids: the limit is at least the old best ask, from which the emptied pages climb; the book loses as many asks as the makers sell and gains the rest of the amount, or nothing. |
| OrderAcceptance.AskLimitDecides | pallets/verifier/src/lib.rs:1707-1755 | A trading ask that is accepted has a limit at most the old best bid; with another limit price it is accepted exactly if that price is at most the best bid too and, when part of the ask rests, is the price it rests at. |
| OrderAcceptance.BidLimitDecides | pallets/verifier/src/lib.rs:1933-1985 | The same for a bid and the old best ask, so neither a missing nor a stricter comparison fits. |
| OrderAcceptance.ClearingIs | pallets/verifier/src/lib.rs:1636-1700 | The clearing result of an accepted order: per maker and for the taker the account, both new sums and the quote and base that changed hands, as fees what all slots lose in either token, as unfilled volume what the taker has frozen in quote. |
| OrderSettlement.OrderPays | pallets/verifier/src/lib.rs:1278-1437 | For every token and account: an accepted order leaves the free balance as it was, except that what the account slots lose in base goes, half of it rounded up, to the broker and the rest to the beneficiary, without a broker all of it to the beneficiary; the reserved balance moves by exactly what the authorizing reserve of the account does. |
| OrderSettlement.SplitFeeGives | pallets/verifier/src/lib.rs:1325-1342 | Every balance after a base fee has been split, with and without a broker, and when broker and beneficiary are one account. |
| OrderSettlement.SplitFeeFits | pallets/verifier/src/lib.rs:1325-1342 | The split fails exactly when one of the two cannot hold what it gets. |
| OrderSettlement.OrderBooks | pallets/verifier/src/lib.rs:1324-1324 | For every dominator, season and token: recorded profit grows by what the slots lose in quote, in that token and the running season of the dominator only; staked totals stay. |
| OrderSettlement.OrderRefused | pallets/verifier/src/lib.rs:1249-1289 | Which check a refused order has failed: fees above a limit, a quote currency that is not stable, or leaves that do not meet the terms; each exactly when it is the first of them to fail. |
| OrderSettlement.OrderSucceeds | pallets/verifier/src/lib.rs:1249-1437 | On backed reserves and distinct keys an order succeeds exactly if fees and currency are allowed, the terms are met, its liquidity is accepted, and every new sum, the season record and the fee shares fit. |
| OrderAcceptance.FeeIff | pallets/verifier/src/lib.rs:1683-1692 | The fee check for any rate: the fee is the least whole number of units that is not below the given millionths, at most all, of the amount. |
| OrderSettlement.ClearLeavesFit | pallets/verifier/src/lib.rs:2149-2172 | A list of accounts is cleared exactly if each new sum fits beside what else the account has reserved. |
| PageWalk.AskPageWalk | pallets/verifier/src/lib.rs:1707-1761 | In an accepted trading ask page prices strictly decrease from at most the old best bid to at least the new one, every page but the last is emptied, and for a filled ask the total page decrease, the book decrease and the traded base amount agree. |
| PageWalk.BidPageWalk | pallets/verifier/src/lib.rs:1933-1985 | In an accepted trading bid the emptied pages climb from at least the old best ask, strictly if keys are distinct, and for a filled bid page, book and trade amounts agree. |
| PageWalk.BidClimbs | pallets/verifier/src/lib.rs:1933-1985 | The walk the comment promises, all pages climbing strictly from the old to the new best ask, holds for an accepted trading bid with distinct keys if and only if the last page lies between the page before it (or the old best ask) and the new best ask. |
| PageWalk.AskPartialPages | pallets/verifier/src/lib.rs:1726-1744 | For a partly filled ask the pages give up what was sold if and only if the last page keeps exactly the unsold rest. |
| PageWalk.BidPartialPages | pallets/verifier/src/lib.rs:1951-1964 | For a partly filled bid the pages give up what was sold if and only if the last page keeps exactly the unsold rest. |
| PageWalk.PartialAskMismatch | pallets/verifier/src/lib.rs:1726-1744 | A partly filled ask, accepted with these authorizations, whose page loses two units while the book loses one. |
| MarketRuns.PartialReached | pallets/verifier/src/lib.rs:1726-1744 | A run from genesis, two deposits and a bid, whose tree and authorizations accept that ask. |
| PageWalk.BidLastPageFree | pallets/verifier/src/lib.rs:1953-1979 | A concrete bid that fails that condition: accepted with its last page below the old best ask. |
| MarketRuns.FilledReached | pallets/verifier/src/lib.rs:1953-1979 | A run from genesis, two deposits, an ask, a bid and a third deposit, whose tree and authorizations accept that bid. |
| PageWalk.CancelOneSide | pallets/verifier/src/lib.rs:2076-2121 | In an accepted cancel the page gives up the whole decrease of the book if and only if the book size opposite to the page does not move. |
| PageWalk.CancelBothSides | pallets/verifier/src/lib.rs:2076-2121 | A concrete cancel that fails that condition: accepted while both book sizes fall. |
| MarketRuns.BothSidesReached | pallets/verifier/src/lib.rs:2076-2121 | A run from genesis, two deposits, an ask and a bid, whose tree matches that cancel. |
| ProofCommands.RootMoves | pallets/verifier/src/lib.rs:1224-1244 | An accepted proof names, for every leaf, what the known root holds; a proof that moves the root leaves its new values at its keys, everything else in the tree as it was, and its event and block as the sequence; rejections leave every dominator alone. |
| ProofCommands.BatchSplit | pallets/verifier/src/lib.rs:1182-1207 | A batch is its proofs in order: the first failure is the failure of the batch. |
| ProofCommands.OnlyActive | pallets/verifier/src/lib.rs:850-867 | Only a registered and active dominator may verify. |
| ProofCommands.CancelOkIff | pallets/verifier/src/lib.rs:2076-2121 | A cancel is accepted exactly if both book sizes fall by amounts without a common binary digit, not both zero, the user keeps what is owned in either token, and the page, at or beyond a best price, loses what its side of the book loses. |
| ProofCommands.DisjointBitsIff | pallets/verifier/src/lib.rs:2093-2093 | The test on the two amounts is the bitwise one. |
| ProofCommands.TransferOutCommand | pallets/verifier/src/lib.rs:1448-1488 | A withdrawal is executed exactly with its receipt, a leaf of the user that gives up the amount, and enough reserved; it turns the amount from reserved into free balance and out of the authorizing reserve, drops the receipt, and touches no other balance or reserve; which check has failed is told by the error. |
| ProofCommands.TransferInCommand | pallets/verifier/src/lib.rs:1489-1522 | A deposit is executed exactly with its receipt and a leaf that gains the amount; it empties the stash, adds the amount to the authorizing reserve, drops the receipt, and changes no balance. |
| ProofCommands.RejectOutCommand | pallets/verifier/src/lib.rs:1523-1546 | A withdrawal is rejected exactly with its receipt and a leaf that shows less than the amount available; nothing but the receipt goes. |
| ProofCommands.RejectInCommand | pallets/verifier/src/lib.rs:1547-1559 | A deposit receipt is dropped, that of a withdrawal refused, and without one nothing happens. |
| Custody.RunCustody | pallets/verifier/src/lib.rs:1033-1141 | In every reachable state each reserved balance covers all reserve entries of its owner over four buckets and all dominators, and an authorize receipt is covered by the stash. |
| Custody.StepCustody | pallets/verifier/src/lib.rs:1216-1568 | Every call, every accepted batch and every block keeps that. |
| Custody.ClearExact | pallets/verifier/src/lib.rs:2149-2172 | Under it the saturating subtraction in clear never saturates: balance and reserve move by the same amount and everything else stays. |
| Custody.UnreserveBacked | pallets/verifier/src/lib.rs:2229-2255 | Releasing keeps every other entry covered. |
| Custody.BlockCustody | pallets/verifier/src/lib.rs:553-589 | So does the block hook. |
| CustodyGap.RunGap | pallets/verifier/src/lib.rs:1033-1141 | In every run, per token and account: reserved balance is exactly all reserve entries, plus what was reserved before or by other pallets, plus the stashes that accepted deposits wiped out beyond their amount. |
| CustodyGap.StepGap | pallets/verifier/src/lib.rs:1216-1568 | The same for one call, batch or block. |
| CustodyGap.TransferInGap | pallets/verifier/src/lib.rs:1489-1568 | An accepted deposit loses exactly what the stash held above the receipt. |
| CustodyStash.NothingStranded | pallets/verifier/src/lib.rs:1489-1568 | Over every run the accepted batches lose nothing if and only if no deposit is accepted after one that was given up with a positive amount, since the last accepted one. |
| CustodyStash.RunStash | pallets/verifier/src/lib.rs:1033-1141 | In every run a stash holds the open deposit and the deposits given up since the last accepted one, nothing else. |
| CustodyStash.StrandedIs | pallets/verifier/src/lib.rs:1489-1568 | An accepted deposit loses exactly those. |
| CustodyStash.ExactCustody | pallets/verifier/src/lib.rs:1033-1141 | In every run reserved balance is the sum of all entries, what was reserved at genesis or by other pallets, and what accepted deposits have lost. |
| StrandedDeposit.DepositStranded | pallets/verifier/src/lib.rs:1489-1568 | A run from genesis: a deposit of four coins is rejected, one of two accepted, and four coins stay reserved without an entry. |
| CustodyCalls.AuthorizeCall | pallets/verifier/src/lib.rs:1033-1069 | A deposit can be asked for exactly at an active dominator without an open request of the user, up to what the user has free; and which check has failed otherwise. |
| CustodyCalls.AuthorizeWrites | pallets/verifier/src/lib.rs:1033-1069 | Every balance and reserve entry afterwards: the amount has moved from free to reserved and into the stash, under a receipt of this block. |
| CustodyCalls.RevokeCall | pallets/verifier/src/lib.rs:1071-1141 | At most what is authorized can be asked back, by default all of it: from a launched dominator by a receipt, if none is open, from an evicted one at once. |
| CustodyCalls.EvictedPays | pallets/verifier/src/lib.rs:1071-1141 | What an evicted dominator pays: for every token and account the amount moves from reserved to free, the stash becomes part of the authorizing reserve, and no other entry moves. |
| Registry.RunNames | pallets/verifier/src/lib.rs:601-636 | In every run the names of dominators are ASCII of two to thirty-two characters, and no two dominators share one. |
| Registry.NamedForever | pallets/verifier/src/lib.rs:601-654 | A registered dominator never disappears and keeps its name. |
| StakeLedger.RunStakes | pallets/verifier/src/lib.rs:2257-2408 | In every run a dominator's total is the sum of its stakings, each staking equals its reserve and is at least the minimum, status and threshold fit, the pending reserve is the sum of the queue, and no queued block has been reached. |
| StakeLedger.StepKeepsStakes | pallets/verifier/src/lib.rs:601-676 | Every step keeps these invariants. |
| StakeLedger.EvictedForever | pallets/verifier/src/lib.rs:639-654 | Eviction is final: it outlasts every run. |
| StakeLedger.StepKeepsEvicted | pallets/verifier/src/lib.rs:2257-2408 | No single step lifts it, staking and unstaking included. |
| StakeLedger.UnlockBounds | pallets/verifier/src/lib.rs:2347-2372 | The unlock block is at most 57600 and more than 57600 minus one grace period after the request. |
| StakeLedger.UnlockServed | pallets/verifier/src/lib.rs:553-589 | A requested unlock block is visited by the hook if and only if the grace period divides 57600. |
| StakeLedger.ReleasePays | pallets/verifier/src/lib.rs:570-587 | Releasing a list of queue entries pays each listed account exactly its entry, others nothing. |
| StakeLedger.ReleaseSucceeds | pallets/verifier/src/lib.rs:570-587 | No release in the hook can fail, so its error branch is never taken. |
| UnstakeQueue.QueueHistory | pallets/verifier/src/lib.rs:2347-2372 | With a grace period dividing 57600 the queue at any future block is everything ever unstaked for it, and nothing remains at or before the current block. |
| UnstakeQueue.BlockPays | pallets/verifier/src/lib.rs:553-589 | The hook of the next block moves to every account, from reserved to free, exactly what the run has unstaked for that block. |
| UnstakeQueue.RequestsAhead | pallets/verifier/src/lib.rs:2347-2372 | Nothing is ever requested for a block already reached. |
| UnstakeQueue.StepQueue | pallets/verifier/src/lib.rs:553-589 | The queue grows by requests only and is emptied exactly at the block the hook serves. |
| UnstakeQueue.StuckForever | pallets/verifier/src/lib.rs:553-589 | If the grace period does not divide 57600 whatever is queued stays queued in every run. |
| UnstakeQueue.OrderExists | pallets/verifier/src/lib.rs:570-587 | Whatever is queued for a block, there is an order in which the hook can serve it, each account once. |
| StakingCalls.RegisterCall | pallets/verifier/src/lib.rs:601-636 | An account becomes a dominator exactly once, under a free name of two to thirty-two ASCII characters and after the first grace period; it starts without stake at the last whole grace period. |
| StakingCalls.StakeCall | pallets/verifier/src/lib.rs:2257-2317 | Which check a refused stake has failed, in the order of the code; one of at least the minimum on a launched dominator that is not evicted goes through if the staker has it and every sum fits. |
| StakingCalls.StakeWrites | pallets/verifier/src/lib.rs:2257-2317 | An accepted stake counts from the running season on, is added to stake, total and staking reserve, and makes the dominator active exactly if the total reaches the threshold. |
| StakingCalls.UnstakeCall | pallets/verifier/src/lib.rs:2319-2408 | In every reachable state a staker who can hold what is due can unstake exactly what leaves nothing or at least the minimum; all other requests fail with the error of the first check they miss. |
| StakingCalls.UnstakeWrites | pallets/verifier/src/lib.rs:2319-2408 | An accepted unstake leaves stake and total, moves from the staking to the pending reserve and into the queue of the block 57600 blocks after the running grace period began; eviction stays, and otherwise the threshold decides. |
| StakingCalls.ClaimCall | pallets/verifier/src/lib.rs:896-921 | Which claims go through: those of a staker of a launched dominator who can hold what is due; the stake then counts from the running season on. |
| SeasonRuns.RunSeasons | pallets/verifier/src/lib.rs:553-569 | In every run, for every closed season, stake already claimed plus stake still entitled to claim equals the snapshot, and no staker claims a season twice. |
| SeasonRuns.StepFreezes | pallets/verifier/src/lib.rs:2422-2439 | No step changes stake or profit of a closed season or reopens one. |
| Seasons.BlockKeepsSeasons | pallets/verifier/src/lib.rs:553-569 | Ending a season at a block boundary carries the split over to its snapshot. |
| Payouts.SeasonPayout | pallets/verifier/src/lib.rs:2176-2205 | Over whole runs a closed season pays, per token, at most its recorded profit plus half a unit per claim. |
| Payouts.PaidIsClaimed | pallets/verifier/src/lib.rs:2176-2205 | All money a run pays out as shares is the worth of the claims it made. |
| Payouts.RatiosBelowOne | pallets/verifier/src/lib.rs:2176-2205 | The ratios used for one season add up to at most one. |
| Payouts.ClaimPays | pallets/verifier/src/lib.rs:896-921 | A claim credits in every token exactly what is due and nothing to anybody else; what is due, season by season, is in SeasonShares.ClaimCredits. |
| Payouts.UnstakePays | pallets/verifier/src/lib.rs:2319-2408 | Unstaking pays exactly what is due and moves the amount between reserves only. |
| Payouts.StakePays | pallets/verifier/src/lib.rs:2257-2317 | Staking more reserves the amount and pays what was due on the earlier stake. |
| SeasonShares.ClaimCredits | pallets/verifier/src/lib.rs:896-921 | In terms of stake, staked total and profit alone, for every token and account: a claim credits the staker, for each season since the last claim, the unit nearest to the profit times the share of the stake, which is rounded down at 10^-18; within half a unit above, and half a unit and 10^-18 of the profit below the exact share, and exactly the profit for the whole stake. Nobody else gets anything. |
| SeasonShares.UnstakeCredits | pallets/verifier/src/lib.rs:2319-2408 | Unstaking credits the same for the stake as it was before. |
| SeasonShares.StakeCredits | pallets/verifier/src/lib.rs:2257-2317 | Staking more credits the same; a first stake is paid nothing. |
| SeasonShares.ShareCredits | pallets/verifier/src/lib.rs:2186-2200 | What one season credits in one token, two-sided. |
| SeasonShares.SeasonIs | pallets/verifier/src/lib.rs:2410-2415 | The season at a block is the number of whole season durations since the start. |
| Ratios.PortionIs | pallets/verifier/src/lib.rs:2192-2199 | A ratio rounded down at 10^-18 times an amount rounded to the nearest unit: bounds on both sides, exact for the whole. |
| Ratios.PortionOnly | pallets/verifier/src/lib.rs:2192-2199 | Part, whole and amount determine that number. |
| Payouts.DueSplit | pallets/verifier/src/lib.rs:2176-2205 | Claims over adjacent ranges of seasons add up to one claim over the whole. |
| Payouts.ClaimScheduleFree | pallets/verifier/src/lib.rs:896-921 | From any reachable state and with an unchanged stake, claiming at any intermediate blocks pays in sum, per token, what one claim at the end pays. |
| Payouts.ScheduleIndependent | pallets/verifier/src/lib.rs:896-921 | The step from the invariants to that. |
| Payouts.PendingIsDue | pallets/verifier/src/lib.rs:2449-2479 | The pending-shares query equals the sum over tokens of what a claim in that block pays. |
| VerifierPallet.Pallet.VerifyAndUpdate | pallets/verifier/src/lib.rs:1216-1568 | Executes one proof on the stored state: same outcome, same new state, same error as the specification the lemmas above are about. |
| VerifierPallet.Pallet.Verify | pallets/verifier/src/lib.rs:1182-1213 | The batch loop commits all proofs or rolls all of them back. |
| VerifierPallet.Pallet.SettleOrder | pallets/verifier/src/lib.rs:1278-1437 | Checking, clearing makers then taker, booking the quote fee and paying out the base fee, on the stored maps; who pays and gets what is in OrderSettlement.OrderPays and OrderSettlement.OrderBooks. |
| VerifierPallet.Pallet.ClearMakers | pallets/verifier/src/lib.rs:1290-1299 | The clearing loop stops at the first failure with its error. |
| VerifierPallet.Pallet.Rewrite | pallets/verifier/src/lib.rs:1224-1244 | Writing leaves one by one gives the tree of the new root. |
| VerifierPallet.Pallet.Clear | pallets/verifier/src/lib.rs:2149-2172 | The whole new state of a clear. |
| VerifierPallet.Pallet.Reserve | pallets/verifier/src/lib.rs:2208-2227 | Moves balance and reserve entry together or changes nothing. |
| VerifierPallet.Pallet.Unreserve | pallets/verifier/src/lib.rs:2229-2255 | Moves balance and reserve entry together or changes nothing. |
| VerifierPallet.Pallet.AuthorizeTo | pallets/verifier/src/lib.rs:1033-1069 | The amount goes to the stash and a receipt is issued, or nothing changes. |
| VerifierPallet.Pallet.RevokeFrom | pallets/verifier/src/lib.rs:1071-1141 | Issues a receipt, or pays out at once when the dominator is evicted; errors roll back. |
| VerifierPallet.Pallet.StakeOn | pallets/verifier/src/lib.rs:2257-2317 | Reserve, payment of due shares, ledger and status, or a full rollback. |
| VerifierPallet.Pallet.UnstakeFrom | pallets/verifier/src/lib.rs:2319-2408 | Reserves, payment, queue entry, ledger and status, or a full rollback. |
| VerifierPallet.Pallet.ClaimShares | pallets/verifier/src/lib.rs:896-921 | Pays what is due and moves the first unpaid season, or changes nothing; the payment is that of SeasonShares.ClaimCredits. |
| VerifierPallet.Pallet.TakeShares | pallets/verifier/src/lib.rs:2176-2205 | The loop over seasons and tokens credits the accumulated shares, or nothing on overflow; each of them is that of SeasonShares.ShareCredits. |
| VerifierPallet.Pallet.SumSeason | pallets/verifier/src/lib.rs:2186-2200 | The loop over one season's tokens adds the season's shares, each that of SeasonShares.ShareCredits. |
| VerifierPallet.Pallet.PendingShares | pallets/verifier/src/lib.rs:2449-2479 | The query's running total, or none when it overflows. |
| VerifierPallet.Pallet.PutProfit | pallets/verifier/src/lib.rs:2422-2439 | Adds to one token of one season. |
| VerifierPallet.Pallet.SplitFee | pallets/verifier/src/lib.rs:1325-1342 | Pays broker and beneficiary in this order; what each gets is in OrderSettlement.SplitFeeGives. |
| VerifierPallet.Pallet.Register | pallets/verifier/src/lib.rs:601-636 | Checks name, height, account and uniqueness of the name in the source's order, then registers aligned to the grace period; what this keeps is Registry.RunNames. |
| VerifierPallet.Pallet.Evict | pallets/verifier/src/lib.rs:639-654 | Runs the eviction on the stored map; that it is final is StakeLedger.EvictedForever. |
| VerifierPallet.Pallet.Launch | pallets/verifier/src/lib.rs:657-676 | Runs the launch on the stored map; the status rules it keeps are in StakeLedger.RunStakes. |
| VerifierPallet.Pallet.SnapshotSeasons | pallets/verifier/src/lib.rs:560-569 | The loop over dominators writes the stake of exactly those whose season ends now. |
| VerifierPallet.Pallet.DrainQueue | pallets/verifier/src/lib.rs:570-587 | The loop over the current block's queue releases each entry once, in storage order. |
| VerifierPallet.Pallet.OnInitialize | pallets/verifier/src/lib.rs:553-589 | The block hook as a whole. |
| PalletSteps.SlotsAreClearing | pallets/verifier/src/lib.rs:1290-1317 | Clearing from the clearing result is clearing the account slots of the proof. |
| PalletSteps.SnapshotOne | pallets/verifier/src/lib.rs:560-569 | One more dominator in the snapshot loop. |
| TokenLedger.SupplyRecorded | pallets/token/src/lib.rs:246-339 | After any run whose account closures keep sums, the recorded total of every token is the sum of free and reserved over all accounts, and neither an id not yet issued nor a foundation token is held by anyone. |
| TokenLedger.RunSupply | pallets/token/src/lib.rs:564-596 | Over any run at all: the difference between what is held and what is recorded is exactly what account closures injected. |
| TokenLedger.StepGap | pallets/token/src/lib.rs:427-562 | The same for one call, errors included. |
| TokenLedger.NativeConserved | pallets/token/src/lib.rs:507-562 | No call of the pallet creates or destroys native currency. |
| TokenLedger.RepatriateGap | pallets/token/src/lib.rs:799-867 | Repatriation keeps the supply, to oneself and in both directions. |
| TokenLedger.RepatriateMoves | pallets/token/src/lib.rs:799-867 | It takes the amount from the one reserve and adds it on the chosen side of the other account, and touches no one else. |
| TokenLedger.FundTokenInert | pallets/token/src/lib.rs:267-287 | A foundation token can neither be minted nor burnt, since both use its recorded total of zero. |
| TokenLedger.MintThenBurn | pallets/token/src/lib.rs:295-339 | Burning what was just minted gives back the whole state. |
| TokenLedger.ReserveThenUnreserve | pallets/token/src/lib.rs:730-790 | Releasing what was just reserved gives back the whole state. |
| TokenCalls.StandardIs | pallets/token/src/lib.rs:677-697 | The standardised amount: times the missing power of ten, if it fits, up to eighteen decimals, and the whole units above. |
| TokenCalls.ExternalIs | pallets/token/src/lib.rs:699-716 | The external amount, the other way round. |
| TokenCalls.CreateCall | pallets/token/src/lib.rs:427-505 | Which check a refused token has failed; an accepted one is recorded under the next id with nothing issued, and a NEAR contract name leads to it. |
| TokenCalls.MintCall | pallets/token/src/lib.rs:246-289 | Every balance and record after a mint of a bridged token, and which check a refused one has failed. |
| TokenCalls.BurnCall | pallets/token/src/lib.rs:295-339 | The same for a burn; an account left with nothing is dropped. |
| TokenCalls.TransferCall | pallets/token/src/lib.rs:507-562 | The same for a transfer; of nothing, or to oneself, it moves nothing. |
| TokenCalls.ReserveCalls | pallets/token/src/lib.rs:730-790 | The same for reserving and releasing. |
| TokenCalls.RepatriateCall | pallets/token/src/lib.rs:799-867 | The same for a repatriation to another account, natively only to one that exists. |
| TokenPallet.Pallet.Create | pallets/token/src/lib.rs:427-505 | Runs the call on the stored maps: checks, then the next id with zero total. |
| TokenPallet.Pallet.Mint | pallets/token/src/lib.rs:246-289 | Runs the call on the stored maps, converting decimals in its loop; the supply rule is TokenLedger.RunSupply. |
| TokenPallet.Pallet.Burn | pallets/token/src/lib.rs:295-339 | Runs the call on the stored maps and drops an empty account; the supply rule is TokenLedger.RunSupply. |
| TokenPallet.Pallet.Transfer | pallets/token/src/lib.rs:507-562 | Runs the call on the stored maps; zero amounts and transfers to oneself do nothing. |
| TokenPallet.Pallet.Reserve | pallets/token/src/lib.rs:730-758 | Runs the call on the stored maps; its inverse is TokenLedger.ReserveThenUnreserve. |
| TokenPallet.Pallet.Unreserve | pallets/token/src/lib.rs:760-790 | Runs the call on the stored maps; it undoes a reservation by TokenLedger.ReserveThenUnreserve. |
| TokenPallet.Pallet.Repatriate | pallets/token/src/lib.rs:799-867 | Runs the call on the stored maps, with the two self cases and the rejection of a dead native account; what moves is TokenLedger.RepatriateMoves. |
| TokenPallet.Pallet.MutateAccount | pallets/token/src/lib.rs:564-596 | Writes what the closure leaves and drops an empty account; what closures inject is TokenLedger.RunSupply. |
| Decimals.ToStandard | pallets/token/src/lib.rs:677-697 | The loop of single divisions or multiplications by ten is one division or multiplication by a power of ten, and overflows exactly when that does not fit. |
| Decimals.ToExternal | pallets/token/src/lib.rs:699-716 | The same the other way. |
| Decimals.RoundTrip | pallets/token/src/lib.rs:677-716 | To external and back is at most the amount, exact from 18 decimals on, and below by less than one external unit otherwise. |
| BridgeHandler.FeeExact | pallets/chainbridge-handler/src/lib.rs:322-336 | The fee computed in two parts is the exact quotient of the dollar fee by the price, rounded down, or overflows when that does not fit. |
| BridgeHandler.BurnExact | pallets/chainbridge-handler/src/lib.rs:387-426 | The emitted value leaves the sender and the issuance; the real fee covers the quoted fee and exceeds it by less than one external unit below 18 decimals and by nothing otherwise; the treasury gets it and no one else is touched. |
| BridgeHandler.DebitExact | pallets/chainbridge-handler/src/lib.rs:387-426 | The sender is debited exactly the standardised amount if and only if it is not the treasury or the quoted fee is zero. |
| BridgeHandler.FreeQuote | pallets/chainbridge-handler/src/lib.rs:399-416 | An accepted burn takes a fee if and only if the quoted fee is not zero. |
| BridgeHandler.LockMoves | pallets/chainbridge-handler/src/lib.rs:339-374 | What a lock does to every native balance: sender, treasury, bridge account and all others. |
| BridgeHandler.BurnThenMint | pallets/chainbridge-handler/src/lib.rs:387-439 | Minting the emitted amount back restores the issuance, and fails only if the account cannot hold it. |
| BridgeHandler.QuoteBounds | pallets/chainbridge-handler/src/lib.rs:399-416 | Bounds of the real fee for every accepted amount, decimals and quoted fee. |
| BridgeHandler.LockThenUnlock | pallets/chainbridge-handler/src/lib.rs:339-384 | A lock adds to the bridge account what it emits, within the cap; unlocking that amount succeeds exactly if the beneficiary has room for it, and then takes it out again. |
| BridgeCalls.QuoteCall | pallets/chainbridge-handler/src/lib.rs:399-416 | A burn is quoted exactly if its standardised amount exceeds twice the fee and the numbers fit; it sends the whole external units of what is left after the fee. |
| BridgeCalls.BurnSucceeds | pallets/chainbridge-handler/src/lib.rs:387-426 | A sender other than the treasury can burn exactly if a quote exists that sends something, the sender has the whole amount, the treasury can hold what is kept, and the total covers what is sent. |
| BridgeCalls.BurnSends | pallets/chainbridge-handler/src/lib.rs:387-426 | What an accepted burn sends, in external units. |
| BridgeCalls.BurnNeeds | pallets/chainbridge-handler/src/lib.rs:387-426 | Nothing is burnt without a resolved resource, a token with known decimals, a fee and a whitelisted chain. |
| BridgeCalls.LockCall | pallets/chainbridge-handler/src/lib.rs:339-374 | Which check a refused lock has failed; the others go through exactly if the chain is whitelisted, the sender has the amount, and treasury and bridge can hold their parts. |
| BridgeCalls.UnlockCall | pallets/chainbridge-handler/src/lib.rs:376-384 | An unlock pays out of the bridge account exactly if it is there and fits; every native balance afterwards. |
| BridgeHandler.Handler.TransferOut | pallets/chainbridge-handler/src/lib.rs:387-426 | Transfer of the fee and burn run on the token pallet in place; any later error rolls both back. |
| BridgeHandler.Handler.MintIn | pallets/chainbridge-handler/src/lib.rs:428-439 | Runs the mint on the token pallet, or reports a resource that resolves to no token; what a mint undoes is BurnThenMint. |
| BridgeHandler.Handler.LockNative | pallets/chainbridge-handler/src/lib.rs:339-374 | The lock in place, rolled back on error. |
| BridgeHandler.Handler.BridgingFee | pallets/chainbridge-handler/src/lib.rs:322-336 | Returns the exact quotient. |
| BridgeHandler.Handler.Price | pallets/chainbridge-handler/src/lib.rs:399-416 | The three conversions of a burn and their checks. |
| BridgeVoting.RunSafe | pallets/chainbridge/src/lib.rs:375-445 | In every run the relayer count is the size of the relayer set, no ballot holds an account twice or on both sides, and a call has been executed exactly if its ballot is approved, at most once. |
| BridgeVoting.VotersWereRelayers | pallets/chainbridge/src/lib.rs:544-577 | Every vote on record was cast by an account that was a relayer at that moment. |
| BridgeVoting.BallotFinal | pallets/chainbridge/src/lib.rs:66-78 | Approved, rejected and expired ballots never change again, whatever follows. |
| BridgeVoting.StepBallot | pallets/chainbridge/src/lib.rs:544-602 | A ballot changes only through a call that names it, while it is open and unexpired. |
| BridgeVoting.StepExecutes | pallets/chainbridge/src/lib.rs:628-641 | A call is executed only unexpired, approved, and with at least threshold votes in favour. |
| BridgeVoting.FailedCallRollsBack | pallets/chainbridge/src/lib.rs:628-641 | If the call fails the approving vote is taken back with everything else. |
| BridgeVoting.FixedRelayersDecide | pallets/chainbridge/src/lib.rs:53-63 | With relayers and a reachable threshold fixed, every proposal without a ballot so far, whatever other ballots there are: open while the threshold can still be reached, rejected exactly when it cannot, and never open once all have voted. |
| BridgeVoting.RunDecisive | pallets/chainbridge/src/lib.rs:580-602 | The invariant behind it over whole runs, ballot by ballot. |
| BridgeVoting.OutcomesMeaning | pallets/chainbridge/src/lib.rs:53-63 | What the three outcomes say about the votes not yet cast. |
| BridgeVoting.StepNoLag | pallets/chainbridge/src/lib.rs:487-602 | Call a ballot lagging if it is open and unexpired with enough votes. From a state without lagging ballots a call leads to one if and only if it lowers the threshold to at most the votes in favour of an open unexpired ballot. |
| BridgeVoting.RunNoLag | pallets/chainbridge/src/lib.rs:487-602 | From genesis no ballot ever lags if and only if the threshold is never lowered like that. |
| BridgeVoting.LagEvaluated | pallets/chainbridge/src/lib.rs:436-446 | A lagging ballot is approved by the next evaluation, without another vote. |
| BridgeVoting.LagReached | pallets/chainbridge/src/lib.rs:487-493 | A run of nine calls from genesis that ends with a lagging ballot. |
| BridgeVoting.NoncesConsecutive | pallets/chainbridge/src/lib.rs:478-482 | Outgoing transfers of a chain are numbered without gaps or repeats. |
| VotingCalls.VoteCall | pallets/chainbridge/src/lib.rs:375-430 | Which check a refused vote has failed; an accepted one is added at the end of its side of the ballot, opened for one lifetime if there was none, which is then approved if the threshold is reached, rejected if it cannot be reached any more, and open otherwise; an approval whose call fails undoes everything. |
| VotingCalls.EvaluateCall | pallets/chainbridge/src/lib.rs:436-446 | The same for an evaluation without a vote. |
| VotingCalls.RelayerCalls | pallets/chainbridge/src/lib.rs:521-539 | Adding and removing relayers, with the counter. |
| BridgePallet.Pallet.Vote | pallets/chainbridge/src/lib.rs:375-430 | Runs the call on the stored maps and takes vote and resolution back together on error; what it keeps is BridgeVoting.RunSafe. |
| BridgePallet.Pallet.Resolve | pallets/chainbridge/src/lib.rs:580-602 | Runs the completion of an open, unexpired ballot, undone if the proposal's call fails; see BridgeVoting.StepExecutes. |
| BridgePallet.Pallet.CommitVote | pallets/chainbridge/src/lib.rs:544-577 | Runs the opening of a ballot and the recording of one vote; see BridgeVoting.VotersWereRelayers. |
| BridgePallet.Pallet.AddRelayer | pallets/chainbridge/src/lib.rs:521-530 | Runs the call: set and counter together, which BridgeVoting.RunSafe relies on. |
| BridgePallet.Pallet.RemoveRelayer | pallets/chainbridge/src/lib.rs:533-539 | Runs the call: set and counter together, which BridgeVoting.RunSafe relies on. |
| BridgePallet.Pallet.SetThreshold | pallets/chainbridge/src/lib.rs:487-493 | Runs the call: any positive threshold; what it does to open ballots is BridgeVoting.StepNoLag. |
| BridgePallet.Pallet.Whitelist | pallets/chainbridge/src/lib.rs:507-518 | Runs the call: a new foreign chain starts at nonce zero. |
| BridgePallet.Pallet.Send | pallets/chainbridge/src/lib.rs:651-672 | Runs the call: the next nonce of a whitelisted chain; see BridgeVoting.NoncesConsecutive. |
| EraRewards.RunBalanced | pallets/reward/src/lib.rs:325-362 | In every run and for every era taken liquidity is pending contributions of accounts still on it plus contributions rotated out, and an era is left only after it has ended. |
| EraRewards.FractionsBounded | pallets/reward/src/lib.rs:325-362 | The fractions handed out for an era add up to at most one, and division by zero cannot happen. |
| EraRewards.EraPaysAtMost | pallets/reward/src/lib.rs:325-362 | All accounts together earn from an era at most its reward plus half a unit per payout. |
| EraRewards.RunIssues | pallets/reward/src/lib.rs:291-322 | In every run what was newly issued plus what is still confirmed is everything ever rotated into rewards. |
| EraRewards.RunWeighted | pallets/reward/src/lib.rs:411-438 | Liquidity taken in an era lies between its trading volume and that volume at the largest weight. |
| EraRewards.NeverDividesByZero | pallets/reward/src/lib.rs:342-345 | Why the division is safe. |
| EraRewards.ClaimConfirms | pallets/reward/src/lib.rs:291-322 | A claim issues exactly what it takes out of the confirmed rewards. |
| EraRewards.PutThenRemove | pallets/reward/src/lib.rs:387-466 | Fresh liquidity can be taken up to its volume, in one go or in parts, and overrides what was there. |
| EraRewards.RemoveInParts | pallets/reward/src/lib.rs:440-466 | Removing in two parts is removing at once. |
| RewardCalls.ConsumeCall | pallets/reward/src/lib.rs:411-438 | An accepted consumption of liquidity on offer for n blocks adds the volume times w to the liquidity taken in the era and to the pending contribution of the maker, where w counts the whole zooms in n blocks, or in an era if that is less, and is at least one; the plain volume is added to the volumes, and earnings of an earlier era are confirmed. Nobody else is touched. |
| RewardCalls.ConsumeFails | pallets/reward/src/lib.rs:411-438 | It fails exactly if a sum leaves 128 bits, the offer lies in the future, or the rotation fails. |
| RewardCalls.WeightIs | pallets/reward/src/lib.rs:418-425 | The weight of liquidity offered for n blocks: the whole zooms in n blocks or in an era, and at least one. |
| RewardCalls.EarnedIs | pallets/reward/src/lib.rs:342-352 | What an account has earned in an era, two-sided, and nothing after the last block of the program. |
| RewardCalls.RotateCall | pallets/reward/src/lib.rs:325-362 | What a rotation confirms, two-sided: for an account of an earlier era its portion of the era reward, nothing after the last block of the program; and exactly when it fails. |
| RewardCalls.ClaimCall | pallets/reward/src/lib.rs:291-322 | A claim pays the confirmed reward, what has just been earned included, in new currency to the claimer and nobody else, and keeps the contribution to the current era. |
| RewardCalls.RemoveCall | pallets/reward/src/lib.rs:440-466 | Which removals go through, and every offer afterwards: the rest keeps its age. |
| RewardCalls.PutCall | pallets/reward/src/lib.rs:387-401 | Every offer after liquidity has been put in. |
| RewardPallet.Pallet.ConsumeLiquidity | pallets/reward/src/lib.rs:411-438 | Runs removal, era totals and rotation on the stored maps, undone together on error; what it adds is in RewardCalls.ConsumeCall. |
| RewardPallet.Pallet.Rotate | pallets/reward/src/lib.rs:325-362 | Runs the rotation on the stored maps; what it confirms is in RewardCalls.RotateCall. |
| RewardPallet.Pallet.ClaimReward | pallets/reward/src/lib.rs:291-322 | Runs rotation and payout on the stored maps, undone together on error; what it issues is EraRewards.ClaimConfirms. |
| RewardPallet.Pallet.RemoveLiquidity | pallets/reward/src/lib.rs:440-466 | Runs the removal on the pool; see EraRewards.RemoveInParts. |
| RewardPallet.Pallet.PutLiquidity | pallets/reward/src/lib.rs:387-401 | Runs the call: a non-zero volume overrides the entry; see EraRewards.PutThenRemove. |
| VestingRuns.ClosedForm | pallets/foundation/src/lib.rs:240-295 | In every run of well-formed vaults, after epoch e the tranches left are times minus floor((e - delay) / interval), the vault is there exactly while some are left, no approval outlives it, and paid, returned, stuck and outstanding parts add up to what was put in, with stuck and outstanding still reserved. |
| VestingRuns.RunInv | pallets/foundation/src/lib.rs:240-295 | The invariant behind it, for every beneficiary. |
| VestingRuns.PaidInFull | pallets/foundation/src/lib.rs:240-295 | When a vault ends everything has been paid, returned or stuck, the first amount excepted if the delay had passed when it was put in. |
| VestingRuns.NothingStuck | pallets/foundation/src/lib.rs:251-257 | Nothing gets stuck as long as the accounts of the vault exist. |
| VestingRuns.NoDelayKeepsFirst | pallets/foundation/src/lib.rs:72-97 | A genesis vault without delay never releases its first amount. |
| VestingRuns.LastTrancheFree | pallets/foundation/src/lib.rs:191-199 | The last tranche always goes to the beneficiary: no approval is recorded for its epoch. |
| VestingRuns.HookNeverFails | pallets/foundation/src/lib.rs:240-295 | With well-formed vaults the hook's arithmetic never fails. |
| VestingRuns.ApproveRedirects | pallets/foundation/src/lib.rs:206-226 | Giving up an approval sends to the beneficiary exactly what would have been returned, and touches no other epoch. |
| Vesting.UnlockAllView | pallets/foundation/src/lib.rs:240-295 | The walk over all vaults does to each what one visit does, whatever the storage order. |
| VestingCalls.PutCall | pallets/foundation/src/lib.rs:166-203 | Which check a refused vault has failed; an accepted one costs the seller its whole worth, reserves it with the beneficiary, and, if wanted, records approvals for the first amount and every tranche but the last. |
| VestingCalls.VisitPays | pallets/foundation/src/lib.rs:240-295 | One visit with something due: the first amount or a tranche, at most what is reserved, becomes free with the beneficiary, or with the approver if there is an approval, which is used up; with an account missing nothing moves; a tranche counts the vault down and the last ends it. |
| VestingCalls.ApproveCall | pallets/foundation/src/lib.rs:206-226 | Giving up an approval removes it and nothing else; only the approver can. |
| FoundationPallet.Pallet.PutIntoVault | pallets/foundation/src/lib.rs:166-203 | Deposit, reservation, approvals and vault together, or nothing. |
| FoundationPallet.Pallet.AddApprovals | pallets/foundation/src/lib.rs:191-199 | The loop records one approval per epoch delay + i * interval. |
| FoundationPallet.Pallet.Approve | pallets/foundation/src/lib.rs:206-226 | Only the approver of the epoch can give it up. |
| FoundationPallet.Pallet.UnlockFund | pallets/foundation/src/lib.rs:240-295 | The walk in storage order. |
| FoundationPallet.Pallet.OnInitialize | pallets/foundation/src/lib.rs:231-238 | Vaults are visited at multiples of the epoch duration. |
| Betting.RunBooks | pallets/abyss-tournament/src/lib.rs:832-894 | Over any mix of bets, odds updates, claims and withdrawals, the stakes of each item are its recorded bets, and what would be owed is the promised compensation plus at most one unit for every bet merged into an earlier entry. |
| Betting.LiabilityBounds | pallets/abyss-tournament/src/lib.rs:832-894 | So what would be owed is at least the promised compensation and exceeds it by less than one unit per bet. |
| Betting.RunPledged | pallets/abyss-tournament/src/lib.rs:859-870 | Until the battle is finalized the pledge covers the promised compensation of every item. |
| Betting.MergeEffect | pallets/abyss-tournament/src/lib.rs:872-884 | Merging a bet into a record changes stake, entries and debt of that item only, within one unit of rounding. |
| Betting.MergeOwes | pallets/abyss-tournament/src/lib.rs:872-884 | A bet adds its own worth to what its item owes, and one unit more exactly if the hundredths cut off from it and from the entry it joins make up a unit. |
| Betting.RunOwes | pallets/abyss-tournament/src/lib.rs:832-894 | Over every run what an item would owe is its promised compensation plus the number of accepted bets that carried a unit in this way. |
| Betting.ClaimSettles | pallets/abyss-tournament/src/lib.rs:922-950 | A claim pays what is owed, takes it out of the pledge and of what is outstanding, and cannot be repeated. |
| Betting.SolventClaims | pallets/abyss-tournament/src/lib.rs:922-950 | While the pledge holds what is outstanding no claim fails for lack of funds, and it stays so. |
| Betting.InsolventClaims | pallets/abyss-tournament/src/lib.rs:922-950 | Once it does not, it never will again. |
| Betting.RevokeSolvency | pallets/abyss-tournament/src/lib.rs:898-918 | After the creator takes back the remainder, before, between or after claims: everybody can still be paid if and only if what is outstanding plus the recorded pledge is at most the compensation plus the balance; where balance and paid claims make up the recorded pledge, exactly if what is owed is what was promised. |
| Betting.RevokeLeavesEnough | pallets/abyss-tournament/src/lib.rs:898-918 | At the end of any run with an intact pledge: after the remainder is taken back everybody can be paid if and only if no bet on the hit item has carried a unit. |
| Betting.ClaimIntact | pallets/abyss-tournament/src/lib.rs:922-950 | Claims keep a pledge intact: balance and paid claims make up the recorded total before a claim exactly if they do so after it. |
| Betting.OwedExceedsPledge | pallets/abyss-tournament/src/lib.rs:859-884 | Two bets of 50 at 101 percent promise 100 but are owed 101, which a pledge of 100 cannot pay. |
| BettingCalls.BetCall | pallets/abyss-tournament/src/lib.rs:832-894 | An accepted bet lowers the free balance of the bettor by its amount, raises that of the creator by the same (the two may be one account, and nothing moves), and touches no other account; item and record afterwards, entry by entry. |
| BettingCalls.CreatorReceives | pallets/abyss-tournament/src/lib.rs:832-894 | Over any run without other payments to or by the creator, the creator has received exactly the stakes of all items. |
| BettingCalls.BetRefused | pallets/abyss-tournament/src/lib.rs:832-894 | Which check a refused bet has failed; all others are accepted. |
| BettingCalls.OddsCall | pallets/abyss-tournament/src/lib.rs:1765-1790 | Odds are set by the creator only, each above one hundred percent, all or none, the last ones given for an item counting. |
| BettingCalls.BetClaimCall | pallets/abyss-tournament/src/lib.rs:922-950 | A record is paid once, by the pledge, the sum over its entries on the hit item of stake times odds, each rounded down; every balance afterwards, and which check a refused claim has failed. |
| BettingCalls.AppendCall | pallets/abyss-tournament/src/lib.rs:955-983 | Who can add to the pledge, every balance afterwards, and the recorded total. |
| BettingCalls.DropCall | pallets/abyss-tournament/src/lib.rs:1720-1761 | The creator, and nobody else, gets the whole pledge back while nothing is promised. |
| BettingCalls.RevokeCall | pallets/abyss-tournament/src/lib.rs:898-918 | The creator gets what the recorded pledge holds beyond the promise on the hit item; every balance afterwards. |
| BettingPallet.Pallet.GoBet | pallets/abyss-tournament/src/lib.rs:832-894 | Runs the bet on the stored maps, undone as a whole on error; who pays and what is recorded is in BettingCalls.BetCall. |
| BettingPallet.Pallet.Merge | pallets/abyss-tournament/src/lib.rs:872-884 | The search loop adds to the first matching entry or appends one. |
| BettingPallet.Pallet.UpdateOdds | pallets/abyss-tournament/src/lib.rs:1765-1790 | The loop sets all odds or none. |
| BettingPallet.Pallet.SumOwed | pallets/abyss-tournament/src/lib.rs:933-938 | The summing loop over a record. |
| BettingPallet.Pallet.Claim | pallets/abyss-tournament/src/lib.rs:922-950 | Runs the summing loop and the payment, undone on error; what it pays is Betting.ClaimSettles. |
| BettingPallet.Pallet.AppendPledge | pallets/abyss-tournament/src/lib.rs:955-983 | Runs the call: pays into the pledge and records its balance. |
| BettingPallet.Pallet.Drop | pallets/abyss-tournament/src/lib.rs:1720-1761 | Runs the loop over the items and the payment: the pledge goes back only while nothing is promised. |
| BettingPallet.Pallet.RevokeRemain | pallets/abyss-tournament/src/lib.rs:898-918 | Runs the call; who can still be paid afterwards is Betting.RevokeSolvency. |
| TournamentClaims.PrizesWithinTreasury | pallets/abyss-tournament/src/lib.rs:1365-1460 | From the opening of a season through any calls, votes, results, settlements, closes and claims in any order: if at each close every right pick is on a settled battle (and, in a season of one final, everyone with results has points), and no result after a close concerns a battle picked by somebody who can still claim, and nobody withdraws from the treasury after a close, the treasury always covers all claims and none fails for lack of funds. |
| TournamentPrize.CloseCovers | pallets/abyss-tournament/src/lib.rs:1365-1411 | In any state: if in either prize class nobody is counted or the counted tickets include all right tickets that can still be claimed, the close covers everything. |
| TournamentPrize.ClaimableIs | pallets/abyss-tournament/src/lib.rs:1414-1460 | In every closed state all that can be claimed is exactly the rate of each class times its right tickets of accounts that have not claimed and have all results. |
| TournamentPrize.CoveredExactly | pallets/abyss-tournament/src/lib.rs:1365-1411 | A close covers all claims if and only if the rates that its counted tickets give, times the right tickets that can be claimed, are within the treasury; both are known before the close. |
| TournamentClaims.CoveredMeansPaid | pallets/abyss-tournament/src/lib.rs:1414-1460 | In a closed season everybody entitled is paid, in whatever order claims come, if and only if the treasury covers all claims (no balance overflows, the treasury does not vote). |
| TournamentClaims.SomebodyUnpaid | pallets/abyss-tournament/src/lib.rs:1414-1460 | If it does not, there is an order of claims after which the claim of an entitled account fails. |
| TournamentClaims.RunSound | pallets/abyss-tournament/src/lib.rs:1365-1557 | From the opening of a season through any calls in any order: the treasury never falls short of the claims if and only if no close, and no result or withdrawal after a close, leaves more claimable than it holds. |
| TournamentClaims.StepSound | pallets/abyss-tournament/src/lib.rs:1365-1557 | The same for one call. |
| TournamentClaims.VoteForfeits | pallets/abyss-tournament/src/lib.rs:1494-1673 | A vote after a close never adds to what can be claimed: whoever votes can claim nothing until the new picks are decided. |
| TournamentClaims.UnpickedResult | pallets/abyss-tournament/src/lib.rs:1463-1490 | The result of a battle that nobody who can still claim has picked changes no claim. |
| TournamentShortfall.ClaimsExceedTreasury | pallets/abyss-tournament/src/lib.rs:1365-1460 | A season with two finals, one of them unsettled at the close: at a price of 2 coins the only voter, whose tickets paid 3.4 coins into the treasury, is owed 5.95 and the claim fails. |
| TournamentShortfall.LateResultExceedsTreasury | pallets/abyss-tournament/src/lib.rs:1463-1490 | The same season with every right pick settled at the close, which covers all claims; the first result of the other final, given afterwards, breaks it. |
| TournamentPrize.SettledIsFair | pallets/abyss-tournament/src/lib.rs:1365-1460 | The condition on settlement makes the counting fair in every run. |
| TournamentPrize.CountsAreRight | pallets/abyss-tournament/src/lib.rs:1372-1385 | Tickets counted over points include those the results make right if each of these has scored as much, and are exactly those if nothing else has. |
| TournamentClaims.ClaimTakes | pallets/abyss-tournament/src/lib.rs:1414-1460 | A claim pays what was claimable, takes it out of the treasury, and cannot be repeated. |
| TournamentClaims.ClaimsCovered | pallets/abyss-tournament/src/lib.rs:1414-1460 | Between two closes, with any votes, settlements and claims and with careful results: what is paid and what can still be claimed never exceed what could be claimed at the start. |
| TournamentPrize.PrizedIs | pallets/abyss-tournament/src/lib.rs:1428-1449 | An account's prize is linear in its right tickets of either class; with all results it can be computed unless the cap of a hundred ticket prices leaves 128 bits. |
| TournamentCounts.WinsAgree | pallets/abyss-tournament/src/lib.rs:1414-1451 | In every run, for every selection with results: a claim counts the wins kept step by step plus the right picks on unsettled battles, so the two counts agree if and only if every right pick is settled. |
| TournamentCounts.Resettled | pallets/abyss-tournament/src/lib.rs:1463-1716 | Giving a settled battle a new result lets it be settled again and scores everyone entered in it once more. |
| TournamentCounts.RunKept | pallets/abyss-tournament/src/lib.rs:1494-1673 | In every orderly run each selection is entered in exactly the battles it picks, picks no battle twice, and is scored for exactly those settled, through any appending and splitting. |
| TournamentCounts.SplitKept | pallets/abyss-tournament/src/lib.rs:1620-1672 | A split keeps this for the selection left and for the new one. |
| TournamentCounts.SettleKept | pallets/abyss-tournament/src/lib.rs:2020-2065 | Settling a battle scores exactly those who picked it. |
| TournamentCounts.StepTickets | pallets/abyss-tournament/src/lib.rs:1494-1673 | Voting and splitting neither make nor lose tickets. |
| TournamentRounds.SettlingOpenings | pallets/abyss-tournament/src/lib.rs:1494-1716 | A run in which somebody has voted and all battles that account picked are settled exists if and only if the season opens neither with sixteenth nor with eighth finals. |
| TournamentRounds.NeverAllSettled | pallets/abyss-tournament/src/lib.rs:1677-1692 | In a season that opens with one of these two, whoever has voted has picked a battle that no run settles. |
| TournamentRounds.NoChampions | pallets/abyss-tournament/src/lib.rs:1365-1411 | In such a season, unless a selection has more picks than the season has battles, no tickets are counted for the champions' class at the close. |
| TournamentTable.LeagueTable | pallets/abyss-tournament/src/lib.rs:2067-2090 | In every run each character's line of the league table holds the wins, battles, three points a win and score difference that a recount of the settled league battles gives. |
| TournamentTable.RunChampion | pallets/abyss-tournament/src/lib.rs:1677-1716 | In every run the season has a champion exactly if a final has been settled, and it is the winner of a settled final. |
| TournamentCalls.ResultCall | pallets/abyss-tournament/src/lib.rs:1463-1490 | A result completes its battle and, for a battle of the season, records the side with the higher score, on a draw the visiting one; refused only for an unknown battle or a full season. |
| TournamentCalls.SettleCall | pallets/abyss-tournament/src/lib.rs:1677-1716 | A settlement is refused for any battle not completed or of the wrong kind; it gives everyone entered one battle more, and one win and three points more for a pick on the winner, ranks both sides of a league battle, and names the winner of a final champion. |
| TournamentCalls.PickCall | pallets/abyss-tournament/src/lib.rs:1514-1535 | Which check a pick fails, for first and for later picks. |
| TournamentCalls.VoteCall | pallets/abyss-tournament/src/lib.rs:1494-1553 | A first vote is accepted exactly with at least one ticket and one pick, no battle picked twice, and each pick on a running opening battle with room; picks, tickets and entries afterwards. |
| TournamentCalls.ExtendCall | pallets/abyss-tournament/src/lib.rs:1557-1619 | The same for more picks for a whole selection. |
| TournamentCalls.SplitCall | pallets/abyss-tournament/src/lib.rs:1620-1672 | The same for more picks for some of its tickets, which take along picks and points. |
| TournamentCalls.CloseCall | pallets/abyss-tournament/src/lib.rs:1365-1411 | A close fixes two classes: seven eighths of the treasury rounded down for a win in every battle, the rest for one less, each shared by the tickets counted with so many wins. |
| TournamentCalls.RateIs | pallets/abyss-tournament/src/lib.rs:1436-1448 | One ticket of a class gets exactly the bonus divided by the tickets, rounded down, or a hundred ticket prices if that is less. |
| TournamentCalls.RightIs | pallets/abyss-tournament/src/lib.rs:1430-1435 | A selection counts once all its battles have results, and then by the number of its picks on winners. |
| TournamentCalls.PrizeClaimCall | pallets/abyss-tournament/src/lib.rs:1414-1460 | Which check a refused claim has failed; an accepted one pays the prizes of the account out of the treasury, once, and touches no other balance. |
| TournamentPallet.Season.InitialVote | pallets/abyss-tournament/src/lib.rs:1494-1553 | Checks and enters the picks in order, or rolls back. |
| TournamentPallet.Season.AppendVote | pallets/abyss-tournament/src/lib.rs:1557-1673 | Extends or splits a selection, or rolls back. |
| TournamentPallet.Season.Split | pallets/abyss-tournament/src/lib.rs:1620-1672 | The splitting branch. |
| TournamentPallet.Season.Duplicate | pallets/abyss-tournament/src/lib.rs:2092-2104 | The nested loops find a repeated battle exactly if there is one. |
| TournamentPallet.Season.AppendDuplicate | pallets/abyss-tournament/src/lib.rs:1928-1944 | The collecting loop finds a repetition exactly if there is one. |
| TournamentPallet.Season.SetResult | pallets/abyss-tournament/src/lib.rs:1463-1490 | Runs the call: scores, status and, for a battle of the season, the winner; what it keeps is TournamentCounts.RunKept. |
| TournamentPallet.Season.UpdatePoints | pallets/abyss-tournament/src/lib.rs:2020-2065 | The loop over the entries of a battle scores each once. |
| TournamentPallet.Season.UpdateTable | pallets/abyss-tournament/src/lib.rs:2067-2090 | Writes the winner's and the loser's line of the table one after the other; what the table holds is TournamentTable.LeagueTable. |
| TournamentPallet.Season.SettleFinals | pallets/abyss-tournament/src/lib.rs:1677-1716 | Runs the checks, the scoring loop, the finalization and, for a final, the champion record. |
| TournamentPallet.Season.SettleLeague | pallets/abyss-tournament/src/lib.rs:1795-1826 | Runs the checks in the league's order, the table, the scoring loop and the finalization. |
| TournamentPallet.Season.CountTickets | pallets/abyss-tournament/src/lib.rs:1372-1385 | The counting loop over all points. |
| TournamentPallet.Season.CloseSeason | pallets/abyss-tournament/src/lib.rs:1365-1411 | Fixes the two bonuses. |
| TournamentPallet.Season.CountRight | pallets/abyss-tournament/src/lib.rs:1430-1435 | The counting loop over picks. |
| TournamentPallet.Season.PrizeFor | pallets/abyss-tournament/src/lib.rs:1436-1448 | The loop over prize classes pays the first that fits. |
| TournamentPallet.Season.Claim | pallets/abyss-tournament/src/lib.rs:1414-1460 | Pays once, or changes nothing. |

## Left out

- Merkle hashing, compression, SCALE decoding, account derivation and signature checks: foreign code, idealised above.
- VerifierPallet.Pallet.VerifyAndUpdate: callbacks of revoke receipts are arbitrary runtime calls, run after the receipt
  is gone and without effect on failure; a cancel's removal of liquidity, whose outcome the code ignores, belongs to the
  reward pallet's state.
- VerifierPallet.Pallet.Verify: the price update of the indicator pallet after a batch and the decoding of proofs.
- VerifierPallet.Pallet.SettleOrder: consuming and placing liquidity changes the reward pallet's state; here it only
  succeeds or fails.
- Calls of proposals: only whether they succeed; what they change elsewhere, this pallet included, is not modelled.
- RPC endpoints, public keys and the beneficiary setting of dominators: no effect on money or status.
- The verifier's balances and the token pallet's are one type, but the two state machines are not run as one.
- The legacy reward pair (`Rewards`, `Volumes`): the same shape as the current one.
- `associate_token` and contract lookups of the token pallet: they choose the token, which is a parameter here.
- The second bridge direction's `authorize_to` after a deposit and the donation to new accounts: extra transfers only.
- BettingPallet.Pallet.Drop: taking the betting off the lists of its battles, which only serve queries.
- Computing which item of a betting is hit: the index is given when the battle is finalized.
- Buying, giving and transferring tickets: they appear as tickets granted and as payments into the treasury.
- `go_bet_with_invite`: `go_bet` with a note of who invited the bettor.
- TournamentPallet.Season.SetResult: for a battle of another season the winner and its capacity check belong to that
  season's state.
- TournamentPallet.Season.SettleFinals: for a battle of another season only its status is part of the state.
- TournamentPallet.Season.SettleLeague: likewise.
- Invitations, organizer edits of battles and seasons.
- Changing a result after its settlement is no step of a run; `TournamentCounts.Resettled` says what it does.
- Lengths and indices stored in 8, 16 or 32 bits: selection indices, picks per selection, votes per ballot, points.
- Market, bot, agent, indicator and mall pallets, weights, events and logs.
