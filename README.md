# Dataworker, modelled in Dafny

A model of the `Dataworker` class of across-relayer-v2
(`src/dataworker/Dataworker.ts`), the agent that settles Across bundles on the
hub chain. It does four things:

- it **proposes** a root bundle for the next block ranges, unless a proposal is
  pending, the USD volume is too small, the previous bundle's executions are
  too recent, or there are no pool rebalance leaves;
- it **validates** a pending root bundle as an ordered classifier: empty
  root, range count, end before start, end beyond the expected end (inside or
  outside the buffer), spoke lookback, config store version, legacy version,
  then the three roots against a rebuild of the implied ranges. It then turns
  the reason into a dispute, an error log or a silent skip;
- it **memoises** pool rebalance roots in `rootCache`, keyed by the block
  ranges, with a switch that turns the cache off;
- it **executes** leaves:
  - the unexecuted pool rebalance leaves of a validated bundle, hub chain
    first, together with the hub chain's slow fills and refunds;
  - the unexecuted relayer refund leaves and slow fill leaves of historical
    bundles, relayed root by relayed root, on every spoke.

  Each leaf's funds are reserved with a balance allocator before the leaf is
  executed.

## Structure

Modules:

- `Types`: the records the dataworker reads:
  - pool rebalance, relayer refund and slow fill leaves (V2/V3);
  - fills, proposed and pending bundles, relayed roots;
  - hub and spoke pool client views;
  - the transactions it queues (`Instruction`).
- `Seqs`: filter, find, fold, dedup, flatten helpers with their lemmas.
- `Proposal`: which ranges to propose, the wait check, and the order of the
  proposal gates.
- `Validation`: the validation classifier and the dispute mapping.
- `Selection`: relayed-root selection, matching historical bundles, and
  the unexecuted-leaf filters.
- `Funding`: reservation amounts, Arbitrum ETH, exchange-rate refresh rules,
  and the bundle's L1 token list.
- `RootCache`: the cache as a function on maps, and its transparency.
- `Allocation`: the balance allocator, a ledger of amounts promised per
  (chain, token, holder), as the class `BalanceAllocator`.
- `Execution`: leaf-by-leaf funding of each batch, and the transactions
  queued for the funded leaves.
- `Engine`: the class `Dataworker`. Its `rootCache` and `queue` fields (the
  multicaller's transaction queue) are updated in place by its methods.

Each imperative method of `Dataworker` is proved against a function of the
`Execution`, `Funding`, `Validation`, `Proposal` or `RootCache` modules, and
the properties the source promises are proved about those functions.

## Model

| member | source | states |
|---|---|---|
| Proposal.BlockRangeForChain | src/dataworker/Dataworker.ts:396-400 | A chain's range is found exactly when the chain is in the configured list at a position the ranges cover; it is the range at that position, otherwise the call throws |
| Proposal.IndexOf | src/dataworker/Dataworker.ts:396-400 | The first position of the chain in the list, or -1 exactly when the chain is not in it |
| Proposal.ShouldWaitToPropose | src/dataworker/Dataworker.ts:242-292 | No fully executed prior bundle: no wait. A prior leaf count of 0 throws. An executed count different from the leaf count: wait. Otherwise wait exactly when some execution block plus the buffer exceeds the mainnet end block |
| Proposal.PartiallyExecutedPriorAlwaysWaits | src/dataworker/Dataworker.ts:265-276 | With two of three prior leaves executed, the proposer waits whatever the buffer |
| Proposal.WaitEndsAtBuffer | src/dataworker/Dataworker.ts:277-292 | With every prior leaf executed, it waits exactly while the end block is below the latest execution block plus the buffer |
| Proposal.NextProposalBlockRanges | src/dataworker/Dataworker.ts:303-373 | Throws when the hub client is not updated. Returns the widest ranges if and only if the client is updated, no proposal is pending (or proposing is forced), the config store is current, the hub chain has a range and the lookback covers the ranges. A pending unforced proposal yields nothing |
| Proposal.ProposalDecision | src/dataworker/Dataworker.ts:415-468 | The gates after building, in order: below the USD threshold stops first; then a throwing wait check throws; then a wait stops; a proposal happens exactly when the threshold is met, the wait check says no and there is at least one leaf |
| Proposal.ProposalInstruction | src/dataworker/Dataworker.ts:1956-1961 | The proposal transaction goes to the hub chain and carries each range's end block, the pool rebalance leaf count and the three roots |
| Validation.ImpliedRanges | src/dataworker/Dataworker.ts:819-822 | The ranges a bundle claims pair each expected start block with the claimed end block of the same chain |
| Validation.ValidateRootBundle | src/dataworker/Dataworker.ts:717-985 | The first failing check decides. An empty root, a wrong range count, an end block below start by more than one, an end beyond expected end plus buffer (dispute text) or beyond expected end within buffer ("bundle-end-block-buffer") each reject without trees. Once those pass: no hub chain range throws; a failed spoke lookback gives "insufficient-dataworker-lookback" and a stale config store "out-of-date-config-store-version", both without trees; otherwise it throws exactly when the hub chain is 1 and the config store version at the hub range's start is at most the legacy limit. The result is valid exactly when every check before the rebuild passes and the three roots and the leaf count match. Trees are returned exactly when the rebuild was reached, and a reason exactly when invalid |
| Validation.DisputeActionFor | src/dataworker/Dataworker.ts:642-667 | A reason is disputed exactly when it is neither a configuration-error reason nor an ignorable one; the lookback and config-version reasons are configuration errors |
| Validation.PendingBundleToValidate | src/dataworker/Dataworker.ts:594-623 | Throws exactly when the hub client is not updated or has no time; a bundle is validated exactly when one is pending and the current time has not passed its challenge period end |
| Validation.DisputesFor | src/dataworker/Dataworker.ts:642-667 | At most one transaction; exactly one `disputeRootBundle` on the hub chain when the verdict is invalid, disputes are submitted and the reason is neither ignorable nor a configuration error |
| Validation.ConfigurationErrorsAreNeverDisputed | src/dataworker/Dataworker.ts:642-667 | A bundle that passes the block checks but fails the spoke lookback or has a stale config store gets an invalid verdict without trees, is logged as a configuration error, and is never disputed |
| Validation.EndAtBufferIsNotDisputed | src/dataworker/Dataworker.ts:776-814 | An end block exactly at the expected end plus its buffer gives "bundle-end-block-buffer", which is ignored and never disputed |
| Validation.EndPastBufferIsDisputed | src/dataworker/Dataworker.ts:780-800 | One block beyond the expected end plus its buffer gives the block dispute text, and exactly one dispute is queued |
| Validation.HaltedChainTolerance | src/dataworker/Dataworker.ts:752-755 | An end block one below its expected start passes the start check; two below fails it |
| Validation.WrongRangeLengthIsNeverRootMismatch | src/dataworker/Dataworker.ts:730-741 | A bundle with one range too few is rejected for its range count and never rebuilt, whatever its roots |
| Validation.ImpliedRangesOfEndBlocks | src/dataworker/Dataworker.ts:819-822 | Claiming the expected ranges' own end blocks implies exactly the expected ranges |
| Validation.ProposedBundleValidates | src/dataworker/Dataworker.ts:918-965 | A bundle proposed from the expected ranges (its end blocks, leaf count and roots) is valid, with its own trees, for a validator that sees the same ranges and builders, provided the spoke lookback covers the ranges, the config store is current, and either the hub chain is not chain 1 or the config store version at the hub range's start is above the legacy limit (otherwise the legacy check throws first) |
| Validation.RefundRootMismatchCarriesTrees | src/dataworker/Dataworker.ts:938-985 | A bundle whose pool part matches but whose refund root differs is invalid, with the roots dispute text and the rebuilt trees |
| Selection.LatestRootBundles | src/dataworker/Dataworker.ts:1730-1733 | The validated bundles newest first (the i-th result is the i-th from the end of the stored list), cut to the lookback count when it is non-zero and smaller than the list |
| Selection.RelayedRootsFromBundles | src/dataworker/Dataworker.ts:2077-2088 | Keeps exactly the relays whose refund and slow relay roots both belong to one of the target bundles |
| Selection.RefundRelays | src/dataworker/Dataworker.ts:1739-1748 | Keeps exactly the relays at or after the spoke's search start that stem from a latest bundle and have a non-empty refund root |
| Selection.SlowRelays | src/dataworker/Dataworker.ts:1010-1019 | The same as the refund relays, with a non-empty slow relay root instead |
| Selection.MatchingRefundBundle | src/dataworker/Dataworker.ts:1758-1773 | The first proposed bundle with the relayed refund root and at least one executed pool leaf up to the following proposal; none exactly when no bundle qualifies |
| Selection.MatchingSlowBundle | src/dataworker/Dataworker.ts:1028-1045 | The first proposed bundle with the relayed slow root, a non-zero search block and at least one executed pool leaf; none exactly when no bundle qualifies |
| Selection.RefundAndSlowMatchingDifferOnlyAtBlockZero | src/dataworker/Dataworker.ts:1033-1038 | For a bundle carrying both relayed roots, the two matching rules differ only when the search block is 0 |
| Selection.UnexecutedPoolRebalanceLeaves | src/dataworker/Dataworker.ts:1472-1480 | Keeps exactly the leaves whose leaf id no executed leaf carries |
| Selection.ExecutedPoolLeavesAreNotReselected | src/dataworker/Dataworker.ts:1478-1480 | After the selected leaves are executed, a second selection is empty |
| Selection.UnexecutedRefundLeaves | src/dataworker/Dataworker.ts:1836-1843 | Keeps exactly the refund leaves for the chain that no execution of the same root bundle id and leaf id covers |
| Selection.ExecutedRefundLeavesAreNotReselected | src/dataworker/Dataworker.ts:1837-1843 | After the selected refund leaves are executed under the relayed id, a second selection is empty |
| Selection.UnexecutedSlowFillLeaves | src/dataworker/Dataworker.ts:1114-1123 | Keeps exactly the slow fill leaves for the chain whose (origin chain, deposit id) has no slow fill yet |
| Selection.ExecutableSlowFillLeaves | src/dataworker/Dataworker.ts:1151-1187 | Keeps exactly the leaves with an empty message whose depositor and recipient are not ignored |
| Selection.LatestFill | src/dataworker/Dataworker.ts:1196-1235 | The last fill matching the leaf's deposit, version and fee or deadline fields; none exactly when no fill matches |
| Funding.RefundReservation | src/dataworker/Dataworker.ts:1880-1881 | The sum of the refunds plus the amount to return when it is positive |
| Funding.PoolRebalanceRequests | src/dataworker/Dataworker.ts:1545-1550 | One hub-pool request per L1 token on the hub chain, asking the net send amount when positive and nothing otherwise |
| Funding.ArbitrumFoldCounts | src/dataworker/Dataworker.ts:2059-2062 | The source's reduce adds 0.02 ETH once per positive net send amount |
| Funding.RequiredEthForArbitrumLeaf | src/dataworker/Dataworker.ts:2053-2068 | 0.02 ETH times the number of positive net send amounts, plus one more for group index 0 |
| Funding.PoolLeafRequests | src/dataworker/Dataworker.ts:1545-1567 | Only positive requests; every positive net send is requested; the ETH request appears when the leaf goes to Arbitrum and the hub pool holds less than its messages cost, and nothing else is requested |
| Funding.SlowFillAmountRequired | src/dataworker/Dataworker.ts:1246-1258 | A V3 leaf needs 0 exactly when a fill exists or its updated output is 0, and otherwise its updated output amount; a V2 leaf needs the LP-fee-adjusted unfilled remainder |
| Funding.ExchangeRateSkipRules | src/dataworker/Dataworker.ts:1666-1705 | A refresh within 7200 s of the last fee compounding, or one that would not raise liquid reserves, is skipped; any other is due |
| Funding.ExchangeRateTokens | src/dataworker/Dataworker.ts:1656-1663 | Each token at most once, and a token is refreshed exactly when it is in the list and due |
| Funding.L1TokensInBundle | src/dataworker/Dataworker.ts:1451-1459 | Distinct tokens, and a token is listed exactly when some leaf has it |
| RootCache.GetPoolRebalanceRoot | src/dataworker/Dataworker.ts:2024-2050 | A hit with caching on returns the cached root without building and leaves the cache alone. Otherwise the builder's root is returned and stored under the ranges. No other key changes |
| RootCache.SecondLookupHits | src/dataworker/Dataworker.ts:2024-2050 | With caching on, a second lookup of the same ranges returns the first root and changes nothing, whatever latest and end blocks it passes |
| RootCache.BuildRootBundle | src/dataworker/Dataworker.ts:494-587 | Throws exactly when the hub chain has no range. Otherwise the pool root, leaves and the new cache are those of the cached lookup at the hub chain's end block; the refund tree is the refund builder's on the ranges, that end block and the pool leaves and running balances; the slow relay tree is the slow builder's on the ranges |
| RootCache.CacheIsTransparent | src/dataworker/Dataworker.ts:2028-2050 | With a builder that ignores the latest mainnet block, a rebuild through a coherent cache yields the uncached trees and keeps the cache coherent |
| Allocation.AdmittedBatchKeepsSolvency | src/dataworker/Dataworker.ts:1566-1568 | Committing an admitted batch never promises a key more than its balance |
| Allocation.SingleRequestAdmission | src/dataworker/Dataworker.ts:1882-1887 | A single request is admitted exactly when it fits in what is left of its key |
| Allocation.ReleaseKeepsSolvency | src/dataworker/Dataworker.ts:1589-1594 | Freeing capacity keeps every key within its balance |
| Allocation.BalanceAllocator.constructor | src/dataworker/Dataworker.ts:1376 | A fresh allocator has the given balances and nothing used |
| Allocation.BalanceAllocator.RequestBalanceAllocations | src/dataworker/Dataworker.ts:1566-1568 | Succeeds exactly when every key can carry the batch's total demand; on success all of it is reserved, otherwise nothing |
| Allocation.BalanceAllocator.RequestBalanceAllocation | src/dataworker/Dataworker.ts:1882-1887 | Succeeds exactly when the amount fits in what is left of the key; on success it is reserved |
| Allocation.BalanceAllocator.AddUsed | src/dataworker/Dataworker.ts:1904-1909 | Adds the (possibly negative) amount to the key's usage; no other key changes |
| Execution.ReleaseHomeSendsKeepsSolvency | src/dataworker/Dataworker.ts:1585-1598 | Releasing a home leaf's positive sends to the hub spoke pool keeps every key within its balance |
| Execution.FundPoolLeaves | src/dataworker/Dataworker.ts:1542-1603 | The funded leaves are no more than the given leaves, and each is one of them (the per-leaf admission, order and frame are the lemmas below) |
| Execution.FundPoolLeavesKeepsSolvency | src/dataworker/Dataworker.ts:1542-1603 | Funding pool rebalance leaves never promises more than a balance |
| Execution.FundPoolLeavesPrefix | src/dataworker/Dataworker.ts:1542-1603 | Funding the first i+1 leaves is one leaf's turn after funding the first i: the leaves are funded in order, each on what the earlier ones left |
| Execution.FundPoolLeavesAdmission | src/dataworker/Dataworker.ts:1544-1568 | Leaf i is funded exactly when its whole request batch is admitted on what the earlier leaves left; a rejected leaf changes neither the funded list nor the ledger |
| Execution.FundPoolLeavesSubsequence | src/dataworker/Dataworker.ts:1542-1603 | The funded leaves keep the order of the given leaves (a subsequence) |
| Execution.FundPoolLeavesFrame | src/dataworker/Dataworker.ts:1542-1603 | A key that no leaf's requests or releases touch keeps its usage |
| Execution.ReleaseHomeSendsFrame | src/dataworker/Dataworker.ts:1585-1598 | Releasing a home leaf's sends changes only the hub spoke pool keys of that leaf's L1 tokens |
| Execution.PoolInstructions | src/dataworker/Dataworker.ts:1605-1652 | Every queued transaction is an ETH load on the hub chain or an `executeRootBundle` of a funded leaf under the bundle's root, which may fail in simulation exactly when the leaf is not for the hub chain; at least one per leaf |
| Execution.PoolInstructionsShape | src/dataworker/Dataworker.ts:1605-1652 | The pool transactions execute exactly the funded leaves, in order; a leaf's execution follows an ETH load exactly when the leaf goes to Arbitrum and the hub pool holds less than it needs; every ETH load is followed by the leaf it carries the required ETH for |
| Execution.FundRefundLeaves | src/dataworker/Dataworker.ts:1873-1916 | The funded refund leaves are no more than the given leaves, and each is one of them (admission, order and frame below) |
| Execution.FundRefundLeavesKeepsSolvency | src/dataworker/Dataworker.ts:1873-1916 | Funding refund leaves never promises more than a balance |
| Execution.FundRefundLeavesAdmission | src/dataworker/Dataworker.ts:1875-1913 | Leaf i is funded exactly when its reservation fits in what the earlier leaves left of its key; when the spoke pool is not the hub pool that key's usage then grows by the reservation; a rejected leaf changes nothing |
| Execution.FundRefundLeavesSubsequence | src/dataworker/Dataworker.ts:1873-1916 | The funded refund leaves keep the order of the given leaves |
| Execution.FundRefundLeavesFrame | src/dataworker/Dataworker.ts:1873-1916 | A key that no leaf's reservation or release touches keeps its usage |
| Execution.RefundInstructions | src/dataworker/Dataworker.ts:1918-1942 | One `executeRelayerRefundLeaf` per funded leaf, in order; it is sent through Multicall3 exactly on chain 1 and allowed to fail in simulation exactly for hub-chain leaves |
| Execution.FundSlowFillLeaves | src/dataworker/Dataworker.ts:1238-1292 | The funded slow fill leaves are some of the given leaves, and none of them needs a zero amount (admission, order and frame below) |
| Execution.FundSlowFillLeavesKeepsSolvency | src/dataworker/Dataworker.ts:1238-1292 | Funding slow fill leaves never promises more than a balance |
| Execution.FundSlowFillLeavesAdmission | src/dataworker/Dataworker.ts:1240-1289 | Leaf i is funded exactly when it needs a non-zero amount that fits in what the earlier leaves left of its key, and then that key's usage grows by the need; otherwise nothing changes |
| Execution.FundSlowFillLeavesSubsequence | src/dataworker/Dataworker.ts:1238-1292 | The funded slow fill leaves keep the order of the given leaves |
| Execution.FundSlowFillLeavesFrame | src/dataworker/Dataworker.ts:1238-1292 | A key no leaf reserves on keeps its usage |
| Execution.FilledV3SlowFillIsSkipped | src/dataworker/Dataworker.ts:1249-1263 | A V3 leaf whose deposit has a matching fill is not funded and reserves nothing |
| Execution.SlowInstructions | src/dataworker/Dataworker.ts:1295-1330 | One slow relay execution per funded leaf, in order; it is sent through Multicall3 and allowed to fail in simulation exactly when executed on the hub chain |
| Execution.PoolLeavesForChain | src/dataworker/Dataworker.ts:1488 | Exactly the pool rebalance leaves for the hub chain |
| Execution.PoolLeavesNotForChain | src/dataworker/Dataworker.ts:1525 | Exactly the pool rebalance leaves for the other chains |
| Execution.RefundLeavesForChain | src/dataworker/Dataworker.ts:1513 | Exactly the refund leaves for the hub chain |
| Execution.SlowFillLeavesForChain | src/dataworker/Dataworker.ts:1505 | Exactly the slow fill leaves paying out on the hub chain |
| Engine.Dataworker.constructor | src/dataworker/Dataworker.ts:94-124 | The configuration is as given; the cache and the queue start empty |
| Engine.Dataworker.ClearCache | src/dataworker/Dataworker.ts:133-136 | The root cache is empty afterwards and the queue is untouched |
| Engine.Dataworker.GetPoolRebalanceRoot | src/dataworker/Dataworker.ts:2006-2051 | The root and the new cache are those of `RootCache.GetPoolRebalanceRoot` on the old cache |
| Engine.Dataworker.RebuildTrees | src/dataworker/Dataworker.ts:525-586 | The pool root comes through the cache, and the refund and slow relay trees are built from it and the ranges |
| Engine.Dataworker.BuildRootBundle | src/dataworker/Dataworker.ts:494-587 | Agrees with `RootCache.BuildRootBundle`: throws with the cache unchanged when the hub chain has no range, otherwise returns its trees and cache |
| Engine.Dataworker.EnqueueRootBundleProposal | src/dataworker/Dataworker.ts:1945-1984 | Appends exactly the proposal transaction to the queue |
| Engine.Dataworker.SubmitDisputeWithMrkdwn | src/dataworker/Dataworker.ts:1986-2004 | Appends exactly one dispute on the hub chain to the queue |
| Engine.Dataworker.ProposeRootBundle | src/dataworker/Dataworker.ts:375-492 | Uses the forced range if set, otherwise the next ranges; with none, stops with nothing queued. Builds through the cache, then follows `ProposalDecision`; the queue grows by one proposal exactly when the decision is to propose and proposals are submitted |
| Engine.Dataworker.ValidateRootBundle | src/dataworker/Dataworker.ts:670-986 | The verdict is `Validation.ValidateRootBundle` on the trees rebuilt at the proposal block; the cache changes only when the rebuild is reached; nothing is queued |
| Engine.Dataworker.ValidatePendingRootBundle | src/dataworker/Dataworker.ts:589-668 | Gates on the hub client and the challenge period; then queues exactly the disputes `DisputesFor` names for the verdict |
| Engine.Dataworker.L1TokensInBundle | src/dataworker/Dataworker.ts:1451-1459 | The loop yields the distinct L1 tokens of the leaves in order of first appearance |
| Engine.Dataworker.UpdateExchangeRates | src/dataworker/Dataworker.ts:1655-1719 | Appends one `exchangeRateCurrent` per distinct due token, in first-appearance order, when executions are submitted, and nothing else |
| Engine.Dataworker.SyncExchangeRate | src/dataworker/Dataworker.ts:1657-1717 | One token's turn: the distinct tokens seen grow by it when it is new, and the refreshes queued so far become those due among the distinct tokens including it |
| Engine.Dataworker.UpdateExchangeRate | src/dataworker/Dataworker.ts:1666-1717 | Appends the token's refresh exactly when executions are submitted and the refresh is due |
| Engine.Dataworker.ExecutePoolRebalanceLeafBatch | src/dataworker/Dataworker.ts:1532-1653 | The funded leaves and the new ledger are those of `FundPoolLeaves`, and the queue grows by `PoolInstructions` of the funded leaves when executions are submitted |
| Engine.Dataworker.EnqueuePoolRebalanceLeaves | src/dataworker/Dataworker.ts:1605-1652 | Appends `PoolInstructions` of the funded leaves |
| Engine.Dataworker.ExecuteRelayerRefundLeafBatch | src/dataworker/Dataworker.ts:1860-1943 | Throws, with nothing reserved or queued, exactly when some leaf is for another chain; otherwise funds as `FundRefundLeaves` and queues `RefundInstructions` of the funded leaves when submitting |
| Engine.Dataworker.EnqueueRelayerRefundLeaves | src/dataworker/Dataworker.ts:1918-1942 | Appends `RefundInstructions` of the funded leaves |
| Engine.Dataworker.ExecuteSlowFillLeafBatch | src/dataworker/Dataworker.ts:1141-1331 | Drops leaves with a message or an ignored party. Throws, with nothing reserved or queued, exactly when a remaining leaf pays out elsewhere. Otherwise funds as `FundSlowFillLeaves` and queues `SlowInstructions` of the funded leaves when submitting |
| Engine.Dataworker.EnqueueSlowFillLeaves | src/dataworker/Dataworker.ts:1294-1330 | Appends `SlowInstructions` of the funded leaves |
| Engine.Dataworker.ExecuteRefundRelay | src/dataworker/Dataworker.ts:1758-1855 | Throw, queue, ledger and cache are exactly those of `RefundRelayRun` on the old ledger and cache. Without a rebuilt matching root nothing is queued or reserved; no match changes nothing. Only appends, and only when submitting; each new transaction executes an unexecuted refund leaf of the spoke's chain under the relayed id and root, from a matching bundle that passed the lookback check. Throws exactly when the matching bundle's ranges lack the hub chain. Solvency is kept |
| Engine.Dataworker.ExecuteRefundLeavesUnderRelay | src/dataworker/Dataworker.ts:1836-1854 | Under a matched relayed root that passed the lookback check: the ledger is that of `FundRefundLeaves` on the unexecuted leaves of the spoke's chain, and the queue grows by `RefundInstructions` of the funded ones under the relayed id and root when submitting; each new transaction is one the refund executor may queue; solvency is kept |
| Engine.Dataworker.ExecuteRefundRelaysOnSpoke | src/dataworker/Dataworker.ts:1737-1856 | Throw, queue, ledger and cache are exactly those of `RefundRelaysRun`: the spoke's refund relays oldest first, each on what the previous left, stopping at the first throw |
| Engine.Dataworker.ExecuteRelayerRefundLeaves | src/dataworker/Dataworker.ts:1721-1858 | Throw, queue, ledger and cache are exactly those of `RefundSpokesRun` over the latest validated bundles. Every appended transaction executes, on some spoke, an unexecuted refund leaf of that spoke's chain under a relayed root of those bundles; nothing is queued unless submitting; solvency is kept |
| Engine.RefundInstructionsUnderRelay | src/dataworker/Dataworker.ts:1836-1854 | Refund executions of funded leaves that are for the spoke's chain and not executed under the relayed id are ones the refund executor may queue under that relay |
| Engine.RefundRelayRunSound | src/dataworker/Dataworker.ts:1758-1855 | One relayed refund root queues only executions the refund executor may queue, nothing when not submitting, and keeps the ledger solvent |
| Engine.RefundRelayRunEffects | src/dataworker/Dataworker.ts:1758-1835 | One relayed refund root touches the queue or the ledger only when a matching bundle's rebuilt refund root is the relayed one, and throws exactly when the matching bundle's ranges lack the hub chain |
| Engine.RefundRelaysRunSound | src/dataworker/Dataworker.ts:1737-1856 | A spoke's refund relays in turn queue only executions under one of them, nothing when not submitting, and keep the ledger solvent |
| Engine.RefundSpokesRunSound | src/dataworker/Dataworker.ts:1721-1858 | All spokes in turn queue only executions the refund executor may queue on one of them, nothing when not submitting, and keep the ledger solvent |
| Engine.Dataworker.ExecuteSlowRelay | src/dataworker/Dataworker.ts:1028-1135 | Throw, queue, ledger and cache are exactly those of `SlowRelayRun` on the old ledger and cache. Without a rebuilt matching root nothing is queued or reserved; no match changes nothing. Only appends, and only when submitting; each new transaction executes a slow fill of the spoke's chain under the relayed id and root, from a matching bundle that passed the lookback check, with no slow fill yet, no message, no ignored party and a non-zero need. Throws exactly when the matching bundle's ranges lack the hub chain. Solvency is kept |
| Engine.Dataworker.ExecuteSlowFillsUnderRelay | src/dataworker/Dataworker.ts:1114-1135 | Under a matched relayed root that passed the lookback check: the ledger is that of `FundSlowFillLeaves` on the executable unexecuted leaves of the spoke's chain, and the queue grows by `SlowInstructions` of the funded ones when submitting; each new transaction is one the slow relay executor may queue; solvency is kept |
| Engine.Dataworker.ExecuteSlowRelaysOnSpoke | src/dataworker/Dataworker.ts:1008-1137 | Throw, queue, ledger and cache are exactly those of `SlowRelaysRun`: the spoke's slow relays oldest first, each on what the previous left, stopping at the first throw |
| Engine.Dataworker.ExecuteSlowRelayLeaves | src/dataworker/Dataworker.ts:991-1139 | Throw, queue, ledger and cache are exactly those of `SlowSpokesRun` over the latest validated bundles. Every appended transaction executes, on some spoke, a slow fill leaf under a relayed root of those bundles, as above; nothing is queued unless submitting; solvency is kept |
| Engine.SlowInstructionsUnderRelay | src/dataworker/Dataworker.ts:1114-1135 | Slow fill executions of funded leaves of the spoke's chain with no slow fill yet, no message, no ignored party and a non-zero need are ones the slow executor may queue under that relay |
| Engine.SlowRelayRunSound | src/dataworker/Dataworker.ts:1028-1135 | One relayed slow relay root queues only executions the slow executor may queue, nothing when not submitting, and keeps the ledger solvent |
| Engine.SlowRelayRunEffects | src/dataworker/Dataworker.ts:1028-1112 | One relayed slow relay root touches the queue or the ledger only when a matching bundle's rebuilt slow relay root is the relayed one, and throws exactly when the matching bundle's ranges lack the hub chain |
| Engine.SlowRelaysRunSound | src/dataworker/Dataworker.ts:1008-1137 | A spoke's slow relays in turn queue only executions under one of them, nothing when not submitting, and keep the ledger solvent |
| Engine.SlowSpokesRunSound | src/dataworker/Dataworker.ts:991-1139 | All spokes in turn queue only executions the slow executor may queue on one of them, nothing when not submitting, and keep the ledger solvent |
| Engine.Dataworker.ExecuteHomeChainLeaves | src/dataworker/Dataworker.ts:1488-1520 | Queue and ledger are exactly those of `HomeChainRun`: the hub chain's pool leaves funded first, then its executable slow fills, then its refunds, each on what the previous phase left, queued in that order when submitting. Every new transaction is one of those phases' and the fills and refunds run under the hub spoke pool's latest root bundle id, through Multicall3 as the source flags them. Solvency is kept |
| Engine.PoolLeavesSegment | src/dataworker/Dataworker.ts:1488-1528 | The pool transactions of funded unexecuted leaves form a stretch of phase 0 (home leaves) or phase 3 (other chains' leaves) of the pool executor's queue |
| Engine.SlowLeavesSegment | src/dataworker/Dataworker.ts:1505-1512 | The hub chain's slow fill executions of bundle leaves form a stretch of phase 1, under the next root bundle id and the bundle's slow relay root |
| Engine.RefundLeavesSegment | src/dataworker/Dataworker.ts:1513-1520 | The hub chain's refund executions of bundle leaves form a stretch of phase 2, under the next root bundle id and the bundle's refund root |
| Engine.HomeThenOtherChains | src/dataworker/Dataworker.ts:1488-1529 | The home phases followed by the other chains' phase make one stretch in phase order; with nothing for the home chain only phase 3 appears |
| Engine.Dataworker.ExecuteUnexecutedPoolLeaves | src/dataworker/Dataworker.ts:1488-1529 | Queue and ledger are exactly those of `UnexecutedPoolRun`: the home phases when some unexecuted leaf is the hub chain's, then the other chains' leaves. The appended transactions follow the phase order (home pool leaves, home slow fills, home refunds, other chains' pool leaves). Without home leaves only other chains' pool leaves are queued |
| Engine.Dataworker.ExecuteOtherChainLeaves | src/dataworker/Dataworker.ts:1523-1528 | Queue and ledger are exactly those of `OtherChainRun`: the other chains' leaves funded as `FundPoolLeaves` and `PoolInstructions` of the funded ones queued when submitting; only executions of other chains' unexecuted pool leaves (and their ETH loads) appear |
| Engine.Dataworker.ExecutePoolRebalanceLeaves | src/dataworker/Dataworker.ts:1374-1530 | Throws on an unready hub client; with no pending bundle or an invalid one, nothing is queued or reserved. The verdict and cache are those of the validation. For a valid bundle, the rate refreshes of its L1 tokens come first. During the challenge period nothing else happens; with every leaf executed nothing else happens; otherwise queue and ledger are exactly the refreshes followed by `UnexecutedPoolRun` of the unexecuted leaves, in phase order. Solvency is kept |
| Engine.AppendNewTokens | src/dataworker/Dataworker.ts:1452-1457 | Appending a leaf's tokens not yet collected keeps the list equal to the distinct tokens seen so far, in order |
| Engine.FundPoolRebalanceLeaf | src/dataworker/Dataworker.ts:1544-1600 | One leaf's request batch and, on success, the release of its home-chain sends, as `PoolLeafStep` |
| Engine.ReleaseHomeSendAmounts | src/dataworker/Dataworker.ts:1585-1598 | Frees each positive send of a home-chain leaf on the hub spoke pool, as `ReleaseHomeSends` |
| Engine.FundRelayerRefundLeaf | src/dataworker/Dataworker.ts:1875-1913 | One refund leaf's reservation and, on success, the release of a hub-chain leaf's amount to return, as `RefundLeafStep` |
| Engine.FundSlowFillLeaf | src/dataworker/Dataworker.ts:1240-1289 | One slow fill leaf's reservation, skipped when the leaf needs nothing, as `SlowLeafStep` |

## Left out

- Logging, markdown generation and pretty printing are left out. Dispute and
  block-check texts are opaque strings in `ValidationContext`. Only the fixed
  reasons are literal.
- The leaf builders, Merkle trees and hashing are uninterpreted, deterministic
  functions in `Builders`, and roots are opaque strings.
  `bundleDataClient.loadData` and `getRefund` are inputs. The bundleDataClient
  cache that `clearCache` also empties is not part of this model.
- `getImpliedBundleBlockRanges` is taken from the hub pool view.
  `getWidestPossibleExpectedBlockRange` and `getNextBundleStartBlockNumber`
  are given as the `widest` input.
- The spoke lookback check `blockRangesAreInvalidForSpokeClients` is a
  function input. It answers false when no earliest blocks are given. The
  V3 flag it receives is folded into it.
- The config store is reduced to inputs: `hasLatestConfigStoreVersion` and
  the version at a block. The legacy limit
  `TRANSFER_THRESHOLD_MAX_CONFIG_STORE_VERSION` is taken as 1.
- On-chain reads are inputs: the hub pool's ETH balance (read once per
  run), provider balances (the allocator's `balances`), and the simulated
  `liquidReservesDelta` of a token.
- The USD volume of a bundle (`computePoolRebalanceUsdVolume`) is an input
  function.
- Environment reads are configuration fields: `IGNORED_ADDRESSES` and
  `DATAWORKER_DISABLE_REBALANCE_ROOT_CACHE`. Address checksumming is the
  identity.
- `Promise.all` fan-out is modelled as sequential, in leaf order and in
  ascending chain order over spokes.
  - The model takes validated root bundles and relays to be stored in
    ascending block order. `sortEventsDescending` is then the reversal that
    `Selection.LatestRootBundles` applies to the validated bundles (line
    1730), and the relays' sort descending then ascending (lines 1739 and
    1757) is the stored order. An input stored out of block order is not
    re-sorted.
  - In a batch, the throw for a leaf on another chain is checked before
    any reservation. The source's concurrent callbacks may have reserved
    funds for earlier leaves before that throw; the model does not capture
    those reservations.
- `BalanceAllocator` internals are modelled as a ledger with all-or-nothing
  batch admission. `l2TokensToCountTowardsSpokePoolLeafExecutionCapital` is
  taken to return the leaf's own token, so a refund or slow fill reserves one
  token.
- `getL1TokenInfoForL2Token` and token symbols only feed logs and are left
  out.
- `isV3` only selects the lookback rule and is left out.
- The branch "valid without expected trees" (lines 1434-1443) cannot happen
  in the model: a valid verdict always carries its trees.
- Engine.Dataworker.ExecutePoolRebalanceLeaves requires the hub chain's spoke
  client to exist. The source would fail on a missing one when it reads
  `getLatestRootBundleId`.
- The `followingBlockNumber === undefined` guard of the refund matching
  (line 1765) can never fire, since `||` falls back to the latest searched
  block, and is omitted.
