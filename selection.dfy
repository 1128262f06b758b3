/** Which relayed roots, historical bundles and leaves the executors look at,
    and which already-executed leaves they drop. */
module Selection {
  import opened Types
  import opened Seqs

  /** The validated bundles newest first, cut to the newest `lookbackCount`
      when that count is non-zero (`slice` clamps at the list's length). */
  function LatestRootBundles(validated: seq<ProposedRootBundle>, lookbackCount: nat): (r: seq<ProposedRootBundle>)
    ensures lookbackCount == 0 || |validated| <= lookbackCount ==> |r| == |validated|
    ensures lookbackCount != 0 && lookbackCount < |validated| ==> |r| == lookbackCount
    ensures forall i :: 0 <= i < |r| ==> r[i] == validated[|validated| - 1 - i]
  {
    var newestFirst := Reverse(validated);
    if lookbackCount != 0 && lookbackCount < |newestFirst| then newestFirst[..lookbackCount] else newestFirst
  }

  /** Some target bundle has the relay's refund root and slow relay root. */
  predicate RelayedFromBundles(targets: seq<ProposedRootBundle>, relay: RootBundleRelay) {
    exists b :: b in targets && b.relayerRefundRoot == relay.relayerRefundRoot && b.slowRelayRoot == relay.slowRelayRoot
  }

  /** `_getRelayedRootsFromBundles`: the relays whose root pair belongs to one of the targets, in order. */
  function RelayedRootsFromBundles(targets: seq<ProposedRootBundle>, relays: seq<RootBundleRelay>): (r: seq<RootBundleRelay>)
    ensures |r| <= |relays|
    ensures forall x :: x in r <==> x in relays && RelayedFromBundles(targets, x)
  {
    Filter(relays, x => RelayedFromBundles(targets, x))
  }

  /** Relays at or after the spoke client's search start that stem from one of
      the latest bundles and whose refund root is not empty, oldest first. */
  function RefundRelays(spoke: SpokePoolView, latest: seq<ProposedRootBundle>): (r: seq<RootBundleRelay>)
    ensures forall x :: x in r <==>
      && x in spoke.rootBundleRelays && x.blockNumber >= spoke.fromBlock
      && RelayedFromBundles(latest, x) && x.relayerRefundRoot != EmptyMerkleRoot
  {
    var recent := Filter(spoke.rootBundleRelays, (x: RootBundleRelay) => x.blockNumber >= spoke.fromBlock);
    Filter(RelayedRootsFromBundles(latest, recent), (x: RootBundleRelay) => x.relayerRefundRoot != EmptyMerkleRoot)
  }

  /** As `RefundRelays`, with a non-empty slow relay root instead. */
  function SlowRelays(spoke: SpokePoolView, latest: seq<ProposedRootBundle>): (r: seq<RootBundleRelay>)
    ensures forall x :: x in r <==>
      && x in spoke.rootBundleRelays && x.blockNumber >= spoke.fromBlock
      && RelayedFromBundles(latest, x) && x.slowRelayRoot != EmptyMerkleRoot
  {
    var recent := Filter(spoke.rootBundleRelays, (x: RootBundleRelay) => x.blockNumber >= spoke.fromBlock);
    Filter(RelayedRootsFromBundles(latest, recent), (x: RootBundleRelay) => x.slowRelayRoot != EmptyMerkleRoot)
  }

  /** The block up to which a bundle's executions are searched: the following
      proposal's block, falling back to the latest searched block when there is
      none or when that block number is 0 (JavaScript `||`). */
  function FollowingBlockNumber(hub: HubPoolView, bundle: ProposedRootBundle): int {
    match hub.followingRootBundle(bundle)
    case Some(next) => if next.blockNumber != 0 then next.blockNumber else hub.latestBlockSearched
    case None => hub.latestBlockSearched
  }

  /** A proposed bundle is the source of a relayed refund root when the roots
      are equal and it has at least one executed pool rebalance leaf. The
      source's "undefined block" guard can never fire and is omitted. */
  predicate MatchesRefundRelay(hub: HubPoolView, bundle: ProposedRootBundle, relay: RootBundleRelay) {
    && bundle.relayerRefundRoot == relay.relayerRefundRoot
    && |hub.executedLeaves(bundle, FollowingBlockNumber(hub, bundle))| > 0
  }

  /** The slow relay variant also skips a search block of 0 (a falsy number). */
  predicate MatchesSlowRelay(hub: HubPoolView, bundle: ProposedRootBundle, relay: RootBundleRelay) {
    && bundle.slowRelayRoot == relay.slowRelayRoot
    && FollowingBlockNumber(hub, bundle) != 0
    && |hub.executedLeaves(bundle, FollowingBlockNumber(hub, bundle))| > 0
  }

  /** The first proposed bundle that matches the relayed refund root. */
  function MatchingRefundBundle(hub: HubPoolView, relay: RootBundleRelay): (r: Option<ProposedRootBundle>)
    ensures r.None? <==> forall i :: 0 <= i < |hub.proposedRootBundles| ==> !MatchesRefundRelay(hub, hub.proposedRootBundles[i], relay)
    ensures r.Some? ==> exists i :: 0 <= i < |hub.proposedRootBundles| && hub.proposedRootBundles[i] == r.value
                                    && MatchesRefundRelay(hub, r.value, relay)
                                    && forall j :: 0 <= j < i ==> !MatchesRefundRelay(hub, hub.proposedRootBundles[j], relay)
  {
    Find(hub.proposedRootBundles, b => MatchesRefundRelay(hub, b, relay))
  }

  /** The first proposed bundle that matches the relayed slow relay root. */
  function MatchingSlowBundle(hub: HubPoolView, relay: RootBundleRelay): (r: Option<ProposedRootBundle>)
    ensures r.None? <==> forall i :: 0 <= i < |hub.proposedRootBundles| ==> !MatchesSlowRelay(hub, hub.proposedRootBundles[i], relay)
    ensures r.Some? ==> exists i :: 0 <= i < |hub.proposedRootBundles| && hub.proposedRootBundles[i] == r.value
                                    && MatchesSlowRelay(hub, r.value, relay)
                                    && forall j :: 0 <= j < i ==> !MatchesSlowRelay(hub, hub.proposedRootBundles[j], relay)
  {
    Find(hub.proposedRootBundles, b => MatchesSlowRelay(hub, b, relay))
  }

  /** The two matching rules disagree on a bundle carrying both relayed roots
      only when its search block is 0. */
  lemma RefundAndSlowMatchingDifferOnlyAtBlockZero(hub: HubPoolView, bundle: ProposedRootBundle, relay: RootBundleRelay)
    requires bundle.relayerRefundRoot == relay.relayerRefundRoot && bundle.slowRelayRoot == relay.slowRelayRoot
    ensures MatchesSlowRelay(hub, bundle, relay) ==> MatchesRefundRelay(hub, bundle, relay)
    ensures MatchesRefundRelay(hub, bundle, relay) && !MatchesSlowRelay(hub, bundle, relay) ==>
      FollowingBlockNumber(hub, bundle) == 0 && hub.latestBlockSearched == 0
  {
  }

  /** Some executed leaf carries the leaf's id. */
  predicate PoolLeafExecuted(executed: seq<ExecutedLeaf>, leaf: PoolRebalanceLeaf) {
    exists e :: e in executed && e.leafId == leaf.leafId
  }

  /** Pool rebalance leaves whose id no executed leaf carries. */
  function UnexecutedPoolRebalanceLeaves(leaves: seq<PoolRebalanceLeaf>, executed: seq<ExecutedLeaf>): (r: seq<PoolRebalanceLeaf>)
    ensures |r| <= |leaves|
    ensures forall l :: l in r <==> l in leaves && !PoolLeafExecuted(executed, l)
  {
    Filter(leaves, (l: PoolRebalanceLeaf) => !PoolLeafExecuted(executed, l))
  }

  /** The execution events that executing `leaves` at `blockNumber` adds. */
  function PoolExecutions(leaves: seq<PoolRebalanceLeaf>, blockNumber: int): (r: seq<ExecutedLeaf>)
    ensures |r| == |leaves|
    ensures forall i :: 0 <= i < |r| ==> r[i] == ExecutedLeaf(leaves[i].leafId, blockNumber)
  {
    seq(|leaves|, i requires 0 <= i < |leaves| => ExecutedLeaf(leaves[i].leafId, blockNumber))
  }

  /** Once every selected pool rebalance leaf has been executed, a second pass selects nothing. */
  lemma {:induction false} ExecutedPoolLeavesAreNotReselected(leaves: seq<PoolRebalanceLeaf>, executed: seq<ExecutedLeaf>, blockNumber: int)
    ensures
      var selected := UnexecutedPoolRebalanceLeaves(leaves, executed);
      forall l :: l !in UnexecutedPoolRebalanceLeaves(leaves, executed + PoolExecutions(selected, blockNumber))
  {
    var selected := UnexecutedPoolRebalanceLeaves(leaves, executed);
    var added := PoolExecutions(selected, blockNumber);
    forall l | l in selected ensures l !in UnexecutedPoolRebalanceLeaves(leaves, executed + added) {
      var i :| 0 <= i < |selected| && selected[i] == l;
      assert added[i] in executed + added;
    }
  }

  /** An execution event of bundle `rootBundleId` carries the leaf's id. */
  predicate RefundLeafExecuted(executions: seq<RelayerRefundExecution>, rootBundleId: int, leaf: RelayerRefundLeaf) {
    exists e :: e in executions && e.rootBundleId == rootBundleId && e.leafId == leaf.leafId
  }

  /** Relayer refund leaves for `chainId` that no execution event of bundle
      `rootBundleId` covers. */
  function UnexecutedRefundLeaves(
    leaves: seq<RelayerRefundLeaf>, chainId: ChainId, executions: seq<RelayerRefundExecution>, rootBundleId: int): (r: seq<RelayerRefundLeaf>)
    ensures |r| <= |leaves|
    ensures forall l :: l in r <==> l in leaves && l.chainId == chainId && !RefundLeafExecuted(executions, rootBundleId, l)
  {
    var forChain := Filter(leaves, (l: RelayerRefundLeaf) => l.chainId == chainId);
    Filter(forChain, (l: RelayerRefundLeaf) => !RefundLeafExecuted(executions, rootBundleId, l))
  }

  /** The execution events that executing refund `leaves` of bundle `rootBundleId` adds. */
  function RefundExecutions(leaves: seq<RelayerRefundLeaf>, rootBundleId: int): (r: seq<RelayerRefundExecution>)
    ensures |r| == |leaves|
    ensures forall i :: 0 <= i < |r| ==> r[i] == RelayerRefundExecution(rootBundleId, leaves[i].leafId)
  {
    seq(|leaves|, i requires 0 <= i < |leaves| => RelayerRefundExecution(rootBundleId, leaves[i].leafId))
  }

  /** Once every selected refund leaf has been executed, a second pass over the
      same relayed root selects nothing. */
  lemma {:induction false} ExecutedRefundLeavesAreNotReselected(
    leaves: seq<RelayerRefundLeaf>, chainId: ChainId, executions: seq<RelayerRefundExecution>, rootBundleId: int)
    ensures
      var selected := UnexecutedRefundLeaves(leaves, chainId, executions, rootBundleId);
      forall l :: l !in UnexecutedRefundLeaves(leaves, chainId, executions + RefundExecutions(selected, rootBundleId), rootBundleId)
  {
    var selected := UnexecutedRefundLeaves(leaves, chainId, executions, rootBundleId);
    var added := RefundExecutions(selected, rootBundleId);
    forall l | l in selected ensures l !in UnexecutedRefundLeaves(leaves, chainId, executions + added, rootBundleId) {
      var i :| 0 <= i < |selected| && selected[i] == l;
      assert added[i] in executions + added;
    }
  }

  /** A slow fill execution for the same deposit already happened on the chain. */
  predicate SlowFillExecuted(fills: seq<Fill>, leaf: SlowFillLeaf) {
    exists f :: f in fills && f.isSlowFill && f.originChainId == leaf.OriginChainId() && f.depositId == leaf.DepositId()
  }

  /** Slow fill leaves paying out on `chainId` whose deposit has no slow fill yet. */
  function UnexecutedSlowFillLeaves(leaves: seq<SlowFillLeaf>, chainId: ChainId, fills: seq<Fill>): (r: seq<SlowFillLeaf>)
    ensures |r| <= |leaves|
    ensures forall l :: l in r <==> l in leaves && l.LeafChainId() == chainId && !SlowFillExecuted(fills, l)
  {
    var forChain := Filter(leaves, (l: SlowFillLeaf) => l.LeafChainId() == chainId);
    Filter(forChain, (l: SlowFillLeaf) => !SlowFillExecuted(fills, l))
  }

  /** `isMessageEmpty`: no message, or the empty hex string. */
  predicate IsMessageEmpty(message: string) {
    message == "" || message == "0x"
  }

  /** Slow fill leaves the executor is willing to pay for: no message, and
      neither depositor nor recipient is an ignored address. */
  function ExecutableSlowFillLeaves(leaves: seq<SlowFillLeaf>, ignoredAddresses: seq<Address>): (r: seq<SlowFillLeaf>)
    ensures |r| <= |leaves|
    ensures forall l :: l in r <==>
      l in leaves && IsMessageEmpty(l.Message()) && l.Depositor() !in ignoredAddresses && l.Recipient() !in ignoredAddresses
  {
    Filter(leaves, (l: SlowFillLeaf) =>
      IsMessageEmpty(l.Message()) && l.Depositor() !in ignoredAddresses && l.Recipient() !in ignoredAddresses)
  }

  /** A fill is for the deposit a slow fill leaf pays: identical deposit,
      chains, parties, tokens, amount and message, plus the version-specific
      fee or deadline fields; a V2 fill never matches a V3 leaf or vice versa. */
  predicate FillMatchesSlowFill(fill: Fill, leaf: SlowFillLeaf) {
    && fill.depositId == leaf.DepositId()
    && fill.originChainId == leaf.OriginChainId()
    && fill.destinationChainId == leaf.LeafChainId()
    && fill.depositor == leaf.Depositor()
    && fill.recipient == leaf.Recipient()
    && (fill.V3Fill? && leaf.V3SlowFillLeaf? ==> fill.inputToken == leaf.relay3.inputToken)
    && fill.FillOutputToken() == leaf.OutputToken()
    && fill.FillOutputAmount() == leaf.OutputAmount()
    && fill.message == leaf.Message()
    && (if fill.V2Fill? && leaf.V2SlowFillLeaf? then
          fill.realizedLpFeePct == leaf.relay2.realizedLpFeePct && fill.relayerFeePct == leaf.relay2.relayerFeePct
        else if fill.V3Fill? && leaf.V3SlowFillLeaf? then
          && fill.fillDeadline == leaf.relay3.fillDeadline
          && fill.exclusivityDeadline == leaf.relay3.exclusivityDeadline
          && fill.exclusiveRelayer == leaf.relay3.exclusiveRelayer
        else false)
  }

  /** The most recent fill for the leaf's deposit, searching from the newest. */
  function LatestFill(fills: seq<Fill>, leaf: SlowFillLeaf): (r: Option<Fill>)
    ensures r.Some? ==> FillMatchesSlowFill(r.value, leaf) && (r.value.V3Fill? <==> leaf.V3SlowFillLeaf?)
    ensures r.Some? ==> exists i :: 0 <= i < |fills| && fills[i] == r.value
                                    && forall j :: i < j < |fills| ==> !FillMatchesSlowFill(fills[j], leaf)
    ensures r.None? <==> forall i :: 0 <= i < |fills| ==> !FillMatchesSlowFill(fills[i], leaf)
  {
    FindLast(fills, f => FillMatchesSlowFill(f, leaf))
  }
}
