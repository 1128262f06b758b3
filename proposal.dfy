/** Proposal gating: which block ranges a new root bundle may cover, whether
    to wait for the previous bundle's executions to age, and the order of
    the checks before a proposal is queued. */
module Proposal {
  import opened Types
  import opened Seqs

  /** `list.indexOf(x)`: the first index holding `x`, or -1. */
  function IndexOf(list: seq<ChainId>, x: ChainId): (i: int)
    ensures -1 <= i < |list|
    ensures i >= 0 ==> list[i] == x && forall j :: 0 <= j < i ==> list[j] != x
    ensures i == -1 <==> x !in list
  {
    if list == [] then -1
    else if list[0] == x then 0
    else
      var k := IndexOf(list[1..], x);
      if k == -1 then -1 else k + 1
  }

  /** The range of `chainId` in `ranges`, found at that chain's position in the
      configured chain list; throws when the chain is unknown or has no range. */
  function BlockRangeForChain(ranges: BundleBlockRanges, chainId: ChainId, chainIdList: seq<ChainId>): (r: Outcome<BlockRange>)
    ensures r.Ok? <==> chainId in chainIdList && IndexOf(chainIdList, chainId) < |ranges|
    ensures r.Ok? ==> r.value == ranges[IndexOf(chainIdList, chainId)]
  {
    var i := IndexOf(chainIdList, chainId);
    if i == -1 then Throw("Could not find chain in chain ID list")
    else if i >= |ranges| then Throw("Invalid block range for chain")
    else Ok(ranges[i])
  }

  /** The block numbers of a list of executed leaves. */
  function ExecutionBlocks(executed: seq<ExecutedLeaf>): (r: seq<int>)
    ensures |r| == |executed|
    ensures forall i :: 0 <= i < |r| ==> r[i] == executed[i].blockNumber
  {
    seq(|executed|, i requires 0 <= i < |executed| => executed[i].blockNumber)
  }

  /** Whether a proposal ending at `mainnetBundleEndBlock` must wait until the
      latest fully executed bundle's pool rebalance executions are at least
      `bufferToPropose` blocks old. */
  function ShouldWaitToPropose(hub: HubPoolView, mainnetBundleEndBlock: int, bufferToPropose: int): (r: Outcome<bool>)
    ensures hub.latestFullyExecutedRootBundle.None? ==> r == Ok(false)
    ensures hub.latestFullyExecutedRootBundle.Some? ==>
      var prior := hub.latestFullyExecutedRootBundle.value;
      var executed := hub.executedLeaves(prior, mainnetBundleEndBlock);
      && (r.Throw? <==> prior.poolRebalanceLeafCount == 0)
      && (prior.poolRebalanceLeafCount != 0 && prior.poolRebalanceLeafCount != |executed| ==> r == Ok(true))
      && (prior.poolRebalanceLeafCount != 0 && prior.poolRebalanceLeafCount == |executed| ==>
            r.Ok? &&
            (r.value <==> exists e :: e in executed && mainnetBundleEndBlock < e.blockNumber + bufferToPropose))
  {
    match hub.latestFullyExecutedRootBundle
    case None => Ok(false)
    case Some(prior) =>
      var executed := hub.executedLeaves(prior, mainnetBundleEndBlock);
      if prior.poolRebalanceLeafCount == 0 then Throw("Pool rebalance leaf count must be > 0")
      else if prior.poolRebalanceLeafCount != |executed| then Ok(true)
      else
        var blocks := ExecutionBlocks(executed);
        var latest := Max(blocks);
        assert forall e :: e in executed ==> e.blockNumber in blocks by {
          forall e | e in executed ensures e.blockNumber in blocks {
            var i :| 0 <= i < |executed| && executed[i] == e;
            assert blocks[i] == e.blockNumber;
          }
        }
        assert exists e :: e in executed && e.blockNumber == latest by {
          var i :| 0 <= i < |blocks| && blocks[i] == latest;
          assert executed[i] in executed;
        }
        Ok(mainnetBundleEndBlock < latest + bufferToPropose)
  }

  /** The ranges of the next proposal, or None when a proposal is pending (and
      not forced), the config store version is stale, or the spoke clients'
      lookback does not reach the ranges' start; throws if the hub pool client
      is not updated or the hub chain has no range. */
  function NextProposalBlockRanges(
    hub: HubPoolView, chainIdList: seq<ChainId>, forceProposal: bool, hasLatestConfigStoreVersion: bool,
    widest: BundleBlockRanges, lookbackInvalid: BundleBlockRanges -> bool): (r: Outcome<Option<BundleBlockRanges>>)
    ensures !hub.isUpdated ==> r.Throw?
    ensures r == Ok(Some(widest)) <==>
      && hub.isUpdated
      && (forceProposal || hub.pendingRootBundle.None?)
      && hasLatestConfigStoreVersion
      && BlockRangeForChain(widest, hub.chainId, chainIdList).Ok?
      && !lookbackInvalid(widest)
    ensures r.Ok? && r.value.Some? ==> r.value.value == widest
    ensures hub.isUpdated && !forceProposal && hub.pendingRootBundle.Some? ==> r == Ok(None)
  {
    if !hub.isUpdated then Throw("HubPoolClient not updated")
    else if !forceProposal && hub.pendingRootBundle.Some? then Ok(None)
    else if !hasLatestConfigStoreVersion then Ok(None)
    else match BlockRangeForChain(widest, hub.chainId, chainIdList)
      case Throw(m) => Throw(m)
      case Ok(_) => if lookbackInvalid(widest) then Ok(None) else Ok(Some(widest))
  }

  /** Where `proposeRootBundle` stops once the roots are built. */
  datatype ProposalStep = BelowUsdThreshold | WaitToPropose | NoPoolRebalanceLeaves | Propose

  /** The gates after building, in order: USD volume threshold, wait check,
      then at least one pool rebalance leaf. */
  function ProposalDecision(usdThreshold: Option<int>, usdVolume: int, wait: Outcome<bool>, poolRebalanceLeafCount: nat): (r: Outcome<ProposalStep>)
    ensures r == Ok(Propose) <==>
      (usdThreshold.None? || usdVolume >= usdThreshold.value) && wait == Ok(false) && poolRebalanceLeafCount > 0
    ensures usdThreshold.Some? && usdVolume < usdThreshold.value ==> r == Ok(BelowUsdThreshold)
    ensures r.Throw? <==> (usdThreshold.None? || usdVolume >= usdThreshold.value) && wait.Throw?
    ensures r == Ok(WaitToPropose) <==> (usdThreshold.None? || usdVolume >= usdThreshold.value) && wait == Ok(true)
  {
    if usdThreshold.Some? && usdVolume < usdThreshold.value then Ok(BelowUsdThreshold)
    else match wait
      case Throw(m) => Throw(m)
      case Ok(w) =>
        if w then Ok(WaitToPropose)
        else if poolRebalanceLeafCount == 0 then Ok(NoPoolRebalanceLeaves)
        else Ok(Propose)
  }

  /** The end block of every range, in order. */
  function EndBlocks(ranges: BundleBlockRanges): (r: seq<int>)
    ensures |r| == |ranges|
    ensures forall i :: 0 <= i < |r| ==> r[i] == ranges[i].1
  {
    seq(|ranges|, i requires 0 <= i < |ranges| => ranges[i].1)
  }

  /** The `proposeRootBundle` transaction for a built root bundle. */
  function ProposalInstruction(hubChainId: ChainId, ranges: BundleBlockRanges, data: RootBundleData): (r: Instruction)
    ensures r.ProposeRootBundle? && r.chainId == hubChainId
    ensures |r.bundleEndBlocks| == |ranges| && forall i :: 0 <= i < |ranges| ==> r.bundleEndBlocks[i] == ranges[i].1
    ensures r.poolRebalanceLeafCount == |data.poolRebalanceLeaves|
    ensures r.poolRebalanceRoot == data.poolRebalanceRoot
    ensures r.relayerRefundRoot == data.relayerRefundRoot && r.slowRelayRoot == data.slowRelayRoot
  {
    ProposeRootBundle(hubChainId, EndBlocks(ranges), |data.poolRebalanceLeaves|,
                      data.poolRebalanceRoot, data.relayerRefundRoot, data.slowRelayRoot)
  }

  /** Two of three leaves executed: the proposer waits whatever the buffer. */
  lemma PartiallyExecutedPriorAlwaysWaits(hub: HubPoolView, mainnetBundleEndBlock: int, bufferToPropose: int)
    requires hub.latestFullyExecutedRootBundle.Some?
    requires hub.latestFullyExecutedRootBundle.value.poolRebalanceLeafCount == 3
    requires |hub.executedLeaves(hub.latestFullyExecutedRootBundle.value, mainnetBundleEndBlock)| == 2
    ensures ShouldWaitToPropose(hub, mainnetBundleEndBlock, bufferToPropose) == Ok(true)
  {
  }

  /** All leaves executed, the latest at block `b`: the proposer waits exactly
      while the end block is below `b + bufferToPropose`. */
  lemma {:induction false} WaitEndsAtBuffer(hub: HubPoolView, mainnetBundleEndBlock: int, bufferToPropose: int)
    requires hub.latestFullyExecutedRootBundle.Some?
    requires
      var prior := hub.latestFullyExecutedRootBundle.value;
      prior.poolRebalanceLeafCount != 0 &&
      prior.poolRebalanceLeafCount == |hub.executedLeaves(prior, mainnetBundleEndBlock)|
    ensures
      var prior := hub.latestFullyExecutedRootBundle.value;
      var blocks := ExecutionBlocks(hub.executedLeaves(prior, mainnetBundleEndBlock));
      |blocks| > 0 &&
      ShouldWaitToPropose(hub, mainnetBundleEndBlock, bufferToPropose) == Ok(mainnetBundleEndBlock < Max(blocks) + bufferToPropose)
  {
    var prior := hub.latestFullyExecutedRootBundle.value;
    var executed := hub.executedLeaves(prior, mainnetBundleEndBlock);
    var blocks := ExecutionBlocks(executed);
    var latest := Max(blocks);
    var i :| 0 <= i < |blocks| && blocks[i] == latest;
    assert executed[i] in executed;
    if mainnetBundleEndBlock < latest + bufferToPropose {
      assert executed[i].blockNumber == latest;
    } else {
      forall e | e in executed ensures !(mainnetBundleEndBlock < e.blockNumber + bufferToPropose) {
        var j :| 0 <= j < |executed| && executed[j] == e;
        assert blocks[j] == e.blockNumber && blocks[j] in blocks;
      }
    }
  }
}
