/** Plain data shared by the dataworker model: leaves, root bundles, events the
    chain observers expose, and the instructions handed to the multicaller. */
module Types {

  type ChainId = int
  type Address = string
  type Root = string
  /** `[startBlock, endBlock]` for one chain. */
  type BlockRange = (int, int)
  /** One block range per chain, in the configured chain order. */
  type BundleBlockRanges = seq<BlockRange>
  /** Per chain, per L1 token running balances (opaque to the engine). */
  type RunningBalances = map<ChainId, map<Address, int>>

  /** Root of a merkle tree over no leaves. */
  const EmptyMerkleRoot: Root := "0x0000000000000000000000000000000000000000000000000000000000000000"
  const ZeroAddress: Address := "0x0000000000000000000000000000000000000000"
  /** 10^18: one unit of ETH in wei. */
  const WeiPerEth: int := 1_000_000_000_000_000_000

  datatype Option<T> = None | Some(value: T)

  /** The value of an operation, or the exception it throws. */
  datatype Outcome<T> = Ok(value: T) | Throw(message: string)

  /** A pool rebalance leaf; `netSendAmounts[i]` is the amount of `l1Tokens[i]`. */
  datatype PoolRebalanceLeafData = PoolRebalanceLeaf(
    chainId: ChainId,
    groupIndex: int,
    leafId: int,
    bundleLpFees: seq<int>,
    netSendAmounts: seq<int>,
    runningBalances: seq<int>,
    l1Tokens: seq<Address>)

  type PoolRebalanceLeaf = l: PoolRebalanceLeafData | |l.netSendAmounts| == |l.l1Tokens|
    witness PoolRebalanceLeaf(0, 0, 0, [], [], [], [])

  /** A relayer refund leaf; a negative `amountToReturn` is owed back by the chain. */
  datatype RelayerRefundLeaf = RelayerRefundLeaf(
    chainId: ChainId,
    leafId: int,
    l2TokenAddress: Address,
    refundAddresses: seq<Address>,
    refundAmounts: seq<int>,
    amountToReturn: int)

  datatype V2RelayData = V2RelayData(
    depositor: Address,
    recipient: Address,
    destinationToken: Address,
    amount: int,
    originChainId: ChainId,
    destinationChainId: ChainId,
    realizedLpFeePct: int,
    relayerFeePct: int,
    depositId: int,
    message: string)

  datatype V3RelayData = V3RelayData(
    depositor: Address,
    recipient: Address,
    exclusiveRelayer: Address,
    inputToken: Address,
    outputToken: Address,
    inputAmount: int,
    outputAmount: int,
    originChainId: ChainId,
    depositId: int,
    fillDeadline: int,
    exclusivityDeadline: int,
    message: string)

  /** The two historical shapes of a slow fill leaf, told apart by their tag. */
  datatype SlowFillLeaf =
    | V2SlowFillLeaf(relay2: V2RelayData, payoutAdjustmentPct: int)
    | V3SlowFillLeaf(relay3: V3RelayData, chainId: ChainId, updatedOutputAmount: int)
  {
    /** The chain the leaf pays out on. */
    function LeafChainId(): ChainId {
      match this
      case V2SlowFillLeaf(r, _) => r.destinationChainId
      case V3SlowFillLeaf(_, c, _) => c
    }
    function OriginChainId(): ChainId {
      if V2SlowFillLeaf? then relay2.originChainId else relay3.originChainId
    }
    function DepositId(): int {
      if V2SlowFillLeaf? then relay2.depositId else relay3.depositId
    }
    function Depositor(): Address {
      if V2SlowFillLeaf? then relay2.depositor else relay3.depositor
    }
    function Recipient(): Address {
      if V2SlowFillLeaf? then relay2.recipient else relay3.recipient
    }
    function Message(): string {
      if V2SlowFillLeaf? then relay2.message else relay3.message
    }
    function OutputToken(): Address {
      if V2SlowFillLeaf? then relay2.destinationToken else relay3.outputToken
    }
    function OutputAmount(): int {
      if V2SlowFillLeaf? then relay2.amount else relay3.outputAmount
    }
  }

  /** A fill observed on a destination chain; `isSlowFill` marks a slow-fill execution. */
  datatype Fill =
    | V2Fill(
        depositId: int,
        originChainId: ChainId,
        destinationChainId: ChainId,
        depositor: Address,
        recipient: Address,
        destinationToken: Address,
        amount: int,
        totalFilledAmount: int,
        realizedLpFeePct: int,
        relayerFeePct: int,
        message: string,
        isSlowFill: bool)
    | V3Fill(
        depositId: int,
        originChainId: ChainId,
        destinationChainId: ChainId,
        depositor: Address,
        recipient: Address,
        inputToken: Address,
        outputToken: Address,
        outputAmount: int,
        fillDeadline: int,
        exclusivityDeadline: int,
        exclusiveRelayer: Address,
        message: string,
        isSlowFill: bool)
  {
    function FillOutputToken(): Address {
      if V2Fill? then destinationToken else outputToken
    }
    function FillOutputAmount(): int {
      if V2Fill? then amount else outputAmount
    }
  }

  /** A root bundle proposal event on the hub chain. */
  datatype ProposedRootBundle = ProposedRootBundle(
    blockNumber: int,
    poolRebalanceRoot: Root,
    relayerRefundRoot: Root,
    slowRelayRoot: Root,
    poolRebalanceLeafCount: nat,
    bundleEvaluationBlockNumbers: seq<int>)

  /** The proposal currently in (or past) its challenge period. */
  datatype PendingRootBundle = PendingRootBundle(
    poolRebalanceRoot: Root,
    relayerRefundRoot: Root,
    slowRelayRoot: Root,
    bundleEvaluationBlockNumbers: seq<int>,
    challengePeriodEndTimestamp: int,
    unclaimedPoolRebalanceLeafCount: nat,
    proposalBlockNumber: int)

  /** An executed pool rebalance leaf event on the hub chain. */
  datatype ExecutedLeaf = ExecutedLeaf(leafId: int, blockNumber: int)

  /** A relayer refund root and slow relay root relayed to a spoke pool. */
  datatype RootBundleRelay = RootBundleRelay(
    blockNumber: int,
    rootBundleId: int,
    relayerRefundRoot: Root,
    slowRelayRoot: Root)

  /** An executed relayer refund leaf event on a spoke pool. */
  datatype RelayerRefundExecution = RelayerRefundExecution(rootBundleId: int, leafId: int)

  datatype Tree<L> = Tree(leaves: seq<L>, root: Root)

  /** What building the pool rebalance root yields (the cached value). */
  datatype PoolRebalanceRoot = PoolRebalanceRoot(
    runningBalances: RunningBalances,
    realizedLpFees: RunningBalances,
    leaves: seq<PoolRebalanceLeaf>,
    root: Root)

  /** The three trees of a root bundle, as rebuilt from block ranges. */
  datatype RootBundleData = RootBundleData(
    poolRebalanceLeaves: seq<PoolRebalanceLeaf>,
    poolRebalanceRoot: Root,
    relayerRefundLeaves: seq<RelayerRefundLeaf>,
    relayerRefundRoot: Root,
    slowFillLeaves: seq<SlowFillLeaf>,
    slowRelayRoot: Root)

  /** The leaf builders and merkle hashing, deterministic and otherwise unknown:
      the pool rebalance builder gets the ranges, the latest mainnet block and the
      mainnet bundle end block; the refund builder gets the ranges, the mainnet
      bundle end block and the pool rebalance leaves and running balances. */
  datatype Builders = Builders(
    poolRebalance: (BundleBlockRanges, int, int) -> PoolRebalanceRoot,
    relayerRefund: (BundleBlockRanges, int, seq<PoolRebalanceLeaf>, RunningBalances) -> Tree<RelayerRefundLeaf>,
    slowRelay: BundleBlockRanges -> Tree<SlowFillLeaf>)

  /** What the hub pool client has observed on the hub chain. */
  datatype HubPoolView = HubPoolView(
    isUpdated: bool,
    currentTime: Option<int>,
    chainId: ChainId,
    hubPoolAddress: Address,
    signerAddress: Address,
    latestBlockSearched: int,
    pendingRootBundle: Option<PendingRootBundle>,
    proposedRootBundles: seq<ProposedRootBundle>,
    validatedRootBundles: seq<ProposedRootBundle>,
    latestProposedRootBundle: ProposedRootBundle,
    latestFullyExecutedRootBundle: Option<ProposedRootBundle>,
    executedLeaves: (ProposedRootBundle, int) -> seq<ExecutedLeaf>,
    followingRootBundle: ProposedRootBundle -> Option<ProposedRootBundle>,
    impliedBundleBlockRanges: ProposedRootBundle -> BundleBlockRanges,
    lastLpFeeUpdate: Address -> Option<int>)

  /** What one spoke pool client has observed on its chain; events are in
      ascending event order. */
  datatype SpokePoolView = SpokePoolView(
    chainId: ChainId,
    spokePoolAddress: Address,
    fromBlock: int,
    rootBundleRelays: seq<RootBundleRelay>,
    relayerRefundExecutions: seq<RelayerRefundExecution>,
    fills: seq<Fill>,
    latestRootBundleId: int)

  /** A transaction queued with the multicaller client. */
  datatype Instruction =
    | ProposeRootBundle(
        chainId: ChainId,
        bundleEndBlocks: seq<int>,
        poolRebalanceLeafCount: nat,
        poolRebalanceRoot: Root,
        relayerRefundRoot: Root,
        slowRelayRoot: Root)
    | DisputeRootBundle(chainId: ChainId, mrkdwn: string)
    | LoadEthForL2Calls(chainId: ChainId, value: int)
    | ExecuteRootBundle(chainId: ChainId, poolLeaf: PoolRebalanceLeaf, root: Root, canFailInSimulation: bool)
    | ExecuteRelayerRefundLeaf(
        chainId: ChainId,
        rootBundleId: int,
        refundLeaf: RelayerRefundLeaf,
        root: Root,
        unpermissioned: bool,
        canFailInSimulation: bool)
    | ExecuteSlowRelayLeaf(
        chainId: ChainId,
        rootBundleId: int,
        slowLeaf: SlowFillLeaf,
        root: Root,
        unpermissioned: bool,
        canFailInSimulation: bool)
    | ExchangeRateCurrent(chainId: ChainId, l1Token: Address)
  {
    /** The contract method the instruction calls. */
    function Method(): string {
      match this
      case ProposeRootBundle(_, _, _, _, _, _) => "proposeRootBundle"
      case DisputeRootBundle(_, _) => "disputeRootBundle"
      case LoadEthForL2Calls(_, _) => "loadEthForL2Calls"
      case ExecuteRootBundle(_, _, _, _) => "executeRootBundle"
      case ExecuteRelayerRefundLeaf(_, _, _, _, _, _) => "executeRelayerRefundLeaf"
      case ExecuteSlowRelayLeaf(_, _, leaf, _, _, _) =>
        if leaf.V2SlowFillLeaf? then "executeSlowRelayLeaf" else "executeV3SlowRelayLeaf"
      case ExchangeRateCurrent(_, _) => "exchangeRateCurrent"
    }
  }
}
