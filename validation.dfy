/** Validation of a pending root bundle as an ordered classifier (the first
    failing check decides the reason), and the mapping of a reason onto
    ignore, error-log or dispute. */
module Validation {
  import opened Types
  import opened Proposal

  const EmptyRootReason: string := "Disputed pending root bundle with empty pool rebalance root"
  const RangeLengthReason: string := "Disputed pending root bundle with incorrect bundle block range length"
  const EndBlockBufferReason: string := "bundle-end-block-buffer"
  const InsufficientLookbackReason: string := "insufficient-dataworker-lookback"
  const StaleConfigStoreReason: string := "out-of-date-config-store-version"

  /** Reasons that are logged at debug level and never disputed. */
  const IgnoreDisputeReasons: set<string> := {EndBlockBufferReason}
  /** Reasons that point at the validator's own configuration: logged as errors, never disputed. */
  const ErrorDisputeReasons: set<string> := {InsufficientLookbackReason, StaleConfigStoreReason}

  /** The throw for a bundle only the legacy validation code can check. */
  const LegacyValidationMessage: string := "Must use relayer-v2 code at commit 412ddc30af72c2ac78f9e4c8dccfccfd0eb478ab to validate a bundle with transferThreshold set"

  /** The last config store version whose bundles need the legacy validation code. */
  const TransferThresholdMaxConfigStoreVersion: int := 1

  /** What `validateRootBundle` returns: `reason` is absent exactly when valid. */
  datatype Verdict = Verdict(valid: bool, reason: Option<string>, expectedTrees: Option<RootBundleData>)

  /** The validator's inputs other than the bundle, the ranges and the rebuilt trees.
      `lookbackInvalid` answers the spoke clients' lookback check for a set of
      ranges (false when no earliest blocks were given); `configStoreVersionAt`
      gives the config store version at a hub block; the two markdown strings are
      the dispute texts the markdown generators produce. */
  datatype ValidationContext = ValidationContext(
    hubChainId: ChainId,
    chainIdList: seq<ChainId>,
    endBlockBuffers: seq<int>,
    lookbackInvalid: BundleBlockRanges -> bool,
    hasLatestConfigStoreVersion: bool,
    configStoreVersionAt: int -> int,
    blocksMarkdown: string,
    rootsMarkdown: string)

  /** Some claimed end block lies more than one block before its expected start. */
  predicate EndBeforeStart(ends: seq<int>, widest: BundleBlockRanges)
    requires |ends| == |widest|
  {
    exists i :: 0 <= i < |ends| && ends[i] + 1 < widest[i].0
  }

  /** Some claimed end block lies beyond the expected end block. */
  predicate BeyondExpectedEnd(ends: seq<int>, widest: BundleBlockRanges)
    requires |ends| == |widest|
  {
    exists i :: 0 <= i < |ends| && ends[i] > widest[i].1
  }

  /** Some claimed end block lies beyond the expected end plus its chain's
      buffer. A chain without a configured buffer compares against an undefined
      sum, which is never exceeded. */
  predicate BeyondBuffer(ends: seq<int>, widest: BundleBlockRanges, endBlockBuffers: seq<int>)
    requires |ends| == |widest|
  {
    exists i :: 0 <= i < |ends| && i < |endBlockBuffers| && ends[i] > widest[i].1 + endBlockBuffers[i]
  }

  /** The ranges a bundle claims: the expected start blocks with the claimed end blocks. */
  function ImpliedRanges(widest: BundleBlockRanges, ends: seq<int>): (r: BundleBlockRanges)
    requires |ends| == |widest|
    ensures |r| == |widest|
    ensures forall i :: 0 <= i < |r| ==> r[i] == (widest[i].0, ends[i])
  {
    seq(|widest|, i requires 0 <= i < |widest| => (widest[i].0, ends[i]))
  }

  /** Whether the checks before the rebuild fail with a verdict or a throw, or
      pass and name the ranges and mainnet end block to rebuild with. */
  datatype Precheck = Decided(verdict: Verdict) | Rebuild(implied: BundleBlockRanges, mainnetBundleEndBlock: int)

  /** Steps 1 to 7 of the validation, in the source's order. */
  function Prechecks(ctx: ValidationContext, pending: PendingRootBundle, widest: BundleBlockRanges): Outcome<Precheck> {
    var ends := pending.bundleEvaluationBlockNumbers;
    if pending.poolRebalanceRoot == EmptyMerkleRoot then Ok(Decided(Verdict(false, Some(EmptyRootReason), None)))
    else if |ends| != |widest| then Ok(Decided(Verdict(false, Some(RangeLengthReason), None)))
    else if EndBeforeStart(ends, widest) then Ok(Decided(Verdict(false, Some(ctx.blocksMarkdown), None)))
    else if BeyondExpectedEnd(ends, widest) then
      if BeyondBuffer(ends, widest, ctx.endBlockBuffers) then Ok(Decided(Verdict(false, Some(ctx.blocksMarkdown), None)))
      else Ok(Decided(Verdict(false, Some(EndBlockBufferReason), None)))
    else
      var implied := ImpliedRanges(widest, ends);
      match BlockRangeForChain(implied, ctx.hubChainId, ctx.chainIdList)
      case Throw(m) => Throw(m)
      case Ok(mainnet) =>
        if ctx.lookbackInvalid(implied) then Ok(Decided(Verdict(false, Some(InsufficientLookbackReason), None)))
        else if !ctx.hasLatestConfigStoreVersion then Ok(Decided(Verdict(false, Some(StaleConfigStoreReason), None)))
        else if ctx.configStoreVersionAt(mainnet.0) <= TransferThresholdMaxConfigStoreVersion && ctx.hubChainId == 1 then
          Throw(LegacyValidationMessage)
        else Ok(Rebuild(implied, mainnet.1))
  }

  /** The pending bundle's three roots against the rebuilt trees (step 8). */
  predicate RootsMatch(pending: PendingRootBundle, rebuilt: RootBundleData) {
    && |rebuilt.poolRebalanceLeaves| >= pending.unclaimedPoolRebalanceLeafCount
    && rebuilt.poolRebalanceRoot == pending.poolRebalanceRoot
    && rebuilt.relayerRefundRoot == pending.relayerRefundRoot
    && rebuilt.slowRelayRoot == pending.slowRelayRoot
  }

  /** Pool rebalance part first, then relayer refund root, then slow relay root;
      any mismatch is a dispute carrying the rebuilt trees. */
  function CompareRoots(pending: PendingRootBundle, rebuilt: RootBundleData, rootsMarkdown: string): Verdict {
    if |rebuilt.poolRebalanceLeaves| < pending.unclaimedPoolRebalanceLeafCount
       || rebuilt.poolRebalanceRoot != pending.poolRebalanceRoot then
      Verdict(false, Some(rootsMarkdown), Some(rebuilt))
    else if rebuilt.relayerRefundRoot != pending.relayerRefundRoot then
      Verdict(false, Some(rootsMarkdown), Some(rebuilt))
    else if rebuilt.slowRelayRoot != pending.slowRelayRoot then
      Verdict(false, Some(rootsMarkdown), Some(rebuilt))
    else
      Verdict(true, None, Some(rebuilt))
  }

  /** All checks before the rebuild pass. */
  predicate ReadyToRebuild(ctx: ValidationContext, pending: PendingRootBundle, widest: BundleBlockRanges) {
    Prechecks(ctx, pending, widest).Ok? && Prechecks(ctx, pending, widest).value.Rebuild?
  }

  /** The bundle passes the checks on its root and its block numbers (steps 1 to 4). */
  predicate BlockChecksPass(ctx: ValidationContext, pending: PendingRootBundle, widest: BundleBlockRanges) {
    && pending.poolRebalanceRoot != EmptyMerkleRoot
    && |pending.bundleEvaluationBlockNumbers| == |widest|
    && !EndBeforeStart(pending.bundleEvaluationBlockNumbers, widest)
    && !BeyondExpectedEnd(pending.bundleEvaluationBlockNumbers, widest)
  }

  /** `validateRootBundle`, with `rebuilt` the trees that rebuilding the
      implied ranges yields. */
  function ValidateRootBundle(ctx: ValidationContext, pending: PendingRootBundle, widest: BundleBlockRanges, rebuilt: RootBundleData): (r: Outcome<Verdict>)
    ensures pending.poolRebalanceRoot == EmptyMerkleRoot ==>
      r == Ok(Verdict(false, Some(EmptyRootReason), None))
    ensures pending.poolRebalanceRoot != EmptyMerkleRoot && |pending.bundleEvaluationBlockNumbers| != |widest| ==>
      r == Ok(Verdict(false, Some(RangeLengthReason), None))
    ensures (pending.poolRebalanceRoot != EmptyMerkleRoot && |pending.bundleEvaluationBlockNumbers| == |widest|
      && EndBeforeStart(pending.bundleEvaluationBlockNumbers, widest)) ==>
      r == Ok(Verdict(false, Some(ctx.blocksMarkdown), None))
    ensures (pending.poolRebalanceRoot != EmptyMerkleRoot && |pending.bundleEvaluationBlockNumbers| == |widest|
      && !EndBeforeStart(pending.bundleEvaluationBlockNumbers, widest)
      && BeyondExpectedEnd(pending.bundleEvaluationBlockNumbers, widest)
      && BeyondBuffer(pending.bundleEvaluationBlockNumbers, widest, ctx.endBlockBuffers)) ==>
      r == Ok(Verdict(false, Some(ctx.blocksMarkdown), None))
    ensures (pending.poolRebalanceRoot != EmptyMerkleRoot && |pending.bundleEvaluationBlockNumbers| == |widest|
      && !EndBeforeStart(pending.bundleEvaluationBlockNumbers, widest)
      && BeyondExpectedEnd(pending.bundleEvaluationBlockNumbers, widest)
      && !BeyondBuffer(pending.bundleEvaluationBlockNumbers, widest, ctx.endBlockBuffers)) ==>
      r == Ok(Verdict(false, Some(EndBlockBufferReason), None))
    ensures BlockChecksPass(ctx, pending, widest) ==>
      var implied := ImpliedRanges(widest, pending.bundleEvaluationBlockNumbers);
      var mainnet := BlockRangeForChain(implied, ctx.hubChainId, ctx.chainIdList);
      && (mainnet.Throw? ==> r.Throw?)
      && (mainnet.Ok? && ctx.lookbackInvalid(implied) ==>
            r == Ok(Verdict(false, Some(InsufficientLookbackReason), None)))
      && (mainnet.Ok? && !ctx.lookbackInvalid(implied) && !ctx.hasLatestConfigStoreVersion ==>
            r == Ok(Verdict(false, Some(StaleConfigStoreReason), None)))
      && (mainnet.Ok? && !ctx.lookbackInvalid(implied) && ctx.hasLatestConfigStoreVersion ==>
            (r.Throw? <==> ctx.hubChainId == 1 && ctx.configStoreVersionAt(mainnet.value.0) <= TransferThresholdMaxConfigStoreVersion))
    ensures r.Ok? && r.value.expectedTrees.Some? ==>
      ReadyToRebuild(ctx, pending, widest) && r.value.expectedTrees == Some(rebuilt)
    ensures ReadyToRebuild(ctx, pending, widest) ==> r.Ok? && r.value.expectedTrees == Some(rebuilt)
    ensures (r.Ok? && r.value.valid) <==> ReadyToRebuild(ctx, pending, widest) && RootsMatch(pending, rebuilt)
    ensures r.Ok? ==> (r.value.valid <==> r.value.reason.None?)
  {
    match Prechecks(ctx, pending, widest)
    case Throw(m) => Throw(m)
    case Ok(Decided(v)) => Ok(v)
    case Ok(Rebuild(_, _)) => Ok(CompareRoots(pending, rebuilt, ctx.rootsMarkdown))
  }

  /** What the caller does with an invalid verdict's reason. */
  datatype DisputeAction = LogConfigurationError | LogAndIgnore | SubmitDispute

  function DisputeActionFor(reason: string): (a: DisputeAction)
    ensures a == SubmitDispute <==> reason !in ErrorDisputeReasons && reason !in IgnoreDisputeReasons
    ensures a == LogConfigurationError <==> reason in ErrorDisputeReasons
  {
    if reason in ErrorDisputeReasons then LogConfigurationError
    else if reason in IgnoreDisputeReasons then LogAndIgnore
    else SubmitDispute
  }

  /** Whether `validatePendingRootBundle` validates at all: throws when the hub
      pool client is not updated or has no current time; nothing to validate
      when no bundle is pending or its challenge period has passed. */
  function PendingBundleToValidate(hub: HubPoolView): (r: Outcome<Option<PendingRootBundle>>)
    ensures r.Throw? <==> !hub.isUpdated || hub.currentTime.None?
    ensures r.Ok? && r.value.Some? <==>
      && hub.isUpdated && hub.currentTime.Some? && hub.pendingRootBundle.Some?
      && hub.currentTime.value <= hub.pendingRootBundle.value.challengePeriodEndTimestamp
    ensures r.Ok? && r.value.Some? ==> r.value == hub.pendingRootBundle
  {
    if !hub.isUpdated || hub.currentTime.None? then Throw("HubPoolClient not updated")
    else match hub.pendingRootBundle
      case None => Ok(None)
      case Some(p) => if hub.currentTime.value > p.challengePeriodEndTimestamp then Ok(None) else Ok(Some(p))
  }

  /** The transactions a verdict leads to: one dispute for an invalid verdict
      whose reason is neither ignorable nor a configuration error, and only when
      disputes are submitted. */
  function DisputesFor(verdict: Verdict, hubChainId: ChainId, submitDisputes: bool): (q: seq<Instruction>)
    ensures |q| <= 1
    ensures |q| == 1 <==>
      && !verdict.valid && submitDisputes
      && (verdict.reason.None? || DisputeActionFor(verdict.reason.value) == SubmitDispute)
    ensures forall i :: 0 <= i < |q| ==> q[i].DisputeRootBundle? && q[i].chainId == hubChainId
  {
    if verdict.valid then []
    else
      var reason := if verdict.reason.Some? then verdict.reason.value else "";
      if DisputeActionFor(reason) == SubmitDispute && submitDisputes then [DisputeRootBundle(hubChainId, reason)]
      else []
  }

  /** An end block at exactly the expected end plus its buffer is not disputed:
      the verdict is the ignorable "bundle-end-block-buffer". */
  lemma {:induction false} EndAtBufferIsNotDisputed(
    ctx: ValidationContext, pending: PendingRootBundle, widest: BundleBlockRanges, rebuilt: RootBundleData, k: nat)
    requires pending.poolRebalanceRoot != EmptyMerkleRoot
    requires |pending.bundleEvaluationBlockNumbers| == |widest| <= |ctx.endBlockBuffers|
    requires forall i :: 0 <= i < |widest| ==> widest[i].0 <= pending.bundleEvaluationBlockNumbers[i] + 1
    requires forall i :: 0 <= i < |widest| ==> pending.bundleEvaluationBlockNumbers[i] <= widest[i].1 + ctx.endBlockBuffers[i]
    requires k < |widest| && ctx.endBlockBuffers[k] > 0
    requires pending.bundleEvaluationBlockNumbers[k] == widest[k].1 + ctx.endBlockBuffers[k]
    ensures ValidateRootBundle(ctx, pending, widest, rebuilt) == Ok(Verdict(false, Some(EndBlockBufferReason), None))
    ensures DisputeActionFor(EndBlockBufferReason) == LogAndIgnore
    ensures forall submit :: DisputesFor(Verdict(false, Some(EndBlockBufferReason), None), ctx.hubChainId, submit) == []
  {
    var ends := pending.bundleEvaluationBlockNumbers;
    assert BeyondExpectedEnd(ends, widest) by { assert ends[k] > widest[k].1; }
    assert !EndBeforeStart(ends, widest);
    assert !BeyondBuffer(ends, widest, ctx.endBlockBuffers);
  }

  /** One block further than the buffer allows, the verdict is a dispute. */
  lemma {:induction false} EndPastBufferIsDisputed(
    ctx: ValidationContext, pending: PendingRootBundle, widest: BundleBlockRanges, rebuilt: RootBundleData, k: nat)
    requires pending.poolRebalanceRoot != EmptyMerkleRoot
    requires |pending.bundleEvaluationBlockNumbers| == |widest| <= |ctx.endBlockBuffers|
    requires forall i :: 0 <= i < |widest| ==> widest[i].0 <= pending.bundleEvaluationBlockNumbers[i] + 1
    requires k < |widest| && ctx.endBlockBuffers[k] >= 0
    requires pending.bundleEvaluationBlockNumbers[k] == widest[k].1 + ctx.endBlockBuffers[k] + 1
    requires ctx.blocksMarkdown !in ErrorDisputeReasons && ctx.blocksMarkdown !in IgnoreDisputeReasons
    ensures ValidateRootBundle(ctx, pending, widest, rebuilt) == Ok(Verdict(false, Some(ctx.blocksMarkdown), None))
    ensures DisputesFor(Verdict(false, Some(ctx.blocksMarkdown), None), ctx.hubChainId, true)
      == [DisputeRootBundle(ctx.hubChainId, ctx.blocksMarkdown)]
  {
    var ends := pending.bundleEvaluationBlockNumbers;
    assert !EndBeforeStart(ends, widest);
    assert ends[k] > widest[k].1 + ctx.endBlockBuffers[k] >= widest[k].1;
    assert BeyondExpectedEnd(ends, widest);
    assert BeyondBuffer(ends, widest, ctx.endBlockBuffers);
  }

  /** An end block one below its expected start (a halted chain) passes the
      start check, while two below does not. */
  lemma {:induction false} HaltedChainTolerance(ends: seq<int>, widest: BundleBlockRanges, k: nat)
    requires |ends| == |widest| && k < |widest|
    requires forall i :: 0 <= i < |widest| && i != k ==> ends[i] >= widest[i].0
    ensures ends[k] == widest[k].0 - 1 ==> !EndBeforeStart(ends, widest)
    ensures ends[k] == widest[k].0 - 2 ==> EndBeforeStart(ends, widest)
  {
    if ends[k] == widest[k].0 - 2 {
      assert ends[k] + 1 < widest[k].0;
    }
  }

  /** Each check before the rebuild wins over the later ones: a bundle whose
      range count is wrong is never judged on its roots. */
  lemma WrongRangeLengthIsNeverRootMismatch(
    ctx: ValidationContext, pending: PendingRootBundle, widest: BundleBlockRanges, rebuilt: RootBundleData)
    requires pending.poolRebalanceRoot != EmptyMerkleRoot
    requires |pending.bundleEvaluationBlockNumbers| + 1 == |widest|
    ensures ValidateRootBundle(ctx, pending, widest, rebuilt) == Ok(Verdict(false, Some(RangeLengthReason), None))
    ensures !ReadyToRebuild(ctx, pending, widest)
  {
  }

  /** Claiming the expected ranges' own end blocks implies exactly the expected ranges. */
  lemma {:induction false} ImpliedRangesOfEndBlocks(widest: BundleBlockRanges)
    ensures ImpliedRanges(widest, EndBlocks(widest)) == widest
  {
    var r := ImpliedRanges(widest, EndBlocks(widest));
    assert |r| == |widest|;
    forall i | 0 <= i < |r| ensures r[i] == widest[i] {
      assert r[i] == (widest[i].0, widest[i].1);
    }
  }

  /** Proposing and then validating agree: a bundle whose end blocks and roots
      are those built for the expected ranges `widest`, with every leaf still
      unclaimed, is valid for a validator that sees the same ranges and builds
      with the same deterministic builders. */
  lemma {:induction false} ProposedBundleValidates(
    ctx: ValidationContext, widest: BundleBlockRanges, build: BundleBlockRanges -> RootBundleData,
    challengePeriodEndTimestamp: int, proposalBlockNumber: int)
    requires forall i :: 0 <= i < |widest| ==> widest[i].0 <= widest[i].1 + 1
    requires build(widest).poolRebalanceRoot != EmptyMerkleRoot
    requires BlockRangeForChain(widest, ctx.hubChainId, ctx.chainIdList).Ok?
    requires !ctx.lookbackInvalid(widest) && ctx.hasLatestConfigStoreVersion
    requires ctx.hubChainId != 1
      || ctx.configStoreVersionAt(BlockRangeForChain(widest, ctx.hubChainId, ctx.chainIdList).value.0) > TransferThresholdMaxConfigStoreVersion
    ensures
      var data := build(widest);
      var pending := PendingRootBundle(data.poolRebalanceRoot, data.relayerRefundRoot, data.slowRelayRoot,
        EndBlocks(widest), challengePeriodEndTimestamp, |data.poolRebalanceLeaves|, proposalBlockNumber);
      ValidateRootBundle(ctx, pending, widest, build(ImpliedRanges(widest, EndBlocks(widest))))
        == Ok(Verdict(true, None, Some(data)))
  {
    var data := build(widest);
    var ends := EndBlocks(widest);
    var pending := PendingRootBundle(data.poolRebalanceRoot, data.relayerRefundRoot, data.slowRelayRoot,
      ends, challengePeriodEndTimestamp, |data.poolRebalanceLeaves|, proposalBlockNumber);
    ImpliedRangesOfEndBlocks(widest);
    assert !EndBeforeStart(ends, widest);
    assert !BeyondExpectedEnd(ends, widest);
    assert ReadyToRebuild(ctx, pending, widest);
    assert RootsMatch(pending, data);
  }

  /** A bundle the validator cannot judge, because its spoke clients do not
      look back far enough or its config store is behind, is logged as an
      error and never disputed, whether or not disputes are submitted. */
  lemma ConfigurationErrorsAreNeverDisputed(
    ctx: ValidationContext, pending: PendingRootBundle, widest: BundleBlockRanges, rebuilt: RootBundleData, submitDisputes: bool)
    requires BlockChecksPass(ctx, pending, widest)
    requires BlockRangeForChain(ImpliedRanges(widest, pending.bundleEvaluationBlockNumbers), ctx.hubChainId, ctx.chainIdList).Ok?
    requires ctx.lookbackInvalid(ImpliedRanges(widest, pending.bundleEvaluationBlockNumbers)) || !ctx.hasLatestConfigStoreVersion
    ensures
      var r := ValidateRootBundle(ctx, pending, widest, rebuilt);
      && r.Ok? && !r.value.valid && r.value.expectedTrees.None?
      && DisputeActionFor(r.value.reason.value) == LogConfigurationError
      && DisputesFor(r.value, ctx.hubChainId, submitDisputes) == []
  {
    var r := ValidateRootBundle(ctx, pending, widest, rebuilt);
    assert r.value.reason.value in ErrorDisputeReasons;
  }

  /** A bundle whose pool rebalance part matches but whose relayer refund root
      differs (say, one leaf's amountToReturn was altered) is invalid, with the
      roots dispute text and the correctly rebuilt trees. */
  lemma RefundRootMismatchCarriesTrees(
    ctx: ValidationContext, pending: PendingRootBundle, widest: BundleBlockRanges, rebuilt: RootBundleData)
    requires ReadyToRebuild(ctx, pending, widest)
    requires |rebuilt.poolRebalanceLeaves| >= pending.unclaimedPoolRebalanceLeafCount
    requires rebuilt.poolRebalanceRoot == pending.poolRebalanceRoot
    requires rebuilt.relayerRefundRoot != pending.relayerRefundRoot
    ensures ValidateRootBundle(ctx, pending, widest, rebuilt) == Ok(Verdict(false, Some(ctx.rootsMarkdown), Some(rebuilt)))
  {
  }
}
