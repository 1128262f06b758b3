/** The dataworker: proposes root bundles, validates and disputes pending ones,
    and executes the leaves of validated ones. Every transaction it decides on
    is appended to the multicaller's queue, modelled as the `queue` field. */
module Engine {
  import opened Types
  import opened Seqs
  import opened Proposal
  import opened Validation
  import opened Selection
  import opened Funding
  import opened Allocation
  import opened Execution
  import RootCache

  /** What the executors read from the chain observers: the hub pool client,
      the spoke pool clients in ascending chain id order (the order JavaScript
      enumerates integer keys in), which chains are Arbitrum chains, the hub
      pool's ETH balance, and the LP fee refund curve. */
  datatype ExecutionEnv = ExecutionEnv(
    hub: HubPoolView,
    spokes: seq<SpokePoolView>,
    isArbitrum: ChainId -> bool,
    hubPoolEthBalance: int,
    getRefund: (int, int) -> int)

  /** The pool rebalance executor's settings, given the hub chain's spoke client. */
  function PoolConfig(env: ExecutionEnv): PoolFundingConfig
    requires SpokeFor(env.spokes, env.hub.chainId).Some?
  {
    PoolFundingConfig(env.hub.chainId, env.hub.hubPoolAddress, env.hub.signerAddress,
      SpokeFor(env.spokes, env.hub.chainId).value.spokePoolAddress, env.isArbitrum, env.hubPoolEthBalance)
  }

  const NoTrees: RootBundleData := RootBundleData([], EmptyMerkleRoot, [], EmptyMerkleRoot, [], EmptyMerkleRoot)

  /** The trees a validation compares the pending roots with, and the cache
      afterwards: the rebuild of the implied ranges at the proposal block when
      every check before the rebuild passes; otherwise nothing is built. */
  function ValidationRebuild(
    cache: RootCache.Cache, builders: Builders, disabled: bool,
    ctx: ValidationContext, pending: PendingRootBundle, widest: BundleBlockRanges): (RootBundleData, RootCache.Cache)
  {
    match Prechecks(ctx, pending, widest)
    case Ok(Rebuild(implied, _)) =>
      var built := RootCache.BuildRootBundle(cache, builders, disabled, implied, pending.proposalBlockNumber, ctx.hubChainId, ctx.chainIdList);
      if built.Ok? then built.value else (NoTrees, cache)
    case _ => (NoTrees, cache)
  }

  /** Whether an exchange rate refresh of a token is due, from the hub pool
      client's clock and fee history and the simulated liquid reserves change. */
  function RateDue(hub: HubPoolView, liquidReservesDelta: Address -> int): Address -> bool {
    t => ExchangeRateDue(hub.currentTime, hub.lastLpFeeUpdate(t), liquidReservesDelta(t))
  }

  /** The exchange rate refreshes queued for `tokens`. */
  function RateCalls(hub: HubPoolView, liquidReservesDelta: Address -> int, tokens: seq<Address>, submitExecution: bool): seq<Instruction> {
    if submitExecution then ExchangeRateCalls(hub.chainId, ExchangeRateTokens(tokens, RateDue(hub, liquidReservesDelta))) else []
  }

  /** One more token adds its refresh exactly when it is new, due and
      executions are submitted. */
  lemma RateCallsSnoc(hub: HubPoolView, liquidReservesDelta: Address -> int, tokens: seq<Address>, t: Address, submitExecution: bool)
    ensures RateCalls(hub, liquidReservesDelta, tokens + [t], submitExecution) ==
      RateCalls(hub, liquidReservesDelta, tokens, submitExecution)
      + (if submitExecution && t !in Dedup(tokens) && RateDue(hub, liquidReservesDelta)(t) then [ExchangeRateCurrent(hub.chainId, t)] else [])
  {
    var due := RateDue(hub, liquidReservesDelta);
    DedupSnoc(tokens, t);
    if t !in Dedup(tokens) {
      FilterAppend(Dedup(tokens), t, due);
      ExchangeRateCallsSnoc(hub.chainId, Filter(Dedup(tokens), due), t);
    }
  }

  /** The queue after one more token's turn of `_updateExchangeRates`. */
  lemma RateQueueStep(
    base: seq<Instruction>, seen: seq<Address>, t: Address, hub: HubPoolView, liquidReservesDelta: Address -> int,
    submitExecution: bool, added: seq<Instruction>, q: seq<Instruction>)
    requires added == if submitExecution && t !in Dedup(seen) && RateDue(hub, liquidReservesDelta)(t) then [ExchangeRateCurrent(hub.chainId, t)] else []
    requires q == base + RateCalls(hub, liquidReservesDelta, seen, submitExecution) + added
    ensures q == base + RateCalls(hub, liquidReservesDelta, seen + [t], submitExecution)
  {
    RateCallsSnoc(hub, liquidReservesDelta, seen, t, submitExecution);
  }

  /** `q` extends `old` at its end. */
  predicate Extends(before: seq<Instruction>, q: seq<Instruction>) {
    |q| >= |before| && q[..|before|] == before
  }

  // ---- the order of pool rebalance execution ----

  /** Home-chain pool rebalance leaves, then home-chain slow fills, then
      home-chain refunds, then the other chains' pool rebalance leaves. */
  function Phase(x: Instruction, hubChainId: ChainId): int {
    match x
    case ExecuteRootBundle(_, leaf, _, _) => if leaf.chainId == hubChainId then 0 else 3
    case ExecuteSlowRelayLeaf(_, _, _, _, _, _) => 1
    case ExecuteRelayerRefundLeaf(_, _, _, _, _, _) => 2
    case _ => 4
  }

  /** ETH loads go with the leaf after them and have no phase of their own. */
  ghost predicate PhasesInOrder(q: seq<Instruction>, hubChainId: ChainId) {
    forall i, j :: 0 <= i < j < |q| && !q[i].LoadEthForL2Calls? && !q[j].LoadEthForL2Calls? ==>
      Phase(q[i], hubChainId) <= Phase(q[j], hubChainId)
  }

  ghost predicate PhasesWithin(q: seq<Instruction>, hubChainId: ChainId, lo: int, hi: int) {
    forall i :: 0 <= i < |q| && !q[i].LoadEthForL2Calls? ==> lo <= Phase(q[i], hubChainId) <= hi
  }

  lemma PhasesOfOnePhase(q: seq<Instruction>, hubChainId: ChainId, k: int)
    requires PhasesWithin(q, hubChainId, k, k)
    ensures PhasesInOrder(q, hubChainId)
  {
  }

  lemma {:induction false} PhasesConcat(
    a: seq<Instruction>, b: seq<Instruction>, hubChainId: ChainId, lo1: int, hi1: int, lo2: int, hi2: int)
    requires lo1 <= hi1 <= lo2 <= hi2
    requires PhasesInOrder(a, hubChainId) && PhasesWithin(a, hubChainId, lo1, hi1)
    requires PhasesInOrder(b, hubChainId) && PhasesWithin(b, hubChainId, lo2, hi2)
    ensures PhasesInOrder(a + b, hubChainId) && PhasesWithin(a + b, hubChainId, lo1, hi2)
  {
    var c := a + b;
    forall i, j | 0 <= i < j < |c| && !c[i].LoadEthForL2Calls? && !c[j].LoadEthForL2Calls?
      ensures Phase(c[i], hubChainId) <= Phase(c[j], hubChainId)
    {
      if j < |a| {
        assert c[i] == a[i] && c[j] == a[j];
      } else if i >= |a| {
        assert c[i] == b[i - |a|] && c[j] == b[j - |a|];
      } else {
        assert c[i] == a[i] && c[j] == b[j - |a|];
      }
    }
    forall i | 0 <= i < |c| && !c[i].LoadEthForL2Calls?
      ensures lo1 <= Phase(c[i], hubChainId) <= hi2
    {
      if i < |a| { assert c[i] == a[i]; } else { assert c[i] == b[i - |a|]; }
    }
  }

  /** An instruction pool rebalance execution may queue after the exchange
      rate refreshes: ETH loads on the hub chain, unexecuted pool rebalance
      leaves of the bundle, and the bundle's hub-chain slow fill and refund
      leaves under the hub spoke pool's next root bundle id. */
  ghost predicate PoolPhaseInstruction(
    x: Instruction, hubChainId: ChainId, unexecuted: seq<PoolRebalanceLeaf>, trees: RootBundleData, nextRootBundleId: int)
  {
    match x
    case LoadEthForL2Calls(c, _) => c == hubChainId
    case ExecuteRootBundle(c, leaf, root, canFail) =>
      c == hubChainId && leaf in unexecuted && root == trees.poolRebalanceRoot && canFail == (leaf.chainId != hubChainId)
    case ExecuteSlowRelayLeaf(c, id, leaf, root, unpermissioned, canFail) =>
      && c == hubChainId && id == nextRootBundleId && leaf in trees.slowFillLeaves
      && leaf.LeafChainId() == hubChainId && root == trees.slowRelayRoot && unpermissioned && canFail
    case ExecuteRelayerRefundLeaf(c, id, leaf, root, unpermissioned, canFail) =>
      && c == hubChainId && id == nextRootBundleId && leaf in trees.relayerRefundLeaves
      && leaf.chainId == hubChainId && root == trees.relayerRefundRoot && unpermissioned == (hubChainId == 1) && canFail
    case _ => false
  }

  ghost predicate PoolPhaseInstructions(
    q: seq<Instruction>, hubChainId: ChainId, unexecuted: seq<PoolRebalanceLeaf>, trees: RootBundleData, nextRootBundleId: int)
  {
    forall i :: 0 <= i < |q| ==> PoolPhaseInstruction(q[i], hubChainId, unexecuted, trees, nextRootBundleId)
  }

  /** A stretch of the pool rebalance executor's queue whose phases lie in
      `lo..hi`, in order, each instruction one the executor may queue. */
  ghost predicate PoolPhaseSegment(
    q: seq<Instruction>, hubChainId: ChainId, unexecuted: seq<PoolRebalanceLeaf>, trees: RootBundleData, nextRootBundleId: int,
    lo: int, hi: int)
  {
    && PhasesInOrder(q, hubChainId) && PhasesWithin(q, hubChainId, lo, hi)
    && PoolPhaseInstructions(q, hubChainId, unexecuted, trees, nextRootBundleId)
  }

  lemma {:induction false} PoolPhaseSegmentsConcat(
    a: seq<Instruction>, b: seq<Instruction>, hubChainId: ChainId, unexecuted: seq<PoolRebalanceLeaf>, trees: RootBundleData,
    nextRootBundleId: int, lo1: int, hi1: int, lo2: int, hi2: int)
    requires lo1 <= hi1 <= lo2 <= hi2
    requires PoolPhaseSegment(a, hubChainId, unexecuted, trees, nextRootBundleId, lo1, hi1)
    requires PoolPhaseSegment(b, hubChainId, unexecuted, trees, nextRootBundleId, lo2, hi2)
    ensures PoolPhaseSegment(a + b, hubChainId, unexecuted, trees, nextRootBundleId, lo1, hi2)
  {
    PhasesConcat(a, b, hubChainId, lo1, hi1, lo2, hi2);
    var c := a + b;
    forall i | 0 <= i < |c| ensures PoolPhaseInstruction(c[i], hubChainId, unexecuted, trees, nextRootBundleId) {
      if i < |a| { assert c[i] == a[i]; } else { assert c[i] == b[i - |a|]; }
    }
  }

  /** The transactions for funded pool rebalance leaves that are all home-chain
      leaves (phase 0) or all other-chain leaves (phase 3). */
  lemma PoolLeavesSegment(
    funded: seq<PoolRebalanceLeaf>, cfg: PoolFundingConfig, unexecuted: seq<PoolRebalanceLeaf>, trees: RootBundleData,
    nextRootBundleId: int, home: bool)
    requires forall l :: l in funded ==> l in unexecuted && (l.chainId == cfg.hubChainId) == home
    ensures
      var k := if home then 0 else 3;
      PoolPhaseSegment(PoolInstructions(funded, cfg, trees.poolRebalanceRoot), cfg.hubChainId, unexecuted, trees, nextRootBundleId, k, k)
  {
    var q := PoolInstructions(funded, cfg, trees.poolRebalanceRoot);
    var k := if home then 0 else 3;
    assert PhasesWithin(q, cfg.hubChainId, k, k);
    PhasesOfOnePhase(q, cfg.hubChainId, k);
  }

  /** The transactions for funded home-chain slow fill leaves of the bundle (phase 1). */
  lemma SlowLeavesSegment(
    funded: seq<SlowFillLeaf>, hubChainId: ChainId, unexecuted: seq<PoolRebalanceLeaf>, trees: RootBundleData, nextRootBundleId: int)
    requires forall l :: l in funded ==> l in trees.slowFillLeaves && l.LeafChainId() == hubChainId
    ensures PoolPhaseSegment(SlowInstructions(funded, hubChainId, nextRootBundleId, trees.slowRelayRoot, hubChainId),
                             hubChainId, unexecuted, trees, nextRootBundleId, 1, 1)
  {
    var q := SlowInstructions(funded, hubChainId, nextRootBundleId, trees.slowRelayRoot, hubChainId);
    forall i | 0 <= i < |q| ensures PoolPhaseInstruction(q[i], hubChainId, unexecuted, trees, nextRootBundleId) && Phase(q[i], hubChainId) == 1 {
      assert funded[i] in funded;
    }
    PhasesOfOnePhase(q, hubChainId, 1);
  }

  /** The transactions for funded home-chain refund leaves of the bundle (phase 2). */
  lemma RefundLeavesSegment(
    funded: seq<RelayerRefundLeaf>, hubChainId: ChainId, unexecuted: seq<PoolRebalanceLeaf>, trees: RootBundleData, nextRootBundleId: int)
    requires forall l :: l in funded ==> l in trees.relayerRefundLeaves && l.chainId == hubChainId
    ensures PoolPhaseSegment(RefundInstructions(funded, hubChainId, nextRootBundleId, trees.relayerRefundRoot, hubChainId),
                             hubChainId, unexecuted, trees, nextRootBundleId, 2, 2)
  {
    var q := RefundInstructions(funded, hubChainId, nextRootBundleId, trees.relayerRefundRoot, hubChainId);
    forall i | 0 <= i < |q| ensures PoolPhaseInstruction(q[i], hubChainId, unexecuted, trees, nextRootBundleId) && Phase(q[i], hubChainId) == 2 {
      assert funded[i] in funded;
    }
    PhasesOfOnePhase(q, hubChainId, 2);
  }

  /** A queue grown by three appends extends the first and its tail is the three parts. */
  lemma AppendedTail(q0: seq<Instruction>, a: seq<Instruction>, b: seq<Instruction>, c: seq<Instruction>)
    ensures Extends(q0, q0 + a + b + c) && (q0 + a + b + c)[|q0|..] == a + b + c
  {
    assert q0 + a + b + c == q0 + (a + b + c);
  }

  /** Appending in two steps appends the concatenation. */
  lemma AppendTwice(q: seq<Instruction>, a: seq<Instruction>, b: seq<Instruction>)
    ensures q + a + b == q + (a + b)
  {
  }

  /** A queue that is `before` followed by `added` extends `before`, and each
      of its new transactions is one of `added`. */
  lemma AppendedInstructions(before: seq<Instruction>, added: seq<Instruction>, q: seq<Instruction>)
    requires q == before + added
    ensures Extends(before, q)
    ensures forall i :: |before| <= i < |q| ==> q[i] in added
    ensures added == [] ==> q == before
  {
    assert q[..|before|] == before;
    forall i | |before| <= i < |q| ensures q[i] in added {
      assert q[i] == added[i - |before|];
    }
  }

  /** `after` is `before` with more at its end; extension is transitive. */
  lemma ExtendsTrans(a: seq<Instruction>, b: seq<Instruction>, c: seq<Instruction>)
    requires Extends(a, b) && Extends(b, c)
    ensures Extends(a, c) && c[|a|..] == b[|a|..] + c[|b|..]
  {
    assert c[..|a|] == c[..|b|][..|a|];
  }

  /** The home-chain phases queued from `q0` to `q1`, then the other chains'
      leaves from `q1` to `q2`, make one segment in phase order; with nothing
      for the home chain only the other chains' phase appears. */
  lemma HomeThenOtherChains(
    q0: seq<Instruction>, q1: seq<Instruction>, q2: seq<Instruction>, hubChainId: ChainId,
    unexecuted: seq<PoolRebalanceLeaf>, trees: RootBundleData, nextRootBundleId: int)
    requires Extends(q0, q1) && Extends(q1, q2)
    requires PoolPhaseSegment(q1[|q0|..], hubChainId, unexecuted, trees, nextRootBundleId, 0, 2)
    requires PoolPhaseSegment(q2[|q1|..], hubChainId, unexecuted, trees, nextRootBundleId, 3, 3)
    ensures Extends(q0, q2)
    ensures PoolPhaseSegment(q2[|q0|..], hubChainId, unexecuted, trees, nextRootBundleId, 0, 3)
    ensures q1 == q0 ==> PhasesWithin(q2[|q0|..], hubChainId, 3, 3)
  {
    ExtendsTrans(q0, q1, q2);
    PoolPhaseSegmentsConcat(q1[|q0|..], q2[|q1|..], hubChainId, unexecuted, trees, nextRootBundleId, 0, 2, 3, 3);
  }

  // ---- what the historical executors may queue ----

  /** A refund leaf execution queued for a relayed root on a spoke: the relay
      has a matching bundle (one at least partly executed on the hub chain), the
      bundle's ranges passed the lookback check, the leaf is for the spoke's
      chain and no execution event of the relayed bundle id covers it, and the
      root is the relayed one, which the rebuilt tree matched. */
  ghost predicate RefundExecutionUnder(
    hub: HubPoolView, lookbackInvalid: BundleBlockRanges -> bool, spoke: SpokePoolView, relay: RootBundleRelay, x: Instruction)
  {
    && x.ExecuteRelayerRefundLeaf?
    && x.chainId == spoke.chainId && x.refundLeaf.chainId == spoke.chainId
    && x.rootBundleId == relay.rootBundleId && x.root == relay.relayerRefundRoot
    && x.unpermissioned == (x.chainId == 1) && x.canFailInSimulation == (x.refundLeaf.chainId == hub.chainId)
    && !RefundLeafExecuted(spoke.relayerRefundExecutions, relay.rootBundleId, x.refundLeaf)
    && MatchingRefundBundle(hub, relay).Some?
    && !lookbackInvalid(hub.impliedBundleBlockRanges(MatchingRefundBundle(hub, relay).value))
  }

  ghost predicate RefundExecutionUnderOneOf(
    hub: HubPoolView, lookbackInvalid: BundleBlockRanges -> bool, spoke: SpokePoolView, relays: seq<RootBundleRelay>, x: Instruction)
  {
    exists relay :: relay in relays && RefundExecutionUnder(hub, lookbackInvalid, spoke, relay, x)
  }

  ghost predicate RefundExecutionFromSpoke(
    hub: HubPoolView, lookbackInvalid: BundleBlockRanges -> bool, spoke: SpokePoolView, latest: seq<ProposedRootBundle>, x: Instruction)
  {
    RefundExecutionUnderOneOf(hub, lookbackInvalid, spoke, RefundRelays(spoke, latest), x)
  }

  ghost predicate RefundExecutionOk(
    hub: HubPoolView, lookbackInvalid: BundleBlockRanges -> bool, spokes: seq<SpokePoolView>, latest: seq<ProposedRootBundle>, x: Instruction)
  {
    exists s :: s in spokes && RefundExecutionFromSpoke(hub, lookbackInvalid, s, latest, x)
  }

  /** A slow fill execution queued for a relayed root on a spoke: the relay
      has a matching bundle, the bundle's ranges passed the lookback check, the
      leaf pays out on the spoke's chain, its deposit has no slow fill yet, it
      carries no message, involves no ignored address and needs a non-zero
      amount, and the root is the relayed one, which the rebuilt tree matched. */
  ghost predicate SlowExecutionUnder(
    hub: HubPoolView, lookbackInvalid: BundleBlockRanges -> bool, ignoredAddresses: seq<Address>, getRefund: (int, int) -> int,
    spoke: SpokePoolView, relay: RootBundleRelay, x: Instruction)
  {
    && x.ExecuteSlowRelayLeaf?
    && x.chainId == spoke.chainId && x.slowLeaf.LeafChainId() == spoke.chainId
    && x.rootBundleId == relay.rootBundleId && x.root == relay.slowRelayRoot
    && x.unpermissioned == (x.chainId == hub.chainId) && x.canFailInSimulation == (x.chainId == hub.chainId)
    && IsMessageEmpty(x.slowLeaf.Message())
    && x.slowLeaf.Depositor() !in ignoredAddresses && x.slowLeaf.Recipient() !in ignoredAddresses
    && !SlowFillExecuted(spoke.fills, x.slowLeaf)
    && SlowFillNeed(x.slowLeaf, spoke.fills, getRefund) != 0
    && MatchingSlowBundle(hub, relay).Some?
    && !lookbackInvalid(hub.impliedBundleBlockRanges(MatchingSlowBundle(hub, relay).value))
  }

  ghost predicate SlowExecutionUnderOneOf(
    hub: HubPoolView, lookbackInvalid: BundleBlockRanges -> bool, ignoredAddresses: seq<Address>, getRefund: (int, int) -> int,
    spoke: SpokePoolView, relays: seq<RootBundleRelay>, x: Instruction)
  {
    exists relay :: relay in relays && SlowExecutionUnder(hub, lookbackInvalid, ignoredAddresses, getRefund, spoke, relay, x)
  }

  ghost predicate SlowExecutionFromSpoke(
    hub: HubPoolView, lookbackInvalid: BundleBlockRanges -> bool, ignoredAddresses: seq<Address>, getRefund: (int, int) -> int,
    spoke: SpokePoolView, latest: seq<ProposedRootBundle>, x: Instruction)
  {
    SlowExecutionUnderOneOf(hub, lookbackInvalid, ignoredAddresses, getRefund, spoke, SlowRelays(spoke, latest), x)
  }

  ghost predicate SlowExecutionOk(
    hub: HubPoolView, lookbackInvalid: BundleBlockRanges -> bool, ignoredAddresses: seq<Address>, getRefund: (int, int) -> int,
    spokes: seq<SpokePoolView>, latest: seq<ProposedRootBundle>, x: Instruction)
  {
    exists s :: s in spokes && SlowExecutionFromSpoke(hub, lookbackInvalid, ignoredAddresses, getRefund, s, latest, x)
  }

  /** The slow fill executions of funded leaves under a relayed root are ones
      the slow relay executor may queue. */
  lemma SlowInstructionsUnderRelay(
    hub: HubPoolView, lookbackInvalid: BundleBlockRanges -> bool, ignoredAddresses: seq<Address>, getRefund: (int, int) -> int,
    spoke: SpokePoolView, relay: RootBundleRelay, funded: seq<SlowFillLeaf>, before: seq<Instruction>)
    requires MatchingSlowBundle(hub, relay).Some?
    requires !lookbackInvalid(hub.impliedBundleBlockRanges(MatchingSlowBundle(hub, relay).value))
    requires forall l :: l in funded ==>
      && l.LeafChainId() == spoke.chainId && !SlowFillExecuted(spoke.fills, l)
      && IsMessageEmpty(l.Message()) && l.Depositor() !in ignoredAddresses && l.Recipient() !in ignoredAddresses
      && SlowFillNeed(l, spoke.fills, getRefund) != 0
    ensures
      var q := before + SlowInstructions(funded, spoke.chainId, relay.rootBundleId, relay.slowRelayRoot, hub.chainId);
      forall i :: |before| <= i < |q| ==> SlowExecutionUnder(hub, lookbackInvalid, ignoredAddresses, getRefund, spoke, relay, q[i])
    ensures forall x :: x in SlowInstructions(funded, spoke.chainId, relay.rootBundleId, relay.slowRelayRoot, hub.chainId) ==> SlowExecutionUnder(hub, lookbackInvalid, ignoredAddresses, getRefund, spoke, relay, x)
  {
    var added := SlowInstructions(funded, spoke.chainId, relay.rootBundleId, relay.slowRelayRoot, hub.chainId);
    var q := before + added;
    forall i | |before| <= i < |q| ensures SlowExecutionUnder(hub, lookbackInvalid, ignoredAddresses, getRefund, spoke, relay, q[i]) {
      assert q[i] == added[i - |before|];
      assert funded[i - |before|] in funded;
    }
    forall x | x in added ensures SlowExecutionUnder(hub, lookbackInvalid, ignoredAddresses, getRefund, spoke, relay, x) {
      var i :| 0 <= i < |added| && added[i] == x;
      assert q[|before| + i] == x;
    }
  }

  /** The refund executions of funded leaves under a relayed root are ones
      the refund executor may queue. */
  lemma RefundInstructionsUnderRelay(
    hub: HubPoolView, lookbackInvalid: BundleBlockRanges -> bool,
    spoke: SpokePoolView, relay: RootBundleRelay, funded: seq<RelayerRefundLeaf>, before: seq<Instruction>)
    requires MatchingRefundBundle(hub, relay).Some?
    requires !lookbackInvalid(hub.impliedBundleBlockRanges(MatchingRefundBundle(hub, relay).value))
    requires forall l :: l in funded ==>
      l.chainId == spoke.chainId && !RefundLeafExecuted(spoke.relayerRefundExecutions, relay.rootBundleId, l)
    ensures
      var q := before + RefundInstructions(funded, spoke.chainId, relay.rootBundleId, relay.relayerRefundRoot, hub.chainId);
      forall i :: |before| <= i < |q| ==> RefundExecutionUnder(hub, lookbackInvalid, spoke, relay, q[i])
    ensures forall x :: x in RefundInstructions(funded, spoke.chainId, relay.rootBundleId, relay.relayerRefundRoot, hub.chainId) ==> RefundExecutionUnder(hub, lookbackInvalid, spoke, relay, x)
  {
    var added := RefundInstructions(funded, spoke.chainId, relay.rootBundleId, relay.relayerRefundRoot, hub.chainId);
    var q := before + added;
    forall i | |before| <= i < |q| ensures RefundExecutionUnder(hub, lookbackInvalid, spoke, relay, q[i]) {
      assert q[i] == added[i - |before|];
      assert funded[i - |before|] in funded;
    }
    forall x | x in added ensures RefundExecutionUnder(hub, lookbackInvalid, spoke, relay, x) {
      var i :| 0 <= i < |added| && added[i] == x;
      assert q[|before| + i] == x;
    }
  }

  // ---- the historical executors as functions of the state they start from ----

  /** What the historical executors read besides the hub and spoke views. */
  datatype HistoryConfig = HistoryConfig(
    builders: Builders, disableRootCache: bool, chainIdList: seq<ChainId>,
    lookbackInvalid: BundleBlockRanges -> bool, ignoredAddresses: seq<Address>, submitExecution: bool)

  /** Where a run of a historical executor ends: how it ended, what it
      appended to the queue, the ledger and the root cache. */
  datatype HistoryRun = HistoryRun(outcome: Outcome<()>, added: seq<Instruction>, used: Ledger, cache: RootCache.Cache)

  /** A historical executor that did not throw returned the unit value. */
  lemma NoThrowIsOk(o: Outcome<()>)
    requires !o.Throw?
    ensures o == Ok(())
  {
    match o.value { case () => }
  }

  /** The trees of a relay's bundle rebuilt at its proposal block, with the
      cache afterwards: a throw when the bundle's ranges have no hub chain
      range, nothing when they fail the lookback check. */
  function RelayRebuild(hub: HubPoolView, bundle: ProposedRootBundle, cache: RootCache.Cache, cfg: HistoryConfig)
    : Outcome<Option<(RootBundleData, RootCache.Cache)>>
  {
    var ranges := hub.impliedBundleBlockRanges(bundle);
    var mainnet := BlockRangeForChain(ranges, hub.chainId, cfg.chainIdList);
    if mainnet.Throw? then Throw(mainnet.message)
    else if cfg.lookbackInvalid(ranges) then Ok(None)
    else
      var pool := RootCache.GetPoolRebalanceRoot(
        cache, cfg.builders.poolRebalance, cfg.disableRootCache, ranges, bundle.blockNumber, mainnet.value.1);
      var refund := cfg.builders.relayerRefund(ranges, mainnet.value.1, pool.0.leaves, pool.0.runningBalances);
      var slow := cfg.builders.slowRelay(ranges);
      Ok(Some((RootBundleData(pool.0.leaves, pool.0.root, refund.leaves, refund.root, slow.leaves, slow.root), pool.1)))
  }

  /** One relayed refund root: the unexecuted refund leaves of the spoke's
      chain are funded in order when the rebuilt refund root is the relayed one. */
  function RefundRelayRun(
    hub: HubPoolView, spoke: SpokePoolView, relay: RootBundleRelay,
    balances: map<Key, nat>, used: Ledger, cache: RootCache.Cache, cfg: HistoryConfig): HistoryRun
  {
    match MatchingRefundBundle(hub, relay)
    case None => HistoryRun(Ok(()), [], used, cache)
    case Some(bundle) =>
      match RelayRebuild(hub, bundle, cache, cfg)
      case Throw(message) => HistoryRun(Throw(message), [], used, cache)
      case Ok(None) => HistoryRun(Ok(()), [], used, cache)
      case Ok(Some((trees, rebuilt))) =>
        if trees.relayerRefundRoot != relay.relayerRefundRoot then HistoryRun(Ok(()), [], used, rebuilt)
        else
          var unexecuted := UnexecutedRefundLeaves(trees.relayerRefundLeaves, spoke.chainId, spoke.relayerRefundExecutions, relay.rootBundleId);
          var f := FundRefundLeaves(balances, used, unexecuted, spoke.spokePoolAddress, hub.chainId, hub.hubPoolAddress);
          HistoryRun(Ok(()),
            if cfg.submitExecution then RefundInstructions(f.0, spoke.chainId, relay.rootBundleId, relay.relayerRefundRoot, hub.chainId) else [],
            f.1, rebuilt)
  }

  /** One step of a historical executor: from the ledger and the root cache,
      how it ended, what it queued, and the ledger and cache afterwards. */
  type Step<-T> = (T, Ledger, RootCache.Cache) -> HistoryRun

  /** The items in turn from `used` and `cache`; the first throw ends the run. */
  function RunInTurn<T>(step: Step<T>, items: seq<T>, used: Ledger, cache: RootCache.Cache): HistoryRun
    decreases |items|
  {
    if items == [] then HistoryRun(Ok(()), [], used, cache)
    else
      var first := step(items[0], used, cache);
      if first.outcome.Throw? then first
      else
        var rest := RunInTurn(step, items[1..], first.used, first.cache);
        HistoryRun(rest.outcome, first.added + rest.added, rest.used, rest.cache)
  }

  /** A run that stands at `prev` goes on with `item`, unless it threw. */
  function Then<T>(step: Step<T>, prev: HistoryRun, item: T): HistoryRun {
    if prev.outcome.Throw? then prev
    else
      var next := step(item, prev.used, prev.cache);
      HistoryRun(next.outcome, prev.added + next.added, next.used, next.cache)
  }

  /** A run that stands at `prev` and then runs `rest` in turn. */
  function Resume<T>(step: Step<T>, prev: HistoryRun, rest: seq<T>): HistoryRun {
    if prev.outcome.Throw? then prev
    else
      var r := RunInTurn(step, rest, prev.used, prev.cache);
      HistoryRun(r.outcome, prev.added + r.added, r.used, r.cache)
  }

  /** A run that stands at `prev` goes on with the next item, unless it threw. */
  lemma ResumeStep<T>(step: Step<T>, prev: HistoryRun, items: seq<T>, k: nat)
    requires k < |items|
    ensures Resume(step, prev, items[k..]) == Resume(step, Then(step, prev, items[k]), items[k + 1..])
  {
    if prev.outcome.Ok? {
      assert items[k..][0] == items[k] && items[k..][1..] == items[k + 1..];
      var first := step(items[k], prev.used, prev.cache);
      if first.outcome.Ok? {
        var rest := RunInTurn(step, items[k + 1..], first.used, first.cache);
        assert prev.added + (first.added + rest.added) == (prev.added + first.added) + rest.added;
      }
    }
  }

  /** Once the run threw, or has no items left, resuming it changes nothing. */
  lemma ResumeEnds<T>(step: Step<T>, prev: HistoryRun, rest: seq<T>)
    requires prev.outcome.Throw? || rest == []
    ensures Resume(step, prev, rest) == prev
  {
    if prev.outcome.Ok? {
      assert prev.added + [] == prev.added;
      NoThrowIsOk(prev.outcome);
    }
  }

  /** One relayed refund root as a step of a spoke's run. */
  function RefundRelayStep(hub: HubPoolView, spoke: SpokePoolView, balances: map<Key, nat>, cfg: HistoryConfig): Step<RootBundleRelay> {
    (relay: RootBundleRelay, used: Ledger, cache: RootCache.Cache) => RefundRelayRun(hub, spoke, relay, balances, used, cache, cfg)
  }

  /** The relayed refund roots of one spoke in turn; the first throw ends the run. */
  function RefundRelaysRun(
    hub: HubPoolView, spoke: SpokePoolView, relays: seq<RootBundleRelay>,
    balances: map<Key, nat>, used: Ledger, cache: RootCache.Cache, cfg: HistoryConfig): HistoryRun
  {
    RunInTurn(RefundRelayStep(hub, spoke, balances, cfg), relays, used, cache)
  }

  /** One spoke, with its relayed refund roots of `latest`, as a step of the refund executor's run. */
  function RefundSpokeStep(hub: HubPoolView, latest: seq<ProposedRootBundle>, balances: map<Key, nat>, cfg: HistoryConfig)
    : Step<SpokePoolView>
  {
    (spoke: SpokePoolView, used: Ledger, cache: RootCache.Cache) =>
      RefundRelaysRun(hub, spoke, RefundRelays(spoke, latest), balances, used, cache, cfg)
  }

  /** The spokes in turn, each with its relayed refund roots of `latest`; the first throw ends the run. */
  function RefundSpokesRun(
    hub: HubPoolView, spokes: seq<SpokePoolView>, latest: seq<ProposedRootBundle>,
    balances: map<Key, nat>, used: Ledger, cache: RootCache.Cache, cfg: HistoryConfig): HistoryRun
  {
    RunInTurn(RefundSpokeStep(hub, latest, balances, cfg), spokes, used, cache)
  }

  /** One relayed slow relay root: the slow fill leaves paying out on the
      spoke's chain whose deposit has no slow fill, without a message or an
      ignored party, are funded in order when the rebuilt slow relay root is
      the relayed one. */
  function SlowRelayRun(
    hub: HubPoolView, spoke: SpokePoolView, relay: RootBundleRelay, getRefund: (int, int) -> int,
    balances: map<Key, nat>, used: Ledger, cache: RootCache.Cache, cfg: HistoryConfig): HistoryRun
  {
    match MatchingSlowBundle(hub, relay)
    case None => HistoryRun(Ok(()), [], used, cache)
    case Some(bundle) =>
      match RelayRebuild(hub, bundle, cache, cfg)
      case Throw(message) => HistoryRun(Throw(message), [], used, cache)
      case Ok(None) => HistoryRun(Ok(()), [], used, cache)
      case Ok(Some((trees, rebuilt))) =>
        if trees.slowRelayRoot != relay.slowRelayRoot then HistoryRun(Ok(()), [], used, rebuilt)
        else
          var executable := ExecutableSlowFillLeaves(UnexecutedSlowFillLeaves(trees.slowFillLeaves, spoke.chainId, spoke.fills), cfg.ignoredAddresses);
          var f := FundSlowFillLeaves(balances, used, executable, spoke.fills, getRefund, spoke.spokePoolAddress);
          HistoryRun(Ok(()),
            if cfg.submitExecution then SlowInstructions(f.0, spoke.chainId, relay.rootBundleId, relay.slowRelayRoot, hub.chainId) else [],
            f.1, rebuilt)
  }

  /** One relayed slow relay root as a step of a spoke's run. */
  function SlowRelayStep(
    hub: HubPoolView, spoke: SpokePoolView, getRefund: (int, int) -> int, balances: map<Key, nat>, cfg: HistoryConfig)
    : Step<RootBundleRelay>
  {
    (relay: RootBundleRelay, used: Ledger, cache: RootCache.Cache) => SlowRelayRun(hub, spoke, relay, getRefund, balances, used, cache, cfg)
  }

  /** The relayed slow relay roots of one spoke in turn; the first throw ends the run. */
  function SlowRelaysRun(
    hub: HubPoolView, spoke: SpokePoolView, relays: seq<RootBundleRelay>, getRefund: (int, int) -> int,
    balances: map<Key, nat>, used: Ledger, cache: RootCache.Cache, cfg: HistoryConfig): HistoryRun
  {
    RunInTurn(SlowRelayStep(hub, spoke, getRefund, balances, cfg), relays, used, cache)
  }

  /** One spoke, with its relayed slow relay roots of `latest`, as a step of the slow relay executor's run. */
  function SlowSpokeStep(
    hub: HubPoolView, latest: seq<ProposedRootBundle>, getRefund: (int, int) -> int, balances: map<Key, nat>, cfg: HistoryConfig)
    : Step<SpokePoolView>
  {
    (spoke: SpokePoolView, used: Ledger, cache: RootCache.Cache) =>
      SlowRelaysRun(hub, spoke, SlowRelays(spoke, latest), getRefund, balances, used, cache, cfg)
  }

  /** The spokes in turn, each with its relayed slow relay roots of `latest`; the first throw ends the run. */
  function SlowSpokesRun(
    hub: HubPoolView, spokes: seq<SpokePoolView>, latest: seq<ProposedRootBundle>, getRefund: (int, int) -> int,
    balances: map<Key, nat>, used: Ledger, cache: RootCache.Cache, cfg: HistoryConfig): HistoryRun
  {
    RunInTurn(SlowSpokeStep(hub, latest, getRefund, balances, cfg), spokes, used, cache)
  }

  /** The rebuilt tree of a relay's bundle has the relayed refund root. */
  predicate RefundRootRebuilt(hub: HubPoolView, relay: RootBundleRelay, cache: RootCache.Cache, cfg: HistoryConfig) {
    && MatchingRefundBundle(hub, relay).Some?
    && var rebuilt := RelayRebuild(hub, MatchingRefundBundle(hub, relay).value, cache, cfg);
       rebuilt.Ok? && rebuilt.value.Some? && rebuilt.value.value.0.relayerRefundRoot == relay.relayerRefundRoot
  }

  /** The rebuilt tree of a relay's bundle has the relayed slow relay root. */
  predicate SlowRootRebuilt(hub: HubPoolView, relay: RootBundleRelay, cache: RootCache.Cache, cfg: HistoryConfig) {
    && MatchingSlowBundle(hub, relay).Some?
    && var rebuilt := RelayRebuild(hub, MatchingSlowBundle(hub, relay).value, cache, cfg);
       rebuilt.Ok? && rebuilt.value.Some? && rebuilt.value.value.0.slowRelayRoot == relay.slowRelayRoot
  }

  /** One relayed refund root queues only executions the refund executor may
      queue, and nothing when not submitting; it keeps the ledger solvent. */
  lemma RefundRelayRunSound(
    hub: HubPoolView, spoke: SpokePoolView, relay: RootBundleRelay,
    balances: map<Key, nat>, used: Ledger, cache: RootCache.Cache, cfg: HistoryConfig)
    ensures forall x :: x in RefundRelayRun(hub, spoke, relay, balances, used, cache, cfg).added ==>
      RefundExecutionUnder(hub, cfg.lookbackInvalid, spoke, relay, x)
    ensures !cfg.submitExecution ==> RefundRelayRun(hub, spoke, relay, balances, used, cache, cfg).added == []
    ensures Solvent(balances, used) ==> Solvent(balances, RefundRelayRun(hub, spoke, relay, balances, used, cache, cfg).used)
  {
    if RefundRootRebuilt(hub, relay, cache, cfg) {
      var run := RefundRelayRun(hub, spoke, relay, balances, used, cache, cfg);
      var trees := RelayRebuild(hub, MatchingRefundBundle(hub, relay).value, cache, cfg).value.value.0;
      var unexecuted := UnexecutedRefundLeaves(trees.relayerRefundLeaves, spoke.chainId, spoke.relayerRefundExecutions, relay.rootBundleId);
      var f := FundRefundLeaves(balances, used, unexecuted, spoke.spokePoolAddress, hub.chainId, hub.hubPoolAddress);
      var queued := RefundInstructions(f.0, spoke.chainId, relay.rootBundleId, relay.relayerRefundRoot, hub.chainId);
      assert run.used == f.1 && run.added == if cfg.submitExecution then queued else [];
      if Solvent(balances, used) {
        FundRefundLeavesKeepsSolvency(balances, used, unexecuted, spoke.spokePoolAddress, hub.chainId, hub.hubPoolAddress);
      }
      forall l | l in f.0
        ensures l.chainId == spoke.chainId && !RefundLeafExecuted(spoke.relayerRefundExecutions, relay.rootBundleId, l)
      {
        assert l in unexecuted;
      }
      RefundInstructionsUnderRelay(hub, cfg.lookbackInvalid, spoke, relay, f.0, []);
    }
  }

  /** One relayed refund root touches the queue and the ledger only when the
      rebuilt root is the relayed one, and throws exactly when the matched
      bundle's ranges have no hub chain range. */
  lemma RefundRelayRunEffects(
    hub: HubPoolView, spoke: SpokePoolView, relay: RootBundleRelay,
    balances: map<Key, nat>, used: Ledger, cache: RootCache.Cache, cfg: HistoryConfig)
    ensures RefundRelayRun(hub, spoke, relay, balances, used, cache, cfg).added != []
         || RefundRelayRun(hub, spoke, relay, balances, used, cache, cfg).used != used
         ==> RefundRootRebuilt(hub, relay, cache, cfg)
    ensures RefundRelayRun(hub, spoke, relay, balances, used, cache, cfg).outcome.Throw? <==>
      && MatchingRefundBundle(hub, relay).Some?
      && BlockRangeForChain(hub.impliedBundleBlockRanges(MatchingRefundBundle(hub, relay).value), hub.chainId, cfg.chainIdList).Throw?
  {
    if !RefundRootRebuilt(hub, relay, cache, cfg) {
      var run := RefundRelayRun(hub, spoke, relay, balances, used, cache, cfg);
      assert run.added == [] && run.used == used;
    }
  }


  /** The slow relay counterpart of `RefundRelayRunSound`. */
  lemma SlowRelayRunSound(
    hub: HubPoolView, spoke: SpokePoolView, relay: RootBundleRelay, getRefund: (int, int) -> int,
    balances: map<Key, nat>, used: Ledger, cache: RootCache.Cache, cfg: HistoryConfig)
    ensures forall x :: x in SlowRelayRun(hub, spoke, relay, getRefund, balances, used, cache, cfg).added ==>
      SlowExecutionUnder(hub, cfg.lookbackInvalid, cfg.ignoredAddresses, getRefund, spoke, relay, x)
    ensures !cfg.submitExecution ==> SlowRelayRun(hub, spoke, relay, getRefund, balances, used, cache, cfg).added == []
    ensures Solvent(balances, used) ==> Solvent(balances, SlowRelayRun(hub, spoke, relay, getRefund, balances, used, cache, cfg).used)
  {
    if SlowRootRebuilt(hub, relay, cache, cfg) {
      var run := SlowRelayRun(hub, spoke, relay, getRefund, balances, used, cache, cfg);
      var trees := RelayRebuild(hub, MatchingSlowBundle(hub, relay).value, cache, cfg).value.value.0;
      var unexecuted := UnexecutedSlowFillLeaves(trees.slowFillLeaves, spoke.chainId, spoke.fills);
      var executable := ExecutableSlowFillLeaves(unexecuted, cfg.ignoredAddresses);
      var f := FundSlowFillLeaves(balances, used, executable, spoke.fills, getRefund, spoke.spokePoolAddress);
      var queued := SlowInstructions(f.0, spoke.chainId, relay.rootBundleId, relay.slowRelayRoot, hub.chainId);
      assert run.used == f.1 && run.added == if cfg.submitExecution then queued else [];
      if Solvent(balances, used) {
        FundSlowFillLeavesKeepsSolvency(balances, used, executable, spoke.fills, getRefund, spoke.spokePoolAddress);
      }
      forall l | l in f.0
        ensures && l.LeafChainId() == spoke.chainId && !SlowFillExecuted(spoke.fills, l)
                && IsMessageEmpty(l.Message()) && l.Depositor() !in cfg.ignoredAddresses && l.Recipient() !in cfg.ignoredAddresses
                && SlowFillNeed(l, spoke.fills, getRefund) != 0
      {
        assert l in executable;
        assert l in unexecuted;
      }
      SlowInstructionsUnderRelay(hub, cfg.lookbackInvalid, cfg.ignoredAddresses, getRefund, spoke, relay, f.0, []);
    }
  }

  /** The slow relay counterpart of `RefundRelayRunEffects`. */
  lemma SlowRelayRunEffects(
    hub: HubPoolView, spoke: SpokePoolView, relay: RootBundleRelay, getRefund: (int, int) -> int,
    balances: map<Key, nat>, used: Ledger, cache: RootCache.Cache, cfg: HistoryConfig)
    ensures SlowRelayRun(hub, spoke, relay, getRefund, balances, used, cache, cfg).added != []
         || SlowRelayRun(hub, spoke, relay, getRefund, balances, used, cache, cfg).used != used
         ==> SlowRootRebuilt(hub, relay, cache, cfg)
    ensures SlowRelayRun(hub, spoke, relay, getRefund, balances, used, cache, cfg).outcome.Throw? <==>
      && MatchingSlowBundle(hub, relay).Some?
      && BlockRangeForChain(hub.impliedBundleBlockRanges(MatchingSlowBundle(hub, relay).value), hub.chainId, cfg.chainIdList).Throw?
  {
    if !SlowRootRebuilt(hub, relay, cache, cfg) {
      var run := SlowRelayRun(hub, spoke, relay, getRefund, balances, used, cache, cfg);
      assert run.added == [] && run.used == used;
    }
  }



  /** A spoke's relayed refund roots queue only executions under one of them,
      nothing when not submitting, and keep the ledger solvent. */
  lemma {:induction false} RefundRelaysRunSound(
    hub: HubPoolView, spoke: SpokePoolView, relays: seq<RootBundleRelay>,
    balances: map<Key, nat>, used: Ledger, cache: RootCache.Cache, cfg: HistoryConfig)
    ensures forall x :: x in RefundRelaysRun(hub, spoke, relays, balances, used, cache, cfg).added ==>
      RefundExecutionUnderOneOf(hub, cfg.lookbackInvalid, spoke, relays, x)
    ensures !cfg.submitExecution ==> RefundRelaysRun(hub, spoke, relays, balances, used, cache, cfg).added == []
    ensures Solvent(balances, used) ==> Solvent(balances, RefundRelaysRun(hub, spoke, relays, balances, used, cache, cfg).used)
    decreases |relays|
  {
    if relays != [] {
      var first := RefundRelayRun(hub, spoke, relays[0], balances, used, cache, cfg);
      RefundRelayRunSound(hub, spoke, relays[0], balances, used, cache, cfg);
      assert relays[0] in relays;
      if first.outcome.Ok? {
        RefundRelaysRunSound(hub, spoke, relays[1..], balances, first.used, first.cache, cfg);
        var rest := RefundRelaysRun(hub, spoke, relays[1..], balances, first.used, first.cache, cfg);
        forall x | x in rest.added ensures RefundExecutionUnderOneOf(hub, cfg.lookbackInvalid, spoke, relays, x) {
          var relay :| relay in relays[1..] && RefundExecutionUnder(hub, cfg.lookbackInvalid, spoke, relay, x);
          assert relay in relays;
        }
      }
    }
  }

  /** The slow relay counterpart of `RefundRelaysRunSound`. */
  lemma {:induction false} SlowRelaysRunSound(
    hub: HubPoolView, spoke: SpokePoolView, relays: seq<RootBundleRelay>, getRefund: (int, int) -> int,
    balances: map<Key, nat>, used: Ledger, cache: RootCache.Cache, cfg: HistoryConfig)
    ensures forall x :: x in SlowRelaysRun(hub, spoke, relays, getRefund, balances, used, cache, cfg).added ==>
      SlowExecutionUnderOneOf(hub, cfg.lookbackInvalid, cfg.ignoredAddresses, getRefund, spoke, relays, x)
    ensures !cfg.submitExecution ==> SlowRelaysRun(hub, spoke, relays, getRefund, balances, used, cache, cfg).added == []
    ensures Solvent(balances, used) ==> Solvent(balances, SlowRelaysRun(hub, spoke, relays, getRefund, balances, used, cache, cfg).used)
    decreases |relays|
  {
    if relays != [] {
      var first := SlowRelayRun(hub, spoke, relays[0], getRefund, balances, used, cache, cfg);
      SlowRelayRunSound(hub, spoke, relays[0], getRefund, balances, used, cache, cfg);
      assert relays[0] in relays;
      if first.outcome.Ok? {
        SlowRelaysRunSound(hub, spoke, relays[1..], getRefund, balances, first.used, first.cache, cfg);
        var rest := SlowRelaysRun(hub, spoke, relays[1..], getRefund, balances, first.used, first.cache, cfg);
        forall x | x in rest.added
          ensures SlowExecutionUnderOneOf(hub, cfg.lookbackInvalid, cfg.ignoredAddresses, getRefund, spoke, relays, x)
        {
          var relay :| relay in relays[1..] && SlowExecutionUnder(hub, cfg.lookbackInvalid, cfg.ignoredAddresses, getRefund, spoke, relay, x);
          assert relay in relays;
        }
      }
    }
  }

  /** Every spoke's relayed refund roots queue only executions the refund
      executor may queue, nothing when not submitting, and keep the ledger solvent. */
  lemma {:induction false} RefundSpokesRunSound(
    hub: HubPoolView, spokes: seq<SpokePoolView>, latest: seq<ProposedRootBundle>,
    balances: map<Key, nat>, used: Ledger, cache: RootCache.Cache, cfg: HistoryConfig)
    ensures forall x :: x in RefundSpokesRun(hub, spokes, latest, balances, used, cache, cfg).added ==>
      RefundExecutionOk(hub, cfg.lookbackInvalid, spokes, latest, x)
    ensures !cfg.submitExecution ==> RefundSpokesRun(hub, spokes, latest, balances, used, cache, cfg).added == []
    ensures Solvent(balances, used) ==> Solvent(balances, RefundSpokesRun(hub, spokes, latest, balances, used, cache, cfg).used)
    decreases |spokes|
  {
    if spokes != [] {
      var relays := RefundRelays(spokes[0], latest);
      var first := RefundRelaysRun(hub, spokes[0], relays, balances, used, cache, cfg);
      RefundRelaysRunSound(hub, spokes[0], relays, balances, used, cache, cfg);
      assert spokes[0] in spokes;
      if first.outcome.Ok? {
        RefundSpokesRunSound(hub, spokes[1..], latest, balances, first.used, first.cache, cfg);
        var rest := RefundSpokesRun(hub, spokes[1..], latest, balances, first.used, first.cache, cfg);
        forall x | x in rest.added ensures RefundExecutionOk(hub, cfg.lookbackInvalid, spokes, latest, x) {
          var s :| s in spokes[1..] && RefundExecutionFromSpoke(hub, cfg.lookbackInvalid, s, latest, x);
          assert s in spokes;
        }
      }
    }
  }

  /** The slow relay counterpart of `RefundSpokesRunSound`. */
  lemma {:induction false} SlowSpokesRunSound(
    hub: HubPoolView, spokes: seq<SpokePoolView>, latest: seq<ProposedRootBundle>, getRefund: (int, int) -> int,
    balances: map<Key, nat>, used: Ledger, cache: RootCache.Cache, cfg: HistoryConfig)
    ensures forall x :: x in SlowSpokesRun(hub, spokes, latest, getRefund, balances, used, cache, cfg).added ==>
      SlowExecutionOk(hub, cfg.lookbackInvalid, cfg.ignoredAddresses, getRefund, spokes, latest, x)
    ensures !cfg.submitExecution ==> SlowSpokesRun(hub, spokes, latest, getRefund, balances, used, cache, cfg).added == []
    ensures Solvent(balances, used) ==> Solvent(balances, SlowSpokesRun(hub, spokes, latest, getRefund, balances, used, cache, cfg).used)
    decreases |spokes|
  {
    if spokes != [] {
      var relays := SlowRelays(spokes[0], latest);
      var first := SlowRelaysRun(hub, spokes[0], relays, getRefund, balances, used, cache, cfg);
      SlowRelaysRunSound(hub, spokes[0], relays, getRefund, balances, used, cache, cfg);
      assert spokes[0] in spokes;
      if first.outcome.Ok? {
        SlowSpokesRunSound(hub, spokes[1..], latest, getRefund, balances, first.used, first.cache, cfg);
        var rest := SlowSpokesRun(hub, spokes[1..], latest, getRefund, balances, first.used, first.cache, cfg);
        forall x | x in rest.added ensures SlowExecutionOk(hub, cfg.lookbackInvalid, cfg.ignoredAddresses, getRefund, spokes, latest, x) {
          var s :| s in spokes[1..] && SlowExecutionFromSpoke(hub, cfg.lookbackInvalid, cfg.ignoredAddresses, getRefund, s, latest, x);
          assert s in spokes;
        }
      }
    }
  }

  // ---- what the pool rebalance phases queue and spend ----

  /** The hub chain's own phases from ledger `used`: its pool rebalance leaves,
      then its executable slow fills, then its refunds, each phase funded from
      what the one before left; the transactions queued (none without
      `submitExecution`) and the ledger afterwards. */
  function HomeChainRun(
    env: ExecutionEnv, balances: map<Key, nat>, used: Ledger, mainnetLeaves: seq<PoolRebalanceLeaf>,
    trees: RootBundleData, ignoredAddresses: seq<Address>, submitExecution: bool): (seq<Instruction>, Ledger)
    requires SpokeFor(env.spokes, env.hub.chainId).Some?
  {
    var hubChainId := env.hub.chainId;
    var cfg := PoolConfig(env);
    var hubSpoke := SpokeFor(env.spokes, hubChainId).value;
    var id := hubSpoke.latestRootBundleId;
    var fp := FundPoolLeaves(balances, used, mainnetLeaves, cfg);
    var executable := ExecutableSlowFillLeaves(SlowFillLeavesForChain(trees.slowFillLeaves, hubChainId), ignoredAddresses);
    var fs := FundSlowFillLeaves(balances, fp.1, executable, hubSpoke.fills, env.getRefund, hubSpoke.spokePoolAddress);
    var fr := FundRefundLeaves(balances, fs.1, RefundLeavesForChain(trees.relayerRefundLeaves, hubChainId),
                               hubSpoke.spokePoolAddress, hubChainId, env.hub.hubPoolAddress);
    var added :=
      if submitExecution then
        PoolInstructions(fp.0, cfg, trees.poolRebalanceRoot)
        + SlowInstructions(fs.0, hubChainId, id, trees.slowRelayRoot, hubChainId)
        + RefundInstructions(fr.0, hubChainId, id, trees.relayerRefundRoot, hubChainId)
      else [];
    (added, fr.1)
  }

  /** The other chains' pool rebalance leaves funded from ledger `used`. */
  function OtherChainRun(
    env: ExecutionEnv, balances: map<Key, nat>, used: Ledger, remoteLeaves: seq<PoolRebalanceLeaf>,
    trees: RootBundleData, submitExecution: bool): (seq<Instruction>, Ledger)
    requires SpokeFor(env.spokes, env.hub.chainId).Some?
  {
    var f := FundPoolLeaves(balances, used, remoteLeaves, PoolConfig(env));
    (if submitExecution then PoolInstructions(f.0, PoolConfig(env), trees.poolRebalanceRoot) else [], f.1)
  }

  /** A bundle's unexecuted pool rebalance leaves: the hub chain's phases when
      some leaves are the hub chain's own, then the other chains' leaves. */
  function UnexecutedPoolRun(
    env: ExecutionEnv, balances: map<Key, nat>, used: Ledger, unexecuted: seq<PoolRebalanceLeaf>,
    trees: RootBundleData, ignoredAddresses: seq<Address>, submitExecution: bool): (seq<Instruction>, Ledger)
    requires SpokeFor(env.spokes, env.hub.chainId).Some?
  {
    var mainnetLeaves := PoolLeavesForChain(unexecuted, env.hub.chainId);
    var home := if |mainnetLeaves| > 0 then HomeChainRun(env, balances, used, mainnetLeaves, trees, ignoredAddresses, submitExecution)
                else ([], used);
    var other := OtherChainRun(env, balances, home.1, PoolLeavesNotForChain(unexecuted, env.hub.chainId), trees, submitExecution);
    (home.0 + other.0, other.1)
  }

  /** Where the pool rebalance executor stopped, when it did not throw. */
  datatype PoolExecutionStep = NoPendingBundle | InvalidBundle | ChallengePeriodOpen | AllLeavesExecuted | Executed

  class Dataworker {
    /** The chains of a bundle's block ranges, in range order. */
    const chainIdList: seq<ChainId>
    /** Per chain (in range order), how far past the expected end block a
        pending bundle may end without being disputed. */
    const endBlockBuffers: seq<int>
    /** How many of the latest validated bundles the historical executors
        look at; 0 means all. */
    const spokeRootsLookbackCount: nat
    const bufferToPropose: int
    const forceProposal: bool
    const forceBundleRange: Option<BundleBlockRanges>
    const builders: Builders
    /** The pool rebalance root cache is switched off by the environment. */
    const disableRootCache: bool
    /** Depositors and recipients whose slow fills are never executed. */
    const ignoredAddresses: seq<Address>
    var rootCache: RootCache.Cache
    var queue: seq<Instruction>

    constructor(
      chainIdList: seq<ChainId>, endBlockBuffers: seq<int>, spokeRootsLookbackCount: nat, bufferToPropose: int,
      forceProposal: bool, forceBundleRange: Option<BundleBlockRanges>, builders: Builders,
      disableRootCache: bool, ignoredAddresses: seq<Address>)
      ensures this.chainIdList == chainIdList && this.endBlockBuffers == endBlockBuffers
      ensures this.spokeRootsLookbackCount == spokeRootsLookbackCount && this.bufferToPropose == bufferToPropose
      ensures this.forceProposal == forceProposal && this.forceBundleRange == forceBundleRange
      ensures this.builders == builders && this.disableRootCache == disableRootCache
      ensures this.ignoredAddresses == ignoredAddresses
      ensures rootCache == map[] && queue == []
    {
      this.chainIdList := chainIdList;
      this.endBlockBuffers := endBlockBuffers;
      this.spokeRootsLookbackCount := spokeRootsLookbackCount;
      this.bufferToPropose := bufferToPropose;
      this.forceProposal := forceProposal;
      this.forceBundleRange := forceBundleRange;
      this.builders := builders;
      this.disableRootCache := disableRootCache;
      this.ignoredAddresses := ignoredAddresses;
      rootCache := map[];
      queue := [];
    }

    /** The validation context describes this dataworker's configuration. */
    predicate Fits(ctx: ValidationContext, hub: HubPoolView) {
      ctx.hubChainId == hub.chainId && ctx.chainIdList == chainIdList && ctx.endBlockBuffers == endBlockBuffers
    }

    method ClearCache()
      modifies this
      ensures rootCache == map[] && queue == old(queue)
    {
      rootCache := map[];
    }

    method GetPoolRebalanceRoot(ranges: BundleBlockRanges, latestMainnetBlock: int, mainnetBundleEndBlock: int)
      returns (root: PoolRebalanceRoot)
      modifies this
      ensures (root, rootCache) ==
        RootCache.GetPoolRebalanceRoot(old(rootCache), builders.poolRebalance, disableRootCache, ranges, latestMainnetBlock, mainnetBundleEndBlock)
      ensures queue == old(queue)
    {
      if ranges !in rootCache || disableRootCache {
        rootCache := rootCache[ranges := builders.poolRebalance(ranges, latestMainnetBlock, mainnetBundleEndBlock)];
      }
      root := rootCache[ranges];
    }

    /** The three trees for `ranges`, the pool rebalance root through the cache. */
    method RebuildTrees(ranges: BundleBlockRanges, latestMainnetBlock: int, mainnetBundleEndBlock: int)
      returns (data: RootBundleData)
      modifies this
      ensures
        var pool := RootCache.GetPoolRebalanceRoot(old(rootCache), builders.poolRebalance, disableRootCache, ranges, latestMainnetBlock, mainnetBundleEndBlock);
        var refund := builders.relayerRefund(ranges, mainnetBundleEndBlock, pool.0.leaves, pool.0.runningBalances);
        var slow := builders.slowRelay(ranges);
        && data == RootBundleData(pool.0.leaves, pool.0.root, refund.leaves, refund.root, slow.leaves, slow.root)
        && rootCache == pool.1
      ensures queue == old(queue)
    {
      var pool := GetPoolRebalanceRoot(ranges, latestMainnetBlock, mainnetBundleEndBlock);
      var refund := builders.relayerRefund(ranges, mainnetBundleEndBlock, pool.leaves, pool.runningBalances);
      var slow := builders.slowRelay(ranges);
      data := RootBundleData(pool.leaves, pool.root, refund.leaves, refund.root, slow.leaves, slow.root);
    }

    /** `_proposeRootBundle`. */
    method BuildRootBundle(ranges: BundleBlockRanges, latestMainnetBlock: int, hubChainId: ChainId)
      returns (r: Outcome<RootBundleData>)
      modifies this
      ensures
        var spec := RootCache.BuildRootBundle(old(rootCache), builders, disableRootCache, ranges, latestMainnetBlock, hubChainId, chainIdList);
        && (spec.Throw? ==> r.Throw? && rootCache == old(rootCache))
        && (spec.Ok? ==> r == Ok(spec.value.0) && rootCache == spec.value.1)
      ensures queue == old(queue)
    {
      var mainnet := BlockRangeForChain(ranges, hubChainId, chainIdList);
      if mainnet.Throw? {
        return Throw(mainnet.message);
      }
      var data := RebuildTrees(ranges, latestMainnetBlock, mainnet.value.1);
      r := Ok(data);
    }

    method EnqueueRootBundleProposal(hubChainId: ChainId, ranges: BundleBlockRanges, data: RootBundleData)
      modifies this
      ensures queue == old(queue) + [ProposalInstruction(hubChainId, ranges, data)]
      ensures rootCache == old(rootCache)
    {
      queue := queue + [ProposalInstruction(hubChainId, ranges, data)];
    }

    method SubmitDisputeWithMrkdwn(hubChainId: ChainId, mrkdwn: string)
      modifies this
      ensures queue == old(queue) + [DisputeRootBundle(hubChainId, mrkdwn)]
      ensures rootCache == old(rootCache)
    {
      queue := queue + [DisputeRootBundle(hubChainId, mrkdwn)];
    }

    /** The forced range when one is configured, else the next proposal's ranges. */
    function ProposalRanges(hub: HubPoolView, widest: BundleBlockRanges, hasLatestConfigStoreVersion: bool, lookbackInvalid: BundleBlockRanges -> bool)
      : Outcome<Option<BundleBlockRanges>>
    {
      if forceBundleRange.Some? then Ok(forceBundleRange)
      else NextProposalBlockRanges(hub, chainIdList, forceProposal, hasLatestConfigStoreVersion, widest, lookbackInvalid)
    }

    /** `proposeRootBundle`: stops without a proposal when there are no ranges,
        when the roots' USD volume is below the threshold, while the previous
        bundle is still being executed, or when there are no pool rebalance
        leaves; otherwise queues one proposal of the rebuilt roots when
        proposals are submitted. Returns where it stopped. */
    method ProposeRootBundle(
      hub: HubPoolView, widest: BundleBlockRanges, hasLatestConfigStoreVersion: bool, lookbackInvalid: BundleBlockRanges -> bool,
      usdThreshold: Option<int>, usdVolume: seq<PoolRebalanceLeaf> -> int, submitProposals: bool)
      returns (r: Outcome<Option<ProposalStep>>)
      modifies this
      ensures
        var ranges := ProposalRanges(hub, widest, hasLatestConfigStoreVersion, lookbackInvalid);
        && (ranges.Throw? ==> r.Throw? && queue == old(queue) && rootCache == old(rootCache))
        && (ranges == Ok(None) ==> r == Ok(None) && queue == old(queue) && rootCache == old(rootCache))
        && (ranges.Ok? && ranges.value.Some? ==>
              var built := RootCache.BuildRootBundle(old(rootCache), builders, disableRootCache, ranges.value.value,
                                                     hub.latestBlockSearched, hub.chainId, chainIdList);
              && (built.Throw? ==> r.Throw? && queue == old(queue) && rootCache == old(rootCache))
              && (built.Ok? ==>
                    var data := built.value.0;
                    var mainnetEnd := BlockRangeForChain(ranges.value.value, hub.chainId, chainIdList).value.1;
                    var step := ProposalDecision(usdThreshold, usdVolume(data.poolRebalanceLeaves),
                                                 ShouldWaitToPropose(hub, mainnetEnd, bufferToPropose), |data.poolRebalanceLeaves|);
                    && rootCache == built.value.1
                    && (step.Throw? ==> r.Throw?)
                    && (step.Ok? ==> r == Ok(Some(step.value)))
                    && queue == old(queue) + (if step == Ok(Propose) && submitProposals
                                              then [ProposalInstruction(hub.chainId, ranges.value.value, data)] else [])))
    {
      var ranges: BundleBlockRanges;
      if forceBundleRange.Some? {
        ranges := forceBundleRange.value;
      } else {
        var next := NextProposalBlockRanges(hub, chainIdList, forceProposal, hasLatestConfigStoreVersion, widest, lookbackInvalid);
        if next.Throw? {
          return Throw(next.message);
        }
        if next.value.None? {
          return Ok(None);
        }
        ranges := next.value.value;
      }
      var mainnet := BlockRangeForChain(ranges, hub.chainId, chainIdList);
      if mainnet.Throw? {
        return Throw(mainnet.message);
      }
      var data := RebuildTrees(ranges, hub.latestBlockSearched, mainnet.value.1);
      if usdThreshold.Some? && usdVolume(data.poolRebalanceLeaves) < usdThreshold.value {
        return Ok(Some(BelowUsdThreshold));
      }
      var wait := ShouldWaitToPropose(hub, mainnet.value.1, bufferToPropose);
      if wait.Throw? {
        return Throw(wait.message);
      }
      if wait.value {
        return Ok(Some(WaitToPropose));
      }
      if |data.poolRebalanceLeaves| == 0 {
        return Ok(Some(NoPoolRebalanceLeaves));
      }
      if submitProposals {
        EnqueueRootBundleProposal(hub.chainId, ranges, data);
      }
      r := Ok(Some(Propose));
    }

    /** `validateRootBundle`: the checks in order, then the rebuild of the
        implied ranges through the cache and the comparison of the roots. */
    method ValidateRootBundle(ctx: ValidationContext, pending: PendingRootBundle, widest: BundleBlockRanges)
      returns (r: Outcome<Verdict>)
      requires ctx.chainIdList == chainIdList
      modifies this
      ensures
        var rebuild := ValidationRebuild(old(rootCache), builders, disableRootCache, ctx, pending, widest);
        && r == Validation.ValidateRootBundle(ctx, pending, widest, rebuild.0)
        && rootCache == rebuild.1
      ensures queue == old(queue)
    {
      var pre := Prechecks(ctx, pending, widest);
      match pre
      case Throw(m) =>
        r := Throw(m);
      case Ok(Decided(v)) =>
        r := Ok(v);
      case Ok(Rebuild(implied, mainnetBundleEndBlock)) =>
        assert BlockRangeForChain(implied, ctx.hubChainId, ctx.chainIdList).Ok?
            && BlockRangeForChain(implied, ctx.hubChainId, ctx.chainIdList).value.1 == mainnetBundleEndBlock;
        var data := RebuildTrees(implied, pending.proposalBlockNumber, mainnetBundleEndBlock);
        assert (data, rootCache) == ValidationRebuild(old(rootCache), builders, disableRootCache, ctx, pending, widest);
        r := Ok(CompareRoots(pending, data, ctx.rootsMarkdown));
    }

    /** `validatePendingRootBundle`: validates the pending bundle while it is
        in its challenge period and queues the dispute its verdict calls for. */
    method ValidatePendingRootBundle(hub: HubPoolView, ctx: ValidationContext, widest: BundleBlockRanges, submitDisputes: bool)
      returns (r: Outcome<Option<Verdict>>)
      requires Fits(ctx, hub)
      modifies this
      ensures
        var gate := PendingBundleToValidate(hub);
        && (gate.Throw? ==> r.Throw? && queue == old(queue) && rootCache == old(rootCache))
        && (gate == Ok(None) ==> r == Ok(None) && queue == old(queue) && rootCache == old(rootCache))
        && (gate.Ok? && gate.value.Some? ==>
              var rebuild := ValidationRebuild(old(rootCache), builders, disableRootCache, ctx, gate.value.value, widest);
              var v := Validation.ValidateRootBundle(ctx, gate.value.value, widest, rebuild.0);
              && rootCache == rebuild.1
              && (v.Throw? ==> r.Throw? && queue == old(queue))
              && (v.Ok? ==> r == Ok(Some(v.value)) && queue == old(queue) + DisputesFor(v.value, hub.chainId, submitDisputes)))
    {
      var gate := PendingBundleToValidate(hub);
      if gate.Throw? {
        return Throw(gate.message);
      }
      if gate.value.None? {
        return Ok(None);
      }
      var v := ValidateRootBundle(ctx, gate.value.value, widest);
      if v.Throw? {
        return Throw(v.message);
      }
      var verdict := v.value;
      if !verdict.valid {
        var reason := if verdict.reason.Some? then verdict.reason.value else "";
        if DisputeActionFor(reason) == SubmitDispute && submitDisputes {
          SubmitDisputeWithMrkdwn(hub.chainId, reason);
        }
      }
      r := Ok(Some(verdict));
    }

    /** The reduce that collects the L1 tokens of the bundle's pool rebalance leaves. */
    method L1TokensInBundle(leaves: seq<PoolRebalanceLeaf>) returns (tokens: seq<Address>)
      ensures tokens == Funding.L1TokensInBundle(leaves)
    {
      tokens := [];
      var i := 0;
      while i < |leaves|
        invariant 0 <= i <= |leaves|
        invariant tokens == Dedup(Flatten(leaves[..i], L1TokensOf))
      {
        tokens := AppendNewTokens(tokens, Flatten(leaves[..i], L1TokensOf), leaves[i].l1Tokens);
        FlattenSnoc(leaves[..i], leaves[i], L1TokensOf);
        assert leaves[..i + 1] == leaves[..i] + [leaves[i]];
        i := i + 1;
      }
      assert leaves[..i] == leaves;
    }

    /** `_updateExchangeRates`: one refresh per distinct token that is due,
        in order of first appearance, queued when executions are submitted. */
    method UpdateExchangeRates(l1Tokens: seq<Address>, hub: HubPoolView, liquidReservesDelta: Address -> int, submitExecution: bool)
      modifies this
      ensures queue == old(queue) + RateCalls(hub, liquidReservesDelta, l1Tokens, submitExecution)
      ensures rootCache == old(rootCache)
    {
      var synced: seq<Address> := [];
      var i := 0;
      while i < |l1Tokens|
        invariant 0 <= i <= |l1Tokens|
        invariant synced == Dedup(l1Tokens[..i])
        invariant queue == old(queue) + RateCalls(hub, liquidReservesDelta, l1Tokens[..i], submitExecution)
        invariant rootCache == old(rootCache)
      {
        assert l1Tokens[..i + 1] == l1Tokens[..i] + [l1Tokens[i]];
        synced := SyncExchangeRate(l1Tokens[i], l1Tokens[..i], synced, old(queue), hub, liquidReservesDelta, submitExecution);
        i := i + 1;
      }
      assert l1Tokens[..i] == l1Tokens;
    }

    /** A token of `_updateExchangeRates` after `seen`: refreshed, when due,
        unless an earlier token was the same. */
    method SyncExchangeRate(
      t: Address, ghost seen: seq<Address>, synced: seq<Address>, ghost base: seq<Instruction>,
      hub: HubPoolView, liquidReservesDelta: Address -> int, submitExecution: bool)
      returns (synced': seq<Address>)
      requires synced == Dedup(seen)
      requires queue == base + RateCalls(hub, liquidReservesDelta, seen, submitExecution)
      modifies this
      ensures synced' == Dedup(seen + [t])
      ensures queue == base + RateCalls(hub, liquidReservesDelta, seen + [t], submitExecution)
      ensures rootCache == old(rootCache)
    {
      ghost var added: seq<Instruction> :=
        if submitExecution && t !in synced && RateDue(hub, liquidReservesDelta)(t) then [ExchangeRateCurrent(hub.chainId, t)] else [];
      DedupSnoc(seen, t);
      synced' := synced;
      if t !in synced {
        synced' := synced + [t];
        UpdateExchangeRate(t, hub, liquidReservesDelta, submitExecution);
      }
      RateQueueStep(base, seen, t, hub, liquidReservesDelta, submitExecution, added, queue);
    }

    /** One token's turn in `_updateExchangeRates`: skipped when the time is
        unknown, within the cooldown of the last fee compounding, or when
        syncing would not raise liquid reserves. */
    method UpdateExchangeRate(t: Address, hub: HubPoolView, liquidReservesDelta: Address -> int, submitExecution: bool)
      modifies this
      ensures queue == old(queue) + (if submitExecution && RateDue(hub, liquidReservesDelta)(t) then [ExchangeRateCurrent(hub.chainId, t)] else [])
      ensures rootCache == old(rootCache)
    {
      var last := if hub.lastLpFeeUpdate(t).Some? then hub.lastLpFeeUpdate(t).value else 0;
      if hub.currentTime.None? || hub.currentTime.value - last <= ExchangeRateCooldown {
        return;
      }
      if liquidReservesDelta(t) <= 0 {
        return;
      }
      if submitExecution {
        queue := queue + [ExchangeRateCurrent(hub.chainId, t)];
      }
    }

    /** `_executePoolRebalanceLeaves`: funds the leaves one by one, then queues
        the ETH loads and executions of the funded ones. */
    method ExecutePoolRebalanceLeafBatch(
      leaves: seq<PoolRebalanceLeaf>, allocator: BalanceAllocator, cfg: PoolFundingConfig, root: Root, submitExecution: bool)
      returns (funded: seq<PoolRebalanceLeaf>)
      modifies this, allocator
      ensures (funded, allocator.used) == FundPoolLeaves(allocator.balances, old(allocator.used), leaves, cfg)
      ensures queue == old(queue) + (if submitExecution then PoolInstructions(funded, cfg, root) else [])
      ensures rootCache == old(rootCache)
    {
      funded := [];
      var i := 0;
      while i < |leaves|
        invariant 0 <= i <= |leaves|
        invariant (funded, allocator.used) == FundPoolLeaves(allocator.balances, old(allocator.used), leaves[..i], cfg)
        invariant queue == old(queue) && rootCache == old(rootCache)
      {
        FundPoolLeavesPrefix(allocator.balances, old(allocator.used), leaves, i, cfg);
        var success := FundPoolRebalanceLeaf(leaves[i], allocator, cfg, funded);
        if success {
          funded := funded + [leaves[i]];
        }
        i := i + 1;
      }
      assert leaves[..i] == leaves;
      if submitExecution {
        EnqueuePoolRebalanceLeaves(funded, cfg, root);
      }
    }

    method EnqueuePoolRebalanceLeaves(funded: seq<PoolRebalanceLeaf>, cfg: PoolFundingConfig, root: Root)
      modifies this
      ensures queue == old(queue) + PoolInstructions(funded, cfg, root)
      ensures rootCache == old(rootCache)
    {
      var k := 0;
      while k < |funded|
        invariant 0 <= k <= |funded|
        invariant queue == old(queue) + PoolInstructions(funded[..k], cfg, root)
        invariant rootCache == old(rootCache)
      {
        var leaf := funded[k];
        PoolInstructionsPrefix(funded, k, cfg, root);
        if cfg.isArbitrum(leaf.chainId) && cfg.hubPoolEthBalance < RequiredEthForArbitrumLeaf(leaf) {
          queue := queue + [LoadEthForL2Calls(cfg.hubChainId, RequiredEthForArbitrumLeaf(leaf))];
        }
        queue := queue + [ExecuteRootBundle(cfg.hubChainId, leaf, root, leaf.chainId != cfg.hubChainId)];
        k := k + 1;
      }
      assert funded[..k] == funded;
    }

    /** `_executeRelayerRefundLeaves`: throws when a leaf is for another
        chain; otherwise funds the leaves one by one and queues the funded ones. */
    method ExecuteRelayerRefundLeafBatch(
      leaves: seq<RelayerRefundLeaf>, allocator: BalanceAllocator, spoke: SpokePoolView, hub: HubPoolView,
      root: Root, submitExecution: bool, rootBundleId: int)
      returns (r: Outcome<seq<RelayerRefundLeaf>>)
      modifies this, allocator
      ensures !RefundLeavesOnChain(leaves, spoke.chainId) ==>
        r.Throw? && allocator.used == old(allocator.used) && queue == old(queue)
      ensures RefundLeavesOnChain(leaves, spoke.chainId) ==>
        var f := FundRefundLeaves(allocator.balances, old(allocator.used), leaves, spoke.spokePoolAddress, hub.chainId, hub.hubPoolAddress);
        && r == Ok(f.0) && allocator.used == f.1
        && queue == old(queue) + (if submitExecution then RefundInstructions(f.0, spoke.chainId, rootBundleId, root, hub.chainId) else [])
      ensures rootCache == old(rootCache)
    {
      if |leaves| == 0 {
        return Ok([]);
      }
      var i := 0;
      while i < |leaves|
        invariant 0 <= i <= |leaves|
        invariant forall j :: 0 <= j < i ==> leaves[j].chainId == spoke.chainId
      {
        if leaves[i].chainId != spoke.chainId {
          return Throw("Leaf chainId does not match input chainId");
        }
        i := i + 1;
      }
      var funded: seq<RelayerRefundLeaf> := [];
      i := 0;
      while i < |leaves|
        invariant 0 <= i <= |leaves|
        invariant (funded, allocator.used) ==
          FundRefundLeaves(allocator.balances, old(allocator.used), leaves[..i], spoke.spokePoolAddress, hub.chainId, hub.hubPoolAddress)
        invariant queue == old(queue) && rootCache == old(rootCache)
      {
        FundRefundLeavesPrefix(allocator.balances, old(allocator.used), leaves, i, spoke.spokePoolAddress, hub.chainId, hub.hubPoolAddress);
        var success := FundRelayerRefundLeaf(leaves[i], allocator, spoke.spokePoolAddress, hub.chainId, hub.hubPoolAddress, funded);
        if success {
          funded := funded + [leaves[i]];
        }
        i := i + 1;
      }
      assert leaves[..i] == leaves;
      if submitExecution {
        EnqueueRelayerRefundLeaves(funded, spoke.chainId, rootBundleId, root, hub.chainId);
      }
      r := Ok(funded);
    }

    method EnqueueRelayerRefundLeaves(funded: seq<RelayerRefundLeaf>, chainId: ChainId, rootBundleId: int, root: Root, hubChainId: ChainId)
      modifies this
      ensures queue == old(queue) + RefundInstructions(funded, chainId, rootBundleId, root, hubChainId)
      ensures rootCache == old(rootCache)
    {
      var k := 0;
      while k < |funded|
        invariant 0 <= k <= |funded|
        invariant queue == old(queue) + RefundInstructions(funded[..k], chainId, rootBundleId, root, hubChainId)
        invariant rootCache == old(rootCache)
      {
        var leaf := funded[k];
        queue := queue + [ExecuteRelayerRefundLeaf(chainId, rootBundleId, leaf, root, chainId == 1, leaf.chainId == hubChainId)];
        assert RefundInstructions(funded[..k + 1], chainId, rootBundleId, root, hubChainId)
            == RefundInstructions(funded[..k], chainId, rootBundleId, root, hubChainId)
               + [ExecuteRelayerRefundLeaf(chainId, rootBundleId, leaf, root, chainId == 1, leaf.chainId == hubChainId)];
        k := k + 1;
      }
      assert funded[..k] == funded;
    }

    /** `_executeSlowFillLeaf`: drops leaves with a message or an ignored
        party; throws when a remaining leaf pays out on another chain;
        otherwise funds the remaining leaves that need a non-zero amount, one
        by one, and queues the funded ones. */
    method ExecuteSlowFillLeafBatch(
      leaves: seq<SlowFillLeaf>, allocator: BalanceAllocator, spoke: SpokePoolView, hubChainId: ChainId,
      root: Root, submitExecution: bool, rootBundleId: int, getRefund: (int, int) -> int)
      returns (r: Outcome<seq<SlowFillLeaf>>)
      modifies this, allocator
      ensures
        var executable := ExecutableSlowFillLeaves(leaves, ignoredAddresses);
        && (!SlowFillLeavesOnChain(executable, spoke.chainId) ==>
              r.Throw? && allocator.used == old(allocator.used) && queue == old(queue))
        && (SlowFillLeavesOnChain(executable, spoke.chainId) ==>
              var f := FundSlowFillLeaves(allocator.balances, old(allocator.used), executable, spoke.fills, getRefund, spoke.spokePoolAddress);
              && r == Ok(f.0) && allocator.used == f.1
              && queue == old(queue) + (if submitExecution then SlowInstructions(f.0, spoke.chainId, rootBundleId, root, hubChainId) else []))
      ensures rootCache == old(rootCache)
    {
      var executable := ExecutableSlowFillLeaves(leaves, ignoredAddresses);
      if |executable| == 0 {
        return Ok([]);
      }
      var i := 0;
      while i < |executable|
        invariant 0 <= i <= |executable|
        invariant forall j :: 0 <= j < i ==> executable[j].LeafChainId() == spoke.chainId
      {
        if executable[i].LeafChainId() != spoke.chainId {
          return Throw("Leaf chainId does not match input chainId");
        }
        i := i + 1;
      }
      var funded: seq<SlowFillLeaf> := [];
      i := 0;
      while i < |executable|
        invariant 0 <= i <= |executable|
        invariant (funded, allocator.used) ==
          FundSlowFillLeaves(allocator.balances, old(allocator.used), executable[..i], spoke.fills, getRefund, spoke.spokePoolAddress)
        invariant queue == old(queue) && rootCache == old(rootCache)
      {
        FundSlowFillLeavesPrefix(allocator.balances, old(allocator.used), executable, i, spoke.fills, getRefund, spoke.spokePoolAddress);
        var success := FundSlowFillLeaf(executable[i], allocator, spoke.fills, getRefund, spoke.spokePoolAddress, funded);
        if success {
          funded := funded + [executable[i]];
        }
        i := i + 1;
      }
      assert executable[..i] == executable;
      if submitExecution {
        EnqueueSlowFillLeaves(funded, spoke.chainId, rootBundleId, root, hubChainId);
      }
      r := Ok(funded);
    }

    method EnqueueSlowFillLeaves(funded: seq<SlowFillLeaf>, chainId: ChainId, rootBundleId: int, root: Root, hubChainId: ChainId)
      modifies this
      ensures queue == old(queue) + SlowInstructions(funded, chainId, rootBundleId, root, hubChainId)
      ensures rootCache == old(rootCache)
    {
      var k := 0;
      while k < |funded|
        invariant 0 <= k <= |funded|
        invariant queue == old(queue) + SlowInstructions(funded[..k], chainId, rootBundleId, root, hubChainId)
        invariant rootCache == old(rootCache)
      {
        var leaf := funded[k];
        queue := queue + [ExecuteSlowRelayLeaf(chainId, rootBundleId, leaf, root, chainId == hubChainId, chainId == hubChainId)];
        assert SlowInstructions(funded[..k + 1], chainId, rootBundleId, root, hubChainId)
            == SlowInstructions(funded[..k], chainId, rootBundleId, root, hubChainId)
               + [ExecuteSlowRelayLeaf(chainId, rootBundleId, leaf, root, chainId == hubChainId, chainId == hubChainId)];
        k := k + 1;
      }
      assert funded[..k] == funded;
    }

    // ---- the historical executors ----

    /** The settings the historical executors run with. */
    function History(lookbackInvalid: BundleBlockRanges -> bool, submitExecution: bool): HistoryConfig {
      HistoryConfig(builders, disableRootCache, chainIdList, lookbackInvalid, ignoredAddresses, submitExecution)
    }

    /** One relayed refund root on a spoke (the body of the inner loop of
        `executeRelayerRefundLeaves`): finds the bundle the relay came from,
        rebuilds its trees at its proposal block, and executes the spoke
        chain's unexecuted refund leaves when the rebuilt root is the relayed
        one. Throws only when the bundle's ranges have no hub chain range. */
    method ExecuteRefundRelay(
      hub: HubPoolView, spoke: SpokePoolView, relay: RootBundleRelay, allocator: BalanceAllocator,
      lookbackInvalid: BundleBlockRanges -> bool, submitExecution: bool)
      returns (r: Outcome<()>)
      modifies this, allocator
      ensures
        var run := RefundRelayRun(hub, spoke, relay, allocator.balances, old(allocator.used), old(rootCache), History(lookbackInvalid, submitExecution));
        r == run.outcome && queue == old(queue) + run.added && allocator.used == run.used && rootCache == run.cache
      ensures !RefundRootRebuilt(hub, relay, old(rootCache), History(lookbackInvalid, submitExecution)) ==>
        queue == old(queue) && allocator.used == old(allocator.used)
      ensures Extends(old(queue), queue)
      ensures forall i :: |old(queue)| <= i < |queue| ==> RefundExecutionUnder(hub, lookbackInvalid, spoke, relay, queue[i])
      ensures !submitExecution ==> queue == old(queue)
      ensures Solvent(allocator.balances, old(allocator.used)) ==> Solvent(allocator.balances, allocator.used)
      ensures MatchingRefundBundle(hub, relay).None? ==>
        r == Ok(()) && queue == old(queue) && allocator.used == old(allocator.used) && rootCache == old(rootCache)
      ensures r.Throw? <==>
        MatchingRefundBundle(hub, relay).Some?
        && BlockRangeForChain(hub.impliedBundleBlockRanges(MatchingRefundBundle(hub, relay).value), hub.chainId, chainIdList).Throw?
    {
      var matching := MatchingRefundBundle(hub, relay);
      if matching.None? {
        assert old(queue) + [] == queue;
        return Ok(());
      }
      var bundle := matching.value;
      var ranges := hub.impliedBundleBlockRanges(bundle);
      var mainnet := BlockRangeForChain(ranges, hub.chainId, chainIdList);
      if mainnet.Throw? {
        assert old(queue) + [] == queue;
        return Throw(mainnet.message);
      }
      if lookbackInvalid(ranges) {
        assert old(queue) + [] == queue;
        return Ok(());
      }
      var data := RebuildTrees(ranges, bundle.blockNumber, mainnet.value.1);
      if data.relayerRefundRoot != relay.relayerRefundRoot {
        assert old(queue) + [] == queue;
        return Ok(());
      }
      ExecuteRefundLeavesUnderRelay(hub, spoke, relay, data.relayerRefundLeaves, allocator, lookbackInvalid, submitExecution);
      r := Ok(());
    }

    /** The rebuilt tree matched the relayed root: the refund leaves for the
        spoke's chain that no execution of the relayed id covers are funded in
        order and the funded ones queued. */
    method ExecuteRefundLeavesUnderRelay(
      hub: HubPoolView, spoke: SpokePoolView, relay: RootBundleRelay, leaves: seq<RelayerRefundLeaf>, allocator: BalanceAllocator,
      lookbackInvalid: BundleBlockRanges -> bool, submitExecution: bool)
      requires MatchingRefundBundle(hub, relay).Some?
      requires !lookbackInvalid(hub.impliedBundleBlockRanges(MatchingRefundBundle(hub, relay).value))
      modifies this, allocator
      ensures
        var f := FundRefundLeaves(allocator.balances, old(allocator.used),
                   UnexecutedRefundLeaves(leaves, spoke.chainId, spoke.relayerRefundExecutions, relay.rootBundleId),
                   spoke.spokePoolAddress, hub.chainId, hub.hubPoolAddress);
        && allocator.used == f.1
        && queue == old(queue) + (if submitExecution then RefundInstructions(f.0, spoke.chainId, relay.rootBundleId, relay.relayerRefundRoot, hub.chainId) else [])
      ensures Extends(old(queue), queue)
      ensures forall i :: |old(queue)| <= i < |queue| ==> RefundExecutionUnder(hub, lookbackInvalid, spoke, relay, queue[i])
      ensures !submitExecution ==> queue == old(queue)
      ensures Solvent(allocator.balances, old(allocator.used)) ==> Solvent(allocator.balances, allocator.used)
      ensures rootCache == old(rootCache)
    {
      var unexecuted := UnexecutedRefundLeaves(leaves, spoke.chainId, spoke.relayerRefundExecutions, relay.rootBundleId);
      if |unexecuted| == 0 {
        assert old(queue) + [] == queue;
        return;
      }
      assert RefundLeavesOnChain(unexecuted, spoke.chainId) by {
        forall i | 0 <= i < |unexecuted| ensures unexecuted[i].chainId == spoke.chainId {
          assert unexecuted[i] in unexecuted;
        }
      }
      ghost var before := allocator.used;
      ghost var q0 := queue;
      var batch := ExecuteRelayerRefundLeafBatch(unexecuted, allocator, spoke, hub, relay.relayerRefundRoot, submitExecution, relay.rootBundleId);
      ghost var f := FundRefundLeaves(allocator.balances, before, unexecuted, spoke.spokePoolAddress, hub.chainId, hub.hubPoolAddress);
      if Solvent(allocator.balances, before) {
        FundRefundLeavesKeepsSolvency(allocator.balances, before, unexecuted, spoke.spokePoolAddress, hub.chainId, hub.hubPoolAddress);
      }
      assert queue == q0 + (if submitExecution then RefundInstructions(f.0, spoke.chainId, relay.rootBundleId, relay.relayerRefundRoot, hub.chainId) else []);
      if submitExecution {
        forall l | l in f.0
          ensures l.chainId == spoke.chainId && !RefundLeafExecuted(spoke.relayerRefundExecutions, relay.rootBundleId, l)
        {
          assert l in unexecuted;
        }
        RefundInstructionsUnderRelay(hub, lookbackInvalid, spoke, relay, f.0, q0);
      }
    }

    /** The relayed refund roots of one spoke, oldest first (the outer loop's
        body of `executeRelayerRefundLeaves`); the first throw ends the run. */
    method ExecuteRefundRelaysOnSpoke(
      hub: HubPoolView, spoke: SpokePoolView, latest: seq<ProposedRootBundle>, allocator: BalanceAllocator,
      lookbackInvalid: BundleBlockRanges -> bool, submitExecution: bool)
      returns (r: Outcome<()>)
      modifies this, allocator
      ensures
        var run := RefundRelaysRun(hub, spoke, RefundRelays(spoke, latest), allocator.balances, old(allocator.used), old(rootCache),
                                   History(lookbackInvalid, submitExecution));
        r == run.outcome && queue == old(queue) + run.added && allocator.used == run.used && rootCache == run.cache
    {
      var relays := RefundRelays(spoke, latest);
      ghost var step := RefundRelayStep(hub, spoke, allocator.balances, History(lookbackInvalid, submitExecution));
      ghost var total := RunInTurn(step, relays, allocator.used, rootCache);
      ghost var cur := HistoryRun(Ok(()), [], allocator.used, rootCache);
      assert relays[0..] == relays;
      r := Ok(());
      var k := 0;
      while k < |relays|
        invariant 0 <= k <= |relays| && r == Ok(()) && cur.outcome == Ok(())
        invariant allocator.used == cur.used && rootCache == cur.cache && queue == old(queue) + cur.added
        invariant total == Resume(step, cur, relays[k..])
      {
        ResumeStep(step, cur, relays, k);
        ghost var next := step(relays[k], cur.used, cur.cache);
        AppendTwice(old(queue), cur.added, next.added);
        cur := HistoryRun(next.outcome, cur.added + next.added, next.used, next.cache);
        var res := ExecuteRefundRelay(hub, spoke, relays[k], allocator, lookbackInvalid, submitExecution);
        k := k + 1;
        if res.Throw? {
          r := res;
          break;
        }
        NoThrowIsOk(res);
      }
      ResumeEnds(step, cur, relays[k..]);
      assert total == cur;
    }

    /** `executeRelayerRefundLeaves`: the spokes one after another in chain
        order, each relayed refund root of the latest validated bundles in
        turn. Everything queued executes an unexecuted refund leaf of the
        spoke's own chain under a relayed root whose rebuilt tree matched. */
    method ExecuteRelayerRefundLeaves(
      env: ExecutionEnv, allocator: BalanceAllocator, lookbackInvalid: BundleBlockRanges -> bool, submitExecution: bool)
      returns (r: Outcome<()>)
      modifies this, allocator
      ensures
        var run := RefundSpokesRun(env.hub, env.spokes, LatestRootBundles(env.hub.validatedRootBundles, spokeRootsLookbackCount),
                                   allocator.balances, old(allocator.used), old(rootCache), History(lookbackInvalid, submitExecution));
        r == run.outcome && queue == old(queue) + run.added && allocator.used == run.used && rootCache == run.cache
      ensures Extends(old(queue), queue)
      ensures forall i :: |old(queue)| <= i < |queue| ==>
        RefundExecutionOk(env.hub, lookbackInvalid, env.spokes,
                          LatestRootBundles(env.hub.validatedRootBundles, spokeRootsLookbackCount), queue[i])
      ensures !submitExecution ==> queue == old(queue)
      ensures Solvent(allocator.balances, old(allocator.used)) ==> Solvent(allocator.balances, allocator.used)
    {
      var latest := LatestRootBundles(env.hub.validatedRootBundles, spokeRootsLookbackCount);
      ghost var cfg := History(lookbackInvalid, submitExecution);
      ghost var step := RefundSpokeStep(env.hub, latest, allocator.balances, cfg);
      ghost var used0, cache0 := allocator.used, rootCache;
      ghost var total := RunInTurn(step, env.spokes, used0, cache0);
      ghost var cur := HistoryRun(Ok(()), [], used0, cache0);
      assert env.spokes[0..] == env.spokes;
      r := Ok(());
      var k := 0;
      while k < |env.spokes|
        invariant 0 <= k <= |env.spokes| && r == Ok(()) && cur.outcome == Ok(())
        invariant allocator.used == cur.used && rootCache == cur.cache && queue == old(queue) + cur.added
        invariant total == Resume(step, cur, env.spokes[k..])
      {
        ResumeStep(step, cur, env.spokes, k);
        ghost var next := step(env.spokes[k], cur.used, cur.cache);
        AppendTwice(old(queue), cur.added, next.added);
        cur := HistoryRun(next.outcome, cur.added + next.added, next.used, next.cache);
        var res := ExecuteRefundRelaysOnSpoke(env.hub, env.spokes[k], latest, allocator, lookbackInvalid, submitExecution);
        k := k + 1;
        if res.Throw? {
          r := res;
          break;
        }
        NoThrowIsOk(res);
      }
      ResumeEnds(step, cur, env.spokes[k..]);
      assert total == cur;
      RefundSpokesRunSound(env.hub, env.spokes, latest, allocator.balances, used0, cache0, cfg);
      AppendedInstructions(old(queue), cur.added, queue);
    }

    /** One relayed slow relay root on a spoke (the body of the inner loop of
        `executeSlowRelayLeaves`): finds the bundle the relay came from,
        rebuilds its trees at its proposal block, and executes the leaves paying
        out on the spoke's chain whose deposit has no slow fill yet, when the
        rebuilt root is the relayed one. Throws only when the bundle's ranges
        have no hub chain range. */
    method ExecuteSlowRelay(
      hub: HubPoolView, spoke: SpokePoolView, relay: RootBundleRelay, allocator: BalanceAllocator,
      lookbackInvalid: BundleBlockRanges -> bool, getRefund: (int, int) -> int, submitExecution: bool)
      returns (r: Outcome<()>)
      modifies this, allocator
      ensures
        var run := SlowRelayRun(hub, spoke, relay, getRefund, allocator.balances, old(allocator.used), old(rootCache),
                                History(lookbackInvalid, submitExecution));
        r == run.outcome && queue == old(queue) + run.added && allocator.used == run.used && rootCache == run.cache
      ensures !SlowRootRebuilt(hub, relay, old(rootCache), History(lookbackInvalid, submitExecution)) ==>
        queue == old(queue) && allocator.used == old(allocator.used)
      ensures Extends(old(queue), queue)
      ensures forall i :: |old(queue)| <= i < |queue| ==>
        SlowExecutionUnder(hub, lookbackInvalid, ignoredAddresses, getRefund, spoke, relay, queue[i])
      ensures !submitExecution ==> queue == old(queue)
      ensures Solvent(allocator.balances, old(allocator.used)) ==> Solvent(allocator.balances, allocator.used)
      ensures MatchingSlowBundle(hub, relay).None? ==>
        r == Ok(()) && queue == old(queue) && allocator.used == old(allocator.used) && rootCache == old(rootCache)
      ensures r.Throw? <==>
        MatchingSlowBundle(hub, relay).Some?
        && BlockRangeForChain(hub.impliedBundleBlockRanges(MatchingSlowBundle(hub, relay).value), hub.chainId, chainIdList).Throw?
    {
      var matching := MatchingSlowBundle(hub, relay);
      if matching.None? {
        assert old(queue) + [] == queue;
        return Ok(());
      }
      var bundle := matching.value;
      var ranges := hub.impliedBundleBlockRanges(bundle);
      var mainnet := BlockRangeForChain(ranges, hub.chainId, chainIdList);
      if mainnet.Throw? {
        assert old(queue) + [] == queue;
        return Throw(mainnet.message);
      }
      if lookbackInvalid(ranges) {
        assert old(queue) + [] == queue;
        return Ok(());
      }
      var data := RebuildTrees(ranges, bundle.blockNumber, mainnet.value.1);
      if data.slowRelayRoot != relay.slowRelayRoot {
        assert old(queue) + [] == queue;
        return Ok(());
      }
      ExecuteSlowFillsUnderRelay(hub, spoke, relay, data.slowFillLeaves, allocator, lookbackInvalid, getRefund, submitExecution);
      r := Ok(());
    }

    /** The rebuilt tree matched the relayed root: the leaves paying out on the
        spoke's chain whose deposit has no slow fill yet, without a message or
        an ignored party, are funded in order and the funded ones queued. */
    method ExecuteSlowFillsUnderRelay(
      hub: HubPoolView, spoke: SpokePoolView, relay: RootBundleRelay, leaves: seq<SlowFillLeaf>, allocator: BalanceAllocator,
      lookbackInvalid: BundleBlockRanges -> bool, getRefund: (int, int) -> int, submitExecution: bool)
      requires MatchingSlowBundle(hub, relay).Some?
      requires !lookbackInvalid(hub.impliedBundleBlockRanges(MatchingSlowBundle(hub, relay).value))
      modifies this, allocator
      ensures
        var executable := ExecutableSlowFillLeaves(UnexecutedSlowFillLeaves(leaves, spoke.chainId, spoke.fills), ignoredAddresses);
        var f := FundSlowFillLeaves(allocator.balances, old(allocator.used), executable, spoke.fills, getRefund, spoke.spokePoolAddress);
        && allocator.used == f.1
        && queue == old(queue) + (if submitExecution then SlowInstructions(f.0, spoke.chainId, relay.rootBundleId, relay.slowRelayRoot, hub.chainId) else [])
      ensures Extends(old(queue), queue)
      ensures forall i :: |old(queue)| <= i < |queue| ==>
        SlowExecutionUnder(hub, lookbackInvalid, ignoredAddresses, getRefund, spoke, relay, queue[i])
      ensures !submitExecution ==> queue == old(queue)
      ensures Solvent(allocator.balances, old(allocator.used)) ==> Solvent(allocator.balances, allocator.used)
      ensures rootCache == old(rootCache)
    {
      var unexecuted := UnexecutedSlowFillLeaves(leaves, spoke.chainId, spoke.fills);
      if |unexecuted| == 0 {
        assert ExecutableSlowFillLeaves(unexecuted, ignoredAddresses) == [];
        assert old(queue) + [] == queue;
        return;
      }
      ghost var executable := ExecutableSlowFillLeaves(unexecuted, ignoredAddresses);
      assert SlowFillLeavesOnChain(executable, spoke.chainId) by {
        forall i | 0 <= i < |executable| ensures executable[i].LeafChainId() == spoke.chainId {
          assert executable[i] in executable;
        }
      }
      ghost var before := allocator.used;
      ghost var q0 := queue;
      var batch := ExecuteSlowFillLeafBatch(unexecuted, allocator, spoke, hub.chainId, relay.slowRelayRoot, submitExecution, relay.rootBundleId, getRefund);
      ghost var f := FundSlowFillLeaves(allocator.balances, before, executable, spoke.fills, getRefund, spoke.spokePoolAddress);
      if Solvent(allocator.balances, before) {
        FundSlowFillLeavesKeepsSolvency(allocator.balances, before, executable, spoke.fills, getRefund, spoke.spokePoolAddress);
      }
      assert allocator.used == f.1;
      assert queue == q0 + (if submitExecution then SlowInstructions(f.0, spoke.chainId, relay.rootBundleId, relay.slowRelayRoot, hub.chainId) else []);
      if submitExecution {
        forall l | l in f.0
          ensures && l.LeafChainId() == spoke.chainId && !SlowFillExecuted(spoke.fills, l)
                  && IsMessageEmpty(l.Message()) && l.Depositor() !in ignoredAddresses && l.Recipient() !in ignoredAddresses
                  && SlowFillNeed(l, spoke.fills, getRefund) != 0
        {
          assert l in executable;
          assert l in unexecuted;
        }
        SlowInstructionsUnderRelay(hub, lookbackInvalid, ignoredAddresses, getRefund, spoke, relay, f.0, q0);
      }
    }

    /** The relayed slow relay roots of one spoke, oldest first; the first
        throw ends the run. */
    method ExecuteSlowRelaysOnSpoke(
      hub: HubPoolView, spoke: SpokePoolView, latest: seq<ProposedRootBundle>, allocator: BalanceAllocator,
      lookbackInvalid: BundleBlockRanges -> bool, getRefund: (int, int) -> int, submitExecution: bool)
      returns (r: Outcome<()>)
      modifies this, allocator
      ensures
        var run := SlowRelaysRun(hub, spoke, SlowRelays(spoke, latest), getRefund, allocator.balances, old(allocator.used), old(rootCache),
                                 History(lookbackInvalid, submitExecution));
        r == run.outcome && queue == old(queue) + run.added && allocator.used == run.used && rootCache == run.cache
    {
      var relays := SlowRelays(spoke, latest);
      ghost var step := SlowRelayStep(hub, spoke, getRefund, allocator.balances, History(lookbackInvalid, submitExecution));
      ghost var used0, cache0 := allocator.used, rootCache;
      ghost var total := RunInTurn(step, relays, used0, cache0);
      ghost var cur := HistoryRun(Ok(()), [], used0, cache0);
      assert relays[0..] == relays;
      r := Ok(());
      var k := 0;
      while k < |relays|
        invariant 0 <= k <= |relays| && r == Ok(()) && cur.outcome == Ok(())
        invariant allocator.used == cur.used && rootCache == cur.cache && queue == old(queue) + cur.added
        invariant total == Resume(step, cur, relays[k..])
      {
        ResumeStep(step, cur, relays, k);
        ghost var next := step(relays[k], cur.used, cur.cache);
        AppendTwice(old(queue), cur.added, next.added);
        cur := HistoryRun(next.outcome, cur.added + next.added, next.used, next.cache);
        var res := ExecuteSlowRelay(hub, spoke, relays[k], allocator, lookbackInvalid, getRefund, submitExecution);
        k := k + 1;
        if res.Throw? {
          r := res;
          break;
        }
        NoThrowIsOk(res);
      }
      ResumeEnds(step, cur, relays[k..]);
      assert total == cur;
    }

    /** `executeSlowRelayLeaves`: every spoke's relayed slow relay roots of the
        latest validated bundles. Everything queued executes a slow fill whose
        deposit has no slow fill yet, paying out on the spoke's own chain, under
        a relayed root whose rebuilt tree matched. */
    method ExecuteSlowRelayLeaves(
      env: ExecutionEnv, allocator: BalanceAllocator, lookbackInvalid: BundleBlockRanges -> bool, submitExecution: bool)
      returns (r: Outcome<()>)
      modifies this, allocator
      ensures
        var run := SlowSpokesRun(env.hub, env.spokes, LatestRootBundles(env.hub.validatedRootBundles, spokeRootsLookbackCount),
                                 env.getRefund, allocator.balances, old(allocator.used), old(rootCache), History(lookbackInvalid, submitExecution));
        r == run.outcome && queue == old(queue) + run.added && allocator.used == run.used && rootCache == run.cache
      ensures Extends(old(queue), queue)
      ensures forall i :: |old(queue)| <= i < |queue| ==>
        SlowExecutionOk(env.hub, lookbackInvalid, ignoredAddresses, env.getRefund, env.spokes,
                        LatestRootBundles(env.hub.validatedRootBundles, spokeRootsLookbackCount), queue[i])
      ensures !submitExecution ==> queue == old(queue)
      ensures Solvent(allocator.balances, old(allocator.used)) ==> Solvent(allocator.balances, allocator.used)
    {
      var latest := LatestRootBundles(env.hub.validatedRootBundles, spokeRootsLookbackCount);
      ghost var cfg := History(lookbackInvalid, submitExecution);
      ghost var step := SlowSpokeStep(env.hub, latest, env.getRefund, allocator.balances, cfg);
      ghost var used0, cache0 := allocator.used, rootCache;
      ghost var total := RunInTurn(step, env.spokes, used0, cache0);
      ghost var cur := HistoryRun(Ok(()), [], used0, cache0);
      assert env.spokes[0..] == env.spokes;
      r := Ok(());
      var k := 0;
      while k < |env.spokes|
        invariant 0 <= k <= |env.spokes| && r == Ok(()) && cur.outcome == Ok(())
        invariant allocator.used == cur.used && rootCache == cur.cache && queue == old(queue) + cur.added
        invariant total == Resume(step, cur, env.spokes[k..])
      {
        ResumeStep(step, cur, env.spokes, k);
        ghost var next := step(env.spokes[k], cur.used, cur.cache);
        AppendTwice(old(queue), cur.added, next.added);
        cur := HistoryRun(next.outcome, cur.added + next.added, next.used, next.cache);
        var res := ExecuteSlowRelaysOnSpoke(env.hub, env.spokes[k], latest, allocator, lookbackInvalid, env.getRefund, submitExecution);
        k := k + 1;
        if res.Throw? {
          r := res;
          break;
        }
        NoThrowIsOk(res);
      }
      ResumeEnds(step, cur, env.spokes[k..]);
      assert total == cur;
      SlowSpokesRunSound(env.hub, env.spokes, latest, env.getRefund, allocator.balances, used0, cache0, cfg);
      AppendedInstructions(old(queue), cur.added, queue);
    }

    // ---- the pool rebalance executor ----

    /** The hub chain's own pool rebalance leaves, then the bundle's hub-chain
        slow fills and refunds under the hub spoke pool's latest root bundle id
        (the roots the home leaves relay land under that id). */
    method ExecuteHomeChainLeaves(
      env: ExecutionEnv, allocator: BalanceAllocator, mainnetLeaves: seq<PoolRebalanceLeaf>,
      ghost unexecuted: seq<PoolRebalanceLeaf>, trees: RootBundleData, submitExecution: bool)
      requires SpokeFor(env.spokes, env.hub.chainId).Some?
      requires forall l :: l in mainnetLeaves ==> l in unexecuted && l.chainId == env.hub.chainId
      modifies this, allocator
      ensures
        var run := HomeChainRun(env, allocator.balances, old(allocator.used), mainnetLeaves, trees, ignoredAddresses, submitExecution);
        queue == old(queue) + run.0 && allocator.used == run.1
      ensures Extends(old(queue), queue)
      ensures PoolPhaseSegment(queue[|old(queue)|..], env.hub.chainId, unexecuted, trees,
                               SpokeFor(env.spokes, env.hub.chainId).value.latestRootBundleId, 0, 2)
      ensures !submitExecution ==> queue == old(queue)
      ensures Solvent(allocator.balances, old(allocator.used)) ==> Solvent(allocator.balances, allocator.used)
      ensures rootCache == old(rootCache)
    {
      var hubChainId := env.hub.chainId;
      var cfg := PoolConfig(env);
      var hubSpoke := SpokeFor(env.spokes, hubChainId).value;
      var nextRootBundleId := hubSpoke.latestRootBundleId;
      ghost var u0 := allocator.used;
      ghost var q0 := queue;

      var funded := ExecutePoolRebalanceLeafBatch(mainnetLeaves, allocator, cfg, trees.poolRebalanceRoot, submitExecution);
      ghost var poolPart := if submitExecution then PoolInstructions(funded, cfg, trees.poolRebalanceRoot) else [];
      ghost var u1 := allocator.used;
      ghost var q1 := queue;
      assert q1 == q0 + poolPart;
      PoolLeavesSegment(funded, cfg, unexecuted, trees, nextRootBundleId, true);

      var slowLeaves := SlowFillLeavesForChain(trees.slowFillLeaves, hubChainId);
      ghost var executable := ExecutableSlowFillLeaves(slowLeaves, ignoredAddresses);
      assert SlowFillLeavesOnChain(executable, hubSpoke.chainId) by {
        forall i | 0 <= i < |executable| ensures executable[i].LeafChainId() == hubSpoke.chainId {
          assert executable[i] in executable;
        }
      }
      var slow := ExecuteSlowFillLeafBatch(slowLeaves, allocator, hubSpoke, hubChainId, trees.slowRelayRoot, submitExecution,
                                           nextRootBundleId, env.getRefund);
      ghost var fs := FundSlowFillLeaves(allocator.balances, u1, executable, hubSpoke.fills, env.getRefund, hubSpoke.spokePoolAddress);
      ghost var slowPart := if submitExecution then SlowInstructions(fs.0, hubChainId, nextRootBundleId, trees.slowRelayRoot, hubChainId) else [];
      ghost var u2 := allocator.used;
      ghost var q2 := queue;
      assert q2 == q1 + slowPart;
      SlowLeavesSegment(fs.0, hubChainId, unexecuted, trees, nextRootBundleId);

      var refundLeaves := RefundLeavesForChain(trees.relayerRefundLeaves, hubChainId);
      assert RefundLeavesOnChain(refundLeaves, hubSpoke.chainId) by {
        forall i | 0 <= i < |refundLeaves| ensures refundLeaves[i].chainId == hubSpoke.chainId {
          assert refundLeaves[i] in refundLeaves;
        }
      }
      var refunds := ExecuteRelayerRefundLeafBatch(refundLeaves, allocator, hubSpoke, env.hub, trees.relayerRefundRoot, submitExecution,
                                                   nextRootBundleId);
      ghost var fr := FundRefundLeaves(allocator.balances, u2, refundLeaves, hubSpoke.spokePoolAddress, hubChainId, env.hub.hubPoolAddress);
      ghost var refundPart := if submitExecution then RefundInstructions(fr.0, hubChainId, nextRootBundleId, trees.relayerRefundRoot, hubChainId) else [];
      ghost var q3 := queue;
      assert q3 == q2 + refundPart;
      RefundLeavesSegment(fr.0, hubChainId, unexecuted, trees, nextRootBundleId);

      if Solvent(allocator.balances, u0) {
        FundPoolLeavesKeepsSolvency(allocator.balances, u0, mainnetLeaves, cfg);
        FundSlowFillLeavesKeepsSolvency(allocator.balances, u1, executable, hubSpoke.fills, env.getRefund, hubSpoke.spokePoolAddress);
        FundRefundLeavesKeepsSolvency(allocator.balances, u2, refundLeaves, hubSpoke.spokePoolAddress, hubChainId, env.hub.hubPoolAddress);
      }
      PoolPhaseSegmentsConcat(poolPart, slowPart, hubChainId, unexecuted, trees, nextRootBundleId, 0, 0, 1, 1);
      PoolPhaseSegmentsConcat(poolPart + slowPart, refundPart, hubChainId, unexecuted, trees, nextRootBundleId, 0, 1, 2, 2);
      AppendedTail(q0, poolPart, slowPart, refundPart);
      AppendTwice(q0, poolPart, slowPart);
      AppendTwice(q0, poolPart + slowPart, refundPart);
      assert HomeChainRun(env, allocator.balances, u0, mainnetLeaves, trees, ignoredAddresses, submitExecution)
          == (poolPart + slowPart + refundPart, fr.1);
    }

    /** The unexecuted leaves of a validated bundle: when some are the hub
        chain's own, those first with the hub chain's slow fills and refunds;
        then the other chains' leaves. */
    method ExecuteUnexecutedPoolLeaves(
      env: ExecutionEnv, allocator: BalanceAllocator, unexecuted: seq<PoolRebalanceLeaf>, trees: RootBundleData, submitExecution: bool)
      requires SpokeFor(env.spokes, env.hub.chainId).Some?
      modifies this, allocator
      ensures
        var run := UnexecutedPoolRun(env, allocator.balances, old(allocator.used), unexecuted, trees, ignoredAddresses, submitExecution);
        queue == old(queue) + run.0 && allocator.used == run.1
      ensures Extends(old(queue), queue)
      ensures PoolPhaseSegment(queue[|old(queue)|..], env.hub.chainId, unexecuted, trees,
                               SpokeFor(env.spokes, env.hub.chainId).value.latestRootBundleId, 0, 3)
      ensures PoolLeavesForChain(unexecuted, env.hub.chainId) == [] ==> PhasesWithin(queue[|old(queue)|..], env.hub.chainId, 3, 3)
      ensures !submitExecution ==> queue == old(queue)
      ensures Solvent(allocator.balances, old(allocator.used)) ==> Solvent(allocator.balances, allocator.used)
      ensures rootCache == old(rootCache)
    {
      var hubChainId := env.hub.chainId;
      var mainnetLeaves := PoolLeavesForChain(unexecuted, hubChainId);
      ghost var q0 := queue;
      if |mainnetLeaves| > 0 {
        ExecuteHomeChainLeaves(env, allocator, mainnetLeaves, unexecuted, trees, submitExecution);
      } else {
        assert queue[|q0|..] == [];
      }
      ghost var q1 := queue;
      ExecuteOtherChainLeaves(env, allocator, PoolLeavesNotForChain(unexecuted, hubChainId), unexecuted, trees, submitExecution);
      ghost var home := if |mainnetLeaves| > 0
                        then HomeChainRun(env, allocator.balances, old(allocator.used), mainnetLeaves, trees, ignoredAddresses, submitExecution)
                        else ([], old(allocator.used));
      ghost var other := OtherChainRun(env, allocator.balances, home.1, PoolLeavesNotForChain(unexecuted, hubChainId), trees, submitExecution);
      AppendTwice(q0, home.0, other.0);
      assert UnexecutedPoolRun(env, allocator.balances, old(allocator.used), unexecuted, trees, ignoredAddresses, submitExecution)
          == (home.0 + other.0, other.1);
      HomeThenOtherChains(q0, q1, queue, hubChainId, unexecuted, trees, SpokeFor(env.spokes, hubChainId).value.latestRootBundleId);
    }

    /** The other chains' pool rebalance leaves, after anything for the hub chain. */
    method ExecuteOtherChainLeaves(
      env: ExecutionEnv, allocator: BalanceAllocator, remoteLeaves: seq<PoolRebalanceLeaf>,
      ghost unexecuted: seq<PoolRebalanceLeaf>, trees: RootBundleData, submitExecution: bool)
      requires SpokeFor(env.spokes, env.hub.chainId).Some?
      requires forall l :: l in remoteLeaves ==> l in unexecuted && l.chainId != env.hub.chainId
      modifies this, allocator
      ensures
        var run := OtherChainRun(env, allocator.balances, old(allocator.used), remoteLeaves, trees, submitExecution);
        queue == old(queue) + run.0 && allocator.used == run.1
      ensures Extends(old(queue), queue)
      ensures PoolPhaseSegment(queue[|old(queue)|..], env.hub.chainId, unexecuted, trees,
                               SpokeFor(env.spokes, env.hub.chainId).value.latestRootBundleId, 3, 3)
      ensures !submitExecution ==> queue == old(queue)
      ensures Solvent(allocator.balances, old(allocator.used)) ==> Solvent(allocator.balances, allocator.used)
      ensures rootCache == old(rootCache)
    {
      var cfg := PoolConfig(env);
      ghost var u0 := allocator.used;
      ghost var q0 := queue;
      var funded := ExecutePoolRebalanceLeafBatch(remoteLeaves, allocator, cfg, trees.poolRebalanceRoot, submitExecution);
      ghost var remotePart := if submitExecution then PoolInstructions(funded, cfg, trees.poolRebalanceRoot) else [];
      PoolLeavesSegment(funded, cfg, unexecuted, trees, SpokeFor(env.spokes, env.hub.chainId).value.latestRootBundleId, false);
      if Solvent(allocator.balances, u0) {
        FundPoolLeavesKeepsSolvency(allocator.balances, u0, remoteLeaves, cfg);
      }
      AppendedTail(q0, remotePart, [], []);
      assert remotePart + [] + [] == remotePart;
    }

    /** `executePoolRebalanceLeaves`: throws unless the hub pool client is
        updated and knows the time; with a pending bundle, validates it, and
        only for a valid one queues the exchange rate refreshes of its L1
        tokens; once its challenge period is over, executes its leaves that no
        execution event covers, in phase order: hub-chain pool rebalance
        leaves, hub-chain slow fills, hub-chain refunds, the other chains'
        pool rebalance leaves. */
    method ExecutePoolRebalanceLeaves(
      env: ExecutionEnv, allocator: BalanceAllocator, ctx: ValidationContext, widest: BundleBlockRanges,
      liquidReservesDelta: Address -> int, submitExecution: bool)
      returns (r: Outcome<PoolExecutionStep>)
      requires Fits(ctx, env.hub) && SpokeFor(env.spokes, env.hub.chainId).Some?
      modifies this, allocator
      ensures !env.hub.isUpdated || env.hub.currentTime.None? ==>
        r.Throw? && queue == old(queue) && allocator.used == old(allocator.used) && rootCache == old(rootCache)
      ensures env.hub.isUpdated && env.hub.currentTime.Some? && env.hub.pendingRootBundle.None? ==>
        r == Ok(NoPendingBundle) && queue == old(queue) && allocator.used == old(allocator.used) && rootCache == old(rootCache)
      ensures env.hub.isUpdated && env.hub.currentTime.Some? && env.hub.pendingRootBundle.Some? ==>
        var hub := env.hub;
        var pending := hub.pendingRootBundle.value;
        var rebuild := ValidationRebuild(old(rootCache), builders, disableRootCache, ctx, pending, widest);
        var v := Validation.ValidateRootBundle(ctx, pending, widest, rebuild.0);
        && rootCache == rebuild.1
        && (v.Throw? ==> r.Throw? && queue == old(queue) && allocator.used == old(allocator.used))
        && (v.Ok? && !v.value.valid ==> r == Ok(InvalidBundle) && queue == old(queue) && allocator.used == old(allocator.used))
        && (v.Ok? && v.value.valid ==>
              var trees := rebuild.0;
              var rates := old(queue) + RateCalls(hub, liquidReservesDelta, Funding.L1TokensInBundle(trees.poolRebalanceLeaves), submitExecution);
              var unexecuted := UnexecutedPoolRebalanceLeaves(trees.poolRebalanceLeaves,
                                                              hub.executedLeaves(hub.latestProposedRootBundle, hub.latestBlockSearched));
              var nextRootBundleId := SpokeFor(env.spokes, hub.chainId).value.latestRootBundleId;
              && Extends(rates, queue)
              && (hub.currentTime.value <= pending.challengePeriodEndTimestamp ==>
                    r == Ok(ChallengePeriodOpen) && queue == rates && allocator.used == old(allocator.used))
              && (hub.currentTime.value > pending.challengePeriodEndTimestamp && |unexecuted| == 0 ==>
                    r == Ok(AllLeavesExecuted) && queue == rates && allocator.used == old(allocator.used))
              && (hub.currentTime.value > pending.challengePeriodEndTimestamp && |unexecuted| > 0 ==>
                    && r == Ok(Executed)
                    && (var run := UnexecutedPoolRun(env, allocator.balances, old(allocator.used), unexecuted, trees, ignoredAddresses, submitExecution);
                        queue == rates + run.0 && allocator.used == run.1)
                    && PoolPhaseSegment(queue[|rates|..], hub.chainId, unexecuted, trees, nextRootBundleId, 0, 3)
                    && (PoolLeavesForChain(unexecuted, hub.chainId) == [] ==> PhasesWithin(queue[|rates|..], hub.chainId, 3, 3))))
      ensures !submitExecution ==> queue == old(queue)
      ensures Solvent(allocator.balances, old(allocator.used)) ==> Solvent(allocator.balances, allocator.used)
    {
      var hub := env.hub;
      if !hub.isUpdated || hub.currentTime.None? {
        return Throw("HubPoolClient not updated");
      }
      if hub.pendingRootBundle.None? {
        return Ok(NoPendingBundle);
      }
      var pending := hub.pendingRootBundle.value;
      var v := ValidateRootBundle(ctx, pending, widest);
      if v.Throw? {
        return Throw(v.message);
      }
      if !v.value.valid {
        return Ok(InvalidBundle);
      }
      var trees := v.value.expectedTrees.value;
      var l1Tokens := L1TokensInBundle(trees.poolRebalanceLeaves);
      UpdateExchangeRates(l1Tokens, hub, liquidReservesDelta, submitExecution);
      ghost var rates := queue;
      if hub.currentTime.value <= pending.challengePeriodEndTimestamp {
        return Ok(ChallengePeriodOpen);
      }
      var executed := hub.executedLeaves(hub.latestProposedRootBundle, hub.latestBlockSearched);
      var unexecuted := UnexecutedPoolRebalanceLeaves(trees.poolRebalanceLeaves, executed);
      if |unexecuted| == 0 {
        return Ok(AllLeavesExecuted);
      }
      ExecuteUnexecutedPoolLeaves(env, allocator, unexecuted, trees, submitExecution);
      r := Ok(Executed);
    }
  }

  /** The inner step of the L1 token reduce: each token of `l1Tokens` not yet
      collected is appended. */
  method AppendNewTokens(tokens: seq<Address>, ghost seen: seq<Address>, l1Tokens: seq<Address>) returns (r: seq<Address>)
    requires tokens == Dedup(seen)
    ensures r == Dedup(seen + l1Tokens)
  {
    r := tokens;
    var j := 0;
    ghost var acc := seen;
    assert seen + l1Tokens[..j] == seen;
    while j < |l1Tokens|
      invariant 0 <= j <= |l1Tokens|
      invariant acc == seen + l1Tokens[..j]
      invariant r == Dedup(acc)
    {
      var t := l1Tokens[j];
      DedupSnoc(acc, t);
      assert acc + [t] == seen + l1Tokens[..j + 1] by {
        assert l1Tokens[..j + 1] == l1Tokens[..j] + [t];
      }
      if t !in r {
        r := r + [t];
      }
      acc := acc + [t];
      j := j + 1;
    }
    assert l1Tokens[..j] == l1Tokens;
  }

  /** One pool rebalance leaf's turn at the allocator: its batch of requests,
      and on success the release of its home-chain sends. */
  method FundPoolRebalanceLeaf(leaf: PoolRebalanceLeaf, allocator: BalanceAllocator, cfg: PoolFundingConfig, ghost funded: seq<PoolRebalanceLeaf>)
    returns (success: bool)
    modifies allocator
    ensures PoolLeafStep(allocator.balances, (funded, old(allocator.used)), leaf, cfg)
         == (if success then funded + [leaf] else funded, allocator.used)
  {
    var reqs := PoolLeafRequests(leaf, cfg.hubChainId, cfg.hubPool, cfg.signer, cfg.isArbitrum(leaf.chainId), cfg.hubPoolEthBalance);
    success := allocator.RequestBalanceAllocations(reqs);
    if success && leaf.chainId == cfg.hubChainId {
      ReleaseHomeSendAmounts(leaf, allocator, cfg.hubSpokePool);
    }
  }

  /** The hub chain's own leaf sends its tokens from the hub pool to the
      hub chain's spoke pool: each positive amount is given back to that
      spoke pool's capacity. */
  method ReleaseHomeSendAmounts(leaf: PoolRebalanceLeaf, allocator: BalanceAllocator, spokePool: Address)
    modifies allocator
    ensures allocator.used == ReleaseHomeSends(old(allocator.used), leaf, |leaf.netSendAmounts|, spokePool)
  {
    var j := 0;
    while j < |leaf.netSendAmounts|
      invariant 0 <= j <= |leaf.netSendAmounts|
      invariant allocator.used == ReleaseHomeSends(old(allocator.used), leaf, j, spokePool)
    {
      if leaf.netSendAmounts[j] > 0 {
        allocator.AddUsed(Key(leaf.chainId, leaf.l1Tokens[j], spokePool), -leaf.netSendAmounts[j]);
      }
      j := j + 1;
    }
  }

  /** One refund leaf's turn at the allocator. */
  method FundRelayerRefundLeaf(
    leaf: RelayerRefundLeaf, allocator: BalanceAllocator, spokePool: Address, hubChainId: ChainId, hubPool: Address,
    ghost funded: seq<RelayerRefundLeaf>)
    returns (success: bool)
    modifies allocator
    ensures RefundLeafStep(allocator.balances, (funded, old(allocator.used)), leaf, spokePool, hubChainId, hubPool)
         == (if success then funded + [leaf] else funded, allocator.used)
  {
    success := allocator.RequestBalanceAllocation(Key(leaf.chainId, leaf.l2TokenAddress, spokePool), RefundReservation(leaf));
    if success && leaf.chainId == hubChainId && leaf.amountToReturn > 0 {
      allocator.AddUsed(Key(leaf.chainId, leaf.l2TokenAddress, hubPool), -leaf.amountToReturn);
    }
  }

  /** One slow fill leaf's turn at the allocator: nothing is requested when
      the leaf needs nothing. */
  method FundSlowFillLeaf(
    leaf: SlowFillLeaf, allocator: BalanceAllocator, fills: seq<Fill>, getRefund: (int, int) -> int, spokePool: Address,
    ghost funded: seq<SlowFillLeaf>)
    returns (success: bool)
    modifies allocator
    ensures SlowLeafStep(allocator.balances, (funded, old(allocator.used)), leaf, fills, getRefund, spokePool)
         == (if success then funded + [leaf] else funded, allocator.used)
  {
    var amountRequired := SlowFillAmountRequired(leaf, LatestFill(fills, leaf), getRefund);
    if amountRequired == 0 {
      return false;
    }
    success := allocator.RequestBalanceAllocation(Key(leaf.LeafChainId(), leaf.OutputToken(), spokePool), amountRequired);
  }
}
