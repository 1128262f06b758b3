/** What executing a batch of leaves does, leaf by leaf in order: which leaves
    the allocator funds, how the ledger changes, and which transactions are
    queued for the funded ones. */
module Execution {
  import opened Types
  import opened Seqs
  import opened Selection
  import opened Funding
  import opened Allocation

  /** `spokePoolClients[chainId]`: the spoke client of a chain, if there is one. */
  function SpokeFor(spokes: seq<SpokePoolView>, chainId: ChainId): (r: Option<SpokePoolView>)
    ensures r.Some? ==> r.value in spokes && r.value.chainId == chainId
    ensures r.None? <==> forall i :: 0 <= i < |spokes| ==> spokes[i].chainId != chainId
  {
    var r := Find(spokes, (s: SpokePoolView) => s.chainId == chainId);
    r
  }

  /** What the pool rebalance executor needs besides the leaves. */
  datatype PoolFundingConfig = PoolFundingConfig(
    hubChainId: ChainId,
    hubPool: Address,
    signer: Address,
    hubSpokePool: Address,
    isArbitrum: ChainId -> bool,
    hubPoolEthBalance: int)

  /** The ETH a leaf's L1 to L2 messages still need, when it goes to Arbitrum
      and the hub pool holds less than that. */
  predicate NeedsEthLoad(leaf: PoolRebalanceLeaf, cfg: PoolFundingConfig) {
    cfg.isArbitrum(leaf.chainId) && cfg.hubPoolEthBalance < RequiredEthForArbitrumLeaf(leaf)
  }

  /** After a home-chain pool rebalance leaf is funded, its positive sends
      count as capacity of the hub chain's spoke pool (the transfer is atomic),
      applied for the first `n` tokens. */
  function ReleaseHomeSends(used: Ledger, leaf: PoolRebalanceLeaf, n: nat, spokePool: Address): (r: Ledger)
    requires n <= |leaf.netSendAmounts|
    decreases n
  {
    if n == 0 then used
    else
      var u := ReleaseHomeSends(used, leaf, n - 1, spokePool);
      var amount := leaf.netSendAmounts[n - 1];
      var k := Key(leaf.chainId, leaf.l1Tokens[n - 1], spokePool);
      if amount > 0 then u[k := UsedOf(u, k) - amount] else u
  }

  lemma {:induction false} ReleaseHomeSendsKeepsSolvency(balances: map<Key, nat>, used: Ledger, leaf: PoolRebalanceLeaf, n: nat, spokePool: Address)
    requires n <= |leaf.netSendAmounts|
    requires Solvent(balances, used)
    ensures Solvent(balances, ReleaseHomeSends(used, leaf, n, spokePool))
  {
    if n > 0 {
      ReleaseHomeSendsKeepsSolvency(balances, used, leaf, n - 1, spokePool);
      var u := ReleaseHomeSends(used, leaf, n - 1, spokePool);
      var amount := leaf.netSendAmounts[n - 1];
      if amount > 0 {
        ReleaseKeepsSolvency(balances, u, Key(leaf.chainId, leaf.l1Tokens[n - 1], spokePool), -amount);
      }
    }
  }

  /** One pool rebalance leaf's turn: request its batch, and on success
      release its home-chain sends. */
  function PoolLeafStep(balances: map<Key, nat>, st: (seq<PoolRebalanceLeaf>, Ledger), leaf: PoolRebalanceLeaf, cfg: PoolFundingConfig)
    : (r: (seq<PoolRebalanceLeaf>, Ledger))
  {
    var reqs := PoolLeafRequests(leaf, cfg.hubChainId, cfg.hubPool, cfg.signer, cfg.isArbitrum(leaf.chainId), cfg.hubPoolEthBalance);
    if Admits(balances, st.1, reqs) then
      var reserved := Reserve(st.1, reqs);
      (st.0 + [leaf],
       if leaf.chainId == cfg.hubChainId then ReleaseHomeSends(reserved, leaf, |leaf.netSendAmounts|, cfg.hubSpokePool) else reserved)
    else st
  }

  /** The funded pool rebalance leaves, in order, and the ledger afterwards. */
  function FundPoolLeaves(balances: map<Key, nat>, used: Ledger, leaves: seq<PoolRebalanceLeaf>, cfg: PoolFundingConfig)
    : (r: (seq<PoolRebalanceLeaf>, Ledger))
    ensures |r.0| <= |leaves|
    ensures forall l :: l in r.0 ==> l in leaves
    decreases |leaves|
  {
    if leaves == [] then ([], used)
    else
      var init := leaves[..|leaves| - 1];
      var prev := FundPoolLeaves(balances, used, init, cfg);
      assert forall l :: l in init ==> l in leaves;
      PoolLeafStep(balances, prev, leaves[|leaves| - 1], cfg)
  }

  /** Funding pool rebalance leaves never promises more than a balance. */
  lemma {:induction false} FundPoolLeavesKeepsSolvency(balances: map<Key, nat>, used: Ledger, leaves: seq<PoolRebalanceLeaf>, cfg: PoolFundingConfig)
    requires Solvent(balances, used)
    ensures Solvent(balances, FundPoolLeaves(balances, used, leaves, cfg).1)
    decreases |leaves|
  {
    if leaves != [] {
      var init := leaves[..|leaves| - 1];
      FundPoolLeavesKeepsSolvency(balances, used, init, cfg);
      var prev := FundPoolLeaves(balances, used, init, cfg);
      var leaf := leaves[|leaves| - 1];
      var reqs := PoolLeafRequests(leaf, cfg.hubChainId, cfg.hubPool, cfg.signer, cfg.isArbitrum(leaf.chainId), cfg.hubPoolEthBalance);
      if Admits(balances, prev.1, reqs) {
        AdmittedBatchKeepsSolvency(balances, prev.1, reqs);
        ReleaseHomeSendsKeepsSolvency(balances, Reserve(prev.1, reqs), leaf, |leaf.netSendAmounts|, cfg.hubSpokePool);
      }
    }
  }

  /** The transactions for one funded pool rebalance leaf: load ETH first when
      its messages need it, then `executeRootBundle`, which may fail in
      simulation unless the leaf is for the hub chain. */
  function PoolLeafInstructions(leaf: PoolRebalanceLeaf, cfg: PoolFundingConfig, root: Root): seq<Instruction> {
    (if NeedsEthLoad(leaf, cfg) then [LoadEthForL2Calls(cfg.hubChainId, RequiredEthForArbitrumLeaf(leaf))] else [])
    + [ExecuteRootBundle(cfg.hubChainId, leaf, root, leaf.chainId != cfg.hubChainId)]
  }

  /** Every instruction either loads ETH on the hub chain or executes one of
      the funded leaves. */
  ghost predicate PoolInstructionsFor(q: seq<Instruction>, funded: seq<PoolRebalanceLeaf>, cfg: PoolFundingConfig, root: Root) {
    forall i :: 0 <= i < |q| ==>
      (q[i].LoadEthForL2Calls? && q[i].chainId == cfg.hubChainId)
      || (&& q[i].ExecuteRootBundle? && q[i].chainId == cfg.hubChainId && q[i].poolLeaf in funded && q[i].root == root
          && q[i].canFailInSimulation == (q[i].poolLeaf.chainId != cfg.hubChainId))
  }

  /** The transactions for all funded pool rebalance leaves, in order. */
  function PoolInstructions(funded: seq<PoolRebalanceLeaf>, cfg: PoolFundingConfig, root: Root): (q: seq<Instruction>)
    ensures PoolInstructionsFor(q, funded, cfg, root)
    ensures |q| >= |funded|
    decreases |funded|
  {
    if funded == [] then []
    else
      var init := funded[..|funded| - 1];
      var prev := PoolInstructions(init, cfg, root);
      assert forall l :: l in init ==> l in funded;
      prev + PoolLeafInstructions(funded[|funded| - 1], cfg, root)
  }

  /** One refund leaf's turn: reserve its refunds and positive amount to
      return on the spoke pool; on success, a hub-chain leaf's amount to return
      counts as the hub pool's. */
  function RefundLeafStep(
    balances: map<Key, nat>, st: (seq<RelayerRefundLeaf>, Ledger), leaf: RelayerRefundLeaf,
    spokePool: Address, hubChainId: ChainId, hubPool: Address): (r: (seq<RelayerRefundLeaf>, Ledger))
  {
    var reqs := [Request(Key(leaf.chainId, leaf.l2TokenAddress, spokePool), RefundReservation(leaf))];
    if Admits(balances, st.1, reqs) then
      var reserved := Reserve(st.1, reqs);
      var k := Key(leaf.chainId, leaf.l2TokenAddress, hubPool);
      (st.0 + [leaf],
       if leaf.chainId == hubChainId && leaf.amountToReturn > 0 then reserved[k := UsedOf(reserved, k) - leaf.amountToReturn] else reserved)
    else st
  }

  /** The funded refund leaves, in order, and the ledger afterwards. */
  function FundRefundLeaves(
    balances: map<Key, nat>, used: Ledger, leaves: seq<RelayerRefundLeaf>,
    spokePool: Address, hubChainId: ChainId, hubPool: Address): (r: (seq<RelayerRefundLeaf>, Ledger))
    ensures |r.0| <= |leaves|
    ensures forall l :: l in r.0 ==> l in leaves
    decreases |leaves|
  {
    if leaves == [] then ([], used)
    else
      var init := leaves[..|leaves| - 1];
      var prev := FundRefundLeaves(balances, used, init, spokePool, hubChainId, hubPool);
      assert forall l :: l in init ==> l in leaves;
      RefundLeafStep(balances, prev, leaves[|leaves| - 1], spokePool, hubChainId, hubPool)
  }

  /** Funding refund leaves never promises more than a balance. */
  lemma {:induction false} FundRefundLeavesKeepsSolvency(
    balances: map<Key, nat>, used: Ledger, leaves: seq<RelayerRefundLeaf>,
    spokePool: Address, hubChainId: ChainId, hubPool: Address)
    requires Solvent(balances, used)
    ensures Solvent(balances, FundRefundLeaves(balances, used, leaves, spokePool, hubChainId, hubPool).1)
    decreases |leaves|
  {
    if leaves != [] {
      var init := leaves[..|leaves| - 1];
      FundRefundLeavesKeepsSolvency(balances, used, init, spokePool, hubChainId, hubPool);
      var prev := FundRefundLeaves(balances, used, init, spokePool, hubChainId, hubPool);
      var leaf := leaves[|leaves| - 1];
      var reqs := [Request(Key(leaf.chainId, leaf.l2TokenAddress, spokePool), RefundReservation(leaf))];
      if Admits(balances, prev.1, reqs) {
        AdmittedBatchKeepsSolvency(balances, prev.1, reqs);
        if leaf.chainId == hubChainId && leaf.amountToReturn > 0 {
          ReleaseKeepsSolvency(balances, Reserve(prev.1, reqs), Key(leaf.chainId, leaf.l2TokenAddress, hubPool), -leaf.amountToReturn);
        }
      }
    }
  }

  /** `executeRelayerRefundLeaf` for each funded leaf: batched through
      Multicall3 exactly on chain 1, and allowed to fail in simulation on the
      hub chain. */
  function RefundInstructions(
    funded: seq<RelayerRefundLeaf>, chainId: ChainId, rootBundleId: int, root: Root, hubChainId: ChainId): (q: seq<Instruction>)
    ensures |q| == |funded|
    ensures forall i :: 0 <= i < |q| ==>
      q[i] == ExecuteRelayerRefundLeaf(chainId, rootBundleId, funded[i], root, chainId == 1, funded[i].chainId == hubChainId)
  {
    seq(|funded|, i requires 0 <= i < |funded| =>
      ExecuteRelayerRefundLeaf(chainId, rootBundleId, funded[i], root, chainId == 1, funded[i].chainId == hubChainId))
  }

  /** The amount a slow fill leaf needs, from the latest matching fill on its spoke. */
  function SlowFillNeed(leaf: SlowFillLeaf, fills: seq<Fill>, getRefund: (int, int) -> int): int {
    SlowFillAmountRequired(leaf, LatestFill(fills, leaf), getRefund)
  }

  /** One slow fill leaf's turn: nothing when it needs nothing, else a
      reservation of the output token on its spoke pool. */
  function SlowLeafStep(
    balances: map<Key, nat>, st: (seq<SlowFillLeaf>, Ledger), leaf: SlowFillLeaf,
    fills: seq<Fill>, getRefund: (int, int) -> int, spokePool: Address): (r: (seq<SlowFillLeaf>, Ledger))
  {
    var amount := SlowFillNeed(leaf, fills, getRefund);
    var reqs := [Request(Key(leaf.LeafChainId(), leaf.OutputToken(), spokePool), amount)];
    if amount == 0 then st
    else if Admits(balances, st.1, reqs) then (st.0 + [leaf], Reserve(st.1, reqs))
    else st
  }

  /** The funded slow fill leaves, in order, and the ledger afterwards; a leaf
      that needs nothing is never funded. */
  function FundSlowFillLeaves(
    balances: map<Key, nat>, used: Ledger, leaves: seq<SlowFillLeaf>,
    fills: seq<Fill>, getRefund: (int, int) -> int, spokePool: Address): (r: (seq<SlowFillLeaf>, Ledger))
    ensures |r.0| <= |leaves|
    ensures forall l :: l in r.0 ==> l in leaves && SlowFillNeed(l, fills, getRefund) != 0
    decreases |leaves|
  {
    if leaves == [] then ([], used)
    else
      var init := leaves[..|leaves| - 1];
      var prev := FundSlowFillLeaves(balances, used, init, fills, getRefund, spokePool);
      assert forall l :: l in init ==> l in leaves;
      SlowLeafStep(balances, prev, leaves[|leaves| - 1], fills, getRefund, spokePool)
  }

  /** Funding slow fill leaves never promises more than a balance. */
  lemma {:induction false} FundSlowFillLeavesKeepsSolvency(
    balances: map<Key, nat>, used: Ledger, leaves: seq<SlowFillLeaf>,
    fills: seq<Fill>, getRefund: (int, int) -> int, spokePool: Address)
    requires Solvent(balances, used)
    ensures Solvent(balances, FundSlowFillLeaves(balances, used, leaves, fills, getRefund, spokePool).1)
    decreases |leaves|
  {
    if leaves != [] {
      var init := leaves[..|leaves| - 1];
      FundSlowFillLeavesKeepsSolvency(balances, used, init, fills, getRefund, spokePool);
      var prev := FundSlowFillLeaves(balances, used, init, fills, getRefund, spokePool);
      var leaf := leaves[|leaves| - 1];
      var reqs := [Request(Key(leaf.LeafChainId(), leaf.OutputToken(), spokePool), SlowFillNeed(leaf, fills, getRefund))];
      if Admits(balances, prev.1, reqs) {
        AdmittedBatchKeepsSolvency(balances, prev.1, reqs);
      }
    }
  }

  /** A V3 slow fill leaf whose deposit already has a matching fill is skipped
      and reserves nothing. */
  lemma {:induction false} FilledV3SlowFillIsSkipped(
    balances: map<Key, nat>, used: Ledger, leaf: SlowFillLeaf,
    fills: seq<Fill>, getRefund: (int, int) -> int, spokePool: Address)
    requires leaf.V3SlowFillLeaf?
    requires exists i :: 0 <= i < |fills| && FillMatchesSlowFill(fills[i], leaf)
    ensures FundSlowFillLeaves(balances, used, [leaf], fills, getRefund, spokePool) == ([], used)
  {
    assert [leaf][..0] == [];
    assert LatestFill(fills, leaf).Some?;
  }

  /** `executeSlowRelayLeaf` or `executeV3SlowRelayLeaf` for each funded leaf:
      batched and allowed to fail in simulation on the hub chain. */
  function SlowInstructions(
    funded: seq<SlowFillLeaf>, chainId: ChainId, rootBundleId: int, root: Root, hubChainId: ChainId): (q: seq<Instruction>)
    ensures |q| == |funded|
    ensures forall i :: 0 <= i < |q| ==>
      q[i] == ExecuteSlowRelayLeaf(chainId, rootBundleId, funded[i], root, chainId == hubChainId, chainId == hubChainId)
  {
    seq(|funded|, i requires 0 <= i < |funded| =>
      ExecuteSlowRelayLeaf(chainId, rootBundleId, funded[i], root, chainId == hubChainId, chainId == hubChainId))
  }
  /** The pool rebalance leaves for one chain, in order. */
  function PoolLeavesForChain(leaves: seq<PoolRebalanceLeaf>, chainId: ChainId): (r: seq<PoolRebalanceLeaf>)
    ensures forall l :: l in r <==> l in leaves && l.chainId == chainId
  {
    Filter(leaves, (l: PoolRebalanceLeaf) => l.chainId == chainId)
  }

  /** The pool rebalance leaves for every other chain, in order. */
  function PoolLeavesNotForChain(leaves: seq<PoolRebalanceLeaf>, chainId: ChainId): (r: seq<PoolRebalanceLeaf>)
    ensures forall l :: l in r <==> l in leaves && l.chainId != chainId
  {
    Filter(leaves, (l: PoolRebalanceLeaf) => l.chainId != chainId)
  }

  /** The relayer refund leaves for one chain, in order. */
  function RefundLeavesForChain(leaves: seq<RelayerRefundLeaf>, chainId: ChainId): (r: seq<RelayerRefundLeaf>)
    ensures forall l :: l in r <==> l in leaves && l.chainId == chainId
  {
    Filter(leaves, (l: RelayerRefundLeaf) => l.chainId == chainId)
  }

  /** The slow fill leaves paying out on one chain, in order. */
  function SlowFillLeavesForChain(leaves: seq<SlowFillLeaf>, chainId: ChainId): (r: seq<SlowFillLeaf>)
    ensures forall l :: l in r <==> l in leaves && l.LeafChainId() == chainId
  {
    Filter(leaves, (l: SlowFillLeaf) => l.LeafChainId() == chainId)
  }

  /** Every refund leaf of a batch is for the executing spoke's chain. */
  predicate RefundLeavesOnChain(leaves: seq<RelayerRefundLeaf>, chainId: ChainId) {
    forall i :: 0 <= i < |leaves| ==> leaves[i].chainId == chainId
  }

  /** Every slow fill leaf of a batch pays out on the executing spoke's chain. */
  predicate SlowFillLeavesOnChain(leaves: seq<SlowFillLeaf>, chainId: ChainId) {
    forall i :: 0 <= i < |leaves| ==> leaves[i].LeafChainId() == chainId
  }
  lemma FundPoolLeavesPrefix(balances: map<Key, nat>, used: Ledger, leaves: seq<PoolRebalanceLeaf>, i: nat, cfg: PoolFundingConfig)
    requires i < |leaves|
    ensures FundPoolLeaves(balances, used, leaves[..i + 1], cfg)
         == PoolLeafStep(balances, FundPoolLeaves(balances, used, leaves[..i], cfg), leaves[i], cfg)
  {
    assert leaves[..i + 1][..i] == leaves[..i];
  }

  lemma PoolInstructionsPrefix(funded: seq<PoolRebalanceLeaf>, k: nat, cfg: PoolFundingConfig, root: Root)
    requires k < |funded|
    ensures PoolInstructions(funded[..k + 1], cfg, root) == PoolInstructions(funded[..k], cfg, root) + PoolLeafInstructions(funded[k], cfg, root)
  {
    assert funded[..k + 1][..k] == funded[..k];
  }

  lemma FundRefundLeavesPrefix(
    balances: map<Key, nat>, used: Ledger, leaves: seq<RelayerRefundLeaf>, i: nat,
    spokePool: Address, hubChainId: ChainId, hubPool: Address)
    requires i < |leaves|
    ensures FundRefundLeaves(balances, used, leaves[..i + 1], spokePool, hubChainId, hubPool)
         == RefundLeafStep(balances, FundRefundLeaves(balances, used, leaves[..i], spokePool, hubChainId, hubPool), leaves[i], spokePool, hubChainId, hubPool)
  {
    assert leaves[..i + 1][..i] == leaves[..i];
  }

  lemma FundSlowFillLeavesPrefix(
    balances: map<Key, nat>, used: Ledger, leaves: seq<SlowFillLeaf>, i: nat,
    fills: seq<Fill>, getRefund: (int, int) -> int, spokePool: Address)
    requires i < |leaves|
    ensures FundSlowFillLeaves(balances, used, leaves[..i + 1], fills, getRefund, spokePool)
         == SlowLeafStep(balances, FundSlowFillLeaves(balances, used, leaves[..i], fills, getRefund, spokePool), leaves[i], fills, getRefund, spokePool)
  {
    assert leaves[..i + 1][..i] == leaves[..i];
  }

  // The funded leaves are the leaves, in order, that the running ledger
  // admits, and the ledger moves only at the keys the leaves ask for.

  /** The ledger keys a pool rebalance leaf can change: its tokens held by the
      hub pool, the signer's ETH and, for a home-chain leaf, its tokens held by
      the hub chain's spoke pool. */
  predicate PoolLeafTouches(leaf: PoolRebalanceLeaf, cfg: PoolFundingConfig, k: Key) {
    || k == Key(cfg.hubChainId, ZeroAddress, cfg.signer)
    || (k.token in leaf.l1Tokens && k == Key(cfg.hubChainId, k.token, cfg.hubPool))
    || (leaf.chainId == cfg.hubChainId && k.token in leaf.l1Tokens && k == Key(cfg.hubChainId, k.token, cfg.hubSpokePool))
  }

  /** The ledger keys a refund leaf can change: its token on the spoke pool
      and, for a hub-chain leaf, the same token held by the hub pool. */
  predicate RefundLeafTouches(leaf: RelayerRefundLeaf, spokePool: Address, hubChainId: ChainId, hubPool: Address, k: Key) {
    || k == Key(leaf.chainId, leaf.l2TokenAddress, spokePool)
    || (leaf.chainId == hubChainId && k == Key(leaf.chainId, leaf.l2TokenAddress, hubPool))
  }

  /** The one ledger key a slow fill leaf can change: its output token on the spoke pool. */
  function SlowFillKey(leaf: SlowFillLeaf, spokePool: Address): Key {
    Key(leaf.LeafChainId(), leaf.OutputToken(), spokePool)
  }

  lemma {:induction false} ReleaseHomeSendsFrame(used: Ledger, leaf: PoolRebalanceLeaf, n: nat, spokePool: Address, k: Key)
    requires n <= |leaf.netSendAmounts|
    requires !(k.token in leaf.l1Tokens && k == Key(leaf.chainId, k.token, spokePool))
    ensures UsedOf(ReleaseHomeSends(used, leaf, n, spokePool), k) == UsedOf(used, k)
    decreases n
  {
    if n > 0 {
      ReleaseHomeSendsFrame(used, leaf, n - 1, spokePool, k);
      assert leaf.l1Tokens[n - 1] in leaf.l1Tokens;
    }
  }

  lemma {:induction false} PoolLeafStepFrame(balances: map<Key, nat>, st: (seq<PoolRebalanceLeaf>, Ledger), leaf: PoolRebalanceLeaf, cfg: PoolFundingConfig, k: Key)
    requires !PoolLeafTouches(leaf, cfg, k)
    ensures UsedOf(PoolLeafStep(balances, st, leaf, cfg).1, k) == UsedOf(st.1, k)
  {
    var reqs := PoolLeafRequests(leaf, cfg.hubChainId, cfg.hubPool, cfg.signer, cfg.isArbitrum(leaf.chainId), cfg.hubPoolEthBalance);
    if Admits(balances, st.1, reqs) {
      var tokens := PoolRebalanceRequests(leaf, cfg.hubChainId, cfg.hubPool);
      forall i | 0 <= i < |reqs| ensures reqs[i].key != k {
        if reqs[i] in tokens {
          var j :| 0 <= j < |tokens| && tokens[j] == reqs[i];
          assert leaf.l1Tokens[j] in leaf.l1Tokens;
        }
      }
      assert Demand(reqs, k) == 0;
      if leaf.chainId == cfg.hubChainId {
        ReleaseHomeSendsFrame(Reserve(st.1, reqs), leaf, |leaf.netSendAmounts|, cfg.hubSpokePool, k);
      }
    }
  }

  /** A key no pool rebalance leaf touches keeps its usage. */
  lemma {:induction false} FundPoolLeavesFrame(balances: map<Key, nat>, used: Ledger, leaves: seq<PoolRebalanceLeaf>, cfg: PoolFundingConfig, k: Key)
    requires forall i :: 0 <= i < |leaves| ==> !PoolLeafTouches(leaves[i], cfg, k)
    ensures UsedOf(FundPoolLeaves(balances, used, leaves, cfg).1, k) == UsedOf(used, k)
    decreases |leaves|
  {
    if leaves != [] {
      var init := leaves[..|leaves| - 1];
      FundPoolLeavesFrame(balances, used, init, cfg, k);
      PoolLeafStepFrame(balances, FundPoolLeaves(balances, used, init, cfg), leaves[|leaves| - 1], cfg, k);
    }
  }

  /** The funded pool rebalance leaves keep the order of the leaves. */
  lemma {:induction false} FundPoolLeavesSubsequence(balances: map<Key, nat>, used: Ledger, leaves: seq<PoolRebalanceLeaf>, cfg: PoolFundingConfig)
    ensures IsSubsequence(FundPoolLeaves(balances, used, leaves, cfg).0, leaves)
    decreases |leaves|
  {
    if leaves != [] {
      var init := leaves[..|leaves| - 1];
      FundPoolLeavesSubsequence(balances, used, init, cfg);
      var prev := FundPoolLeaves(balances, used, init, cfg).0;
      assert (prev + [leaves[|leaves| - 1]])[..|prev|] == prev;
    }
  }

  /** Leaf `i` is funded exactly when its batch fits the ledger the leaves
      before it left; otherwise nothing changes. */
  lemma FundPoolLeavesAdmission(balances: map<Key, nat>, used: Ledger, leaves: seq<PoolRebalanceLeaf>, i: nat, cfg: PoolFundingConfig)
    requires i < |leaves|
    ensures
      var before := FundPoolLeaves(balances, used, leaves[..i], cfg);
      var after := FundPoolLeaves(balances, used, leaves[..i + 1], cfg);
      var reqs := PoolLeafRequests(leaves[i], cfg.hubChainId, cfg.hubPool, cfg.signer, cfg.isArbitrum(leaves[i].chainId), cfg.hubPoolEthBalance);
      && (Admits(balances, before.1, reqs) ==> after.0 == before.0 + [leaves[i]])
      && (!Admits(balances, before.1, reqs) ==> after == before)
  {
    FundPoolLeavesPrefix(balances, used, leaves, i, cfg);
  }

  lemma {:induction false} RefundLeafStepFrame(
    balances: map<Key, nat>, st: (seq<RelayerRefundLeaf>, Ledger), leaf: RelayerRefundLeaf,
    spokePool: Address, hubChainId: ChainId, hubPool: Address, k: Key)
    requires !RefundLeafTouches(leaf, spokePool, hubChainId, hubPool, k)
    ensures UsedOf(RefundLeafStep(balances, st, leaf, spokePool, hubChainId, hubPool).1, k) == UsedOf(st.1, k)
  {
    var reqs := [Request(Key(leaf.chainId, leaf.l2TokenAddress, spokePool), RefundReservation(leaf))];
    assert Demand(reqs, k) == 0;
  }

  /** A key no refund leaf touches keeps its usage. */
  lemma {:induction false} FundRefundLeavesFrame(
    balances: map<Key, nat>, used: Ledger, leaves: seq<RelayerRefundLeaf>,
    spokePool: Address, hubChainId: ChainId, hubPool: Address, k: Key)
    requires forall i :: 0 <= i < |leaves| ==> !RefundLeafTouches(leaves[i], spokePool, hubChainId, hubPool, k)
    ensures UsedOf(FundRefundLeaves(balances, used, leaves, spokePool, hubChainId, hubPool).1, k) == UsedOf(used, k)
    decreases |leaves|
  {
    if leaves != [] {
      var init := leaves[..|leaves| - 1];
      FundRefundLeavesFrame(balances, used, init, spokePool, hubChainId, hubPool, k);
      RefundLeafStepFrame(balances, FundRefundLeaves(balances, used, init, spokePool, hubChainId, hubPool), leaves[|leaves| - 1], spokePool, hubChainId, hubPool, k);
    }
  }

  /** The funded refund leaves keep the order of the leaves. */
  lemma {:induction false} FundRefundLeavesSubsequence(
    balances: map<Key, nat>, used: Ledger, leaves: seq<RelayerRefundLeaf>,
    spokePool: Address, hubChainId: ChainId, hubPool: Address)
    ensures IsSubsequence(FundRefundLeaves(balances, used, leaves, spokePool, hubChainId, hubPool).0, leaves)
    decreases |leaves|
  {
    if leaves != [] {
      var init := leaves[..|leaves| - 1];
      FundRefundLeavesSubsequence(balances, used, init, spokePool, hubChainId, hubPool);
      var prev := FundRefundLeaves(balances, used, init, spokePool, hubChainId, hubPool).0;
      assert (prev + [leaves[|leaves| - 1]])[..|prev|] == prev;
    }
  }

  /** Refund leaf `i` is funded exactly when its reservation fits what the
      leaves before it left on its key, which then grows by that reservation;
      otherwise nothing changes. */
  lemma FundRefundLeavesAdmission(
    balances: map<Key, nat>, used: Ledger, leaves: seq<RelayerRefundLeaf>, i: nat,
    spokePool: Address, hubChainId: ChainId, hubPool: Address)
    requires i < |leaves|
    ensures
      var before := FundRefundLeaves(balances, used, leaves[..i], spokePool, hubChainId, hubPool);
      var after := FundRefundLeaves(balances, used, leaves[..i + 1], spokePool, hubChainId, hubPool);
      var k := Key(leaves[i].chainId, leaves[i].l2TokenAddress, spokePool);
      var fits := UsedOf(before.1, k) + RefundReservation(leaves[i]) <= BalanceOf(balances, k);
      && (fits ==> after.0 == before.0 + [leaves[i]]
                   && (spokePool != hubPool ==> UsedOf(after.1, k) == UsedOf(before.1, k) + RefundReservation(leaves[i])))
      && (!fits ==> after == before)
  {
    FundRefundLeavesPrefix(balances, used, leaves, i, spokePool, hubChainId, hubPool);
    var k := Key(leaves[i].chainId, leaves[i].l2TokenAddress, spokePool);
    var before := FundRefundLeaves(balances, used, leaves[..i], spokePool, hubChainId, hubPool);
    SingleRequestAdmission(balances, before.1, k, RefundReservation(leaves[i]));
    assert Demand([Request(k, RefundReservation(leaves[i]))], k) == RefundReservation(leaves[i]) + Demand([], k);
  }

  /** A key no slow fill leaf touches keeps its usage. */
  lemma {:induction false} FundSlowFillLeavesFrame(
    balances: map<Key, nat>, used: Ledger, leaves: seq<SlowFillLeaf>,
    fills: seq<Fill>, getRefund: (int, int) -> int, spokePool: Address, k: Key)
    requires forall i :: 0 <= i < |leaves| ==> SlowFillKey(leaves[i], spokePool) != k
    ensures UsedOf(FundSlowFillLeaves(balances, used, leaves, fills, getRefund, spokePool).1, k) == UsedOf(used, k)
    decreases |leaves|
  {
    if leaves != [] {
      var init := leaves[..|leaves| - 1];
      FundSlowFillLeavesFrame(balances, used, init, fills, getRefund, spokePool, k);
      var leaf := leaves[|leaves| - 1];
      assert Demand([Request(SlowFillKey(leaf, spokePool), SlowFillNeed(leaf, fills, getRefund))], k) == 0;
    }
  }

  /** The funded slow fill leaves keep the order of the leaves. */
  lemma {:induction false} FundSlowFillLeavesSubsequence(
    balances: map<Key, nat>, used: Ledger, leaves: seq<SlowFillLeaf>,
    fills: seq<Fill>, getRefund: (int, int) -> int, spokePool: Address)
    ensures IsSubsequence(FundSlowFillLeaves(balances, used, leaves, fills, getRefund, spokePool).0, leaves)
    decreases |leaves|
  {
    if leaves != [] {
      var init := leaves[..|leaves| - 1];
      FundSlowFillLeavesSubsequence(balances, used, init, fills, getRefund, spokePool);
      var prev := FundSlowFillLeaves(balances, used, init, fills, getRefund, spokePool).0;
      assert (prev + [leaves[|leaves| - 1]])[..|prev|] == prev;
    }
  }

  /** Slow fill leaf `i` is funded exactly when it needs a non-zero amount that
      fits what the leaves before it left on its key, which then grows by that
      amount; otherwise nothing changes. */
  lemma FundSlowFillLeavesAdmission(
    balances: map<Key, nat>, used: Ledger, leaves: seq<SlowFillLeaf>, i: nat,
    fills: seq<Fill>, getRefund: (int, int) -> int, spokePool: Address)
    requires i < |leaves|
    ensures
      var before := FundSlowFillLeaves(balances, used, leaves[..i], fills, getRefund, spokePool);
      var after := FundSlowFillLeaves(balances, used, leaves[..i + 1], fills, getRefund, spokePool);
      var k := SlowFillKey(leaves[i], spokePool);
      var need := SlowFillNeed(leaves[i], fills, getRefund);
      var funded := need != 0 && UsedOf(before.1, k) + need <= BalanceOf(balances, k);
      && (funded ==> after.0 == before.0 + [leaves[i]] && UsedOf(after.1, k) == UsedOf(before.1, k) + need)
      && (!funded ==> after == before)
  {
    FundSlowFillLeavesPrefix(balances, used, leaves, i, fills, getRefund, spokePool);
    var k := SlowFillKey(leaves[i], spokePool);
    var need := SlowFillNeed(leaves[i], fills, getRefund);
    var before := FundSlowFillLeaves(balances, used, leaves[..i], fills, getRefund, spokePool);
    SingleRequestAdmission(balances, before.1, k, need);
    assert Demand([Request(k, need)], k) == need + Demand([], k);
  }

  /** The pool rebalance leaves a sequence of transactions executes, in order. */
  function ExecutedPoolLeaves(q: seq<Instruction>): seq<PoolRebalanceLeaf>
    decreases |q|
  {
    if q == [] then []
    else ExecutedPoolLeaves(q[..|q| - 1]) + (if q[|q| - 1].ExecuteRootBundle? then [q[|q| - 1].poolLeaf] else [])
  }

  lemma {:induction false} ExecutedPoolLeavesAppend(a: seq<Instruction>, b: seq<Instruction>)
    ensures ExecutedPoolLeaves(a + b) == ExecutedPoolLeaves(a) + ExecutedPoolLeaves(b)
    decreases |b|
  {
    if b == [] {
      assert a + b == a;
    } else {
      var init := b[..|b| - 1];
      ExecutedPoolLeavesAppend(a, init);
      assert (a + b)[..|a + b| - 1] == a + init;
    }
  }

  /** Each pool rebalance leaf's execution follows an ETH load exactly when the leaf needs one. */
  ghost predicate EthLoadsPrecedeNeedyLeaves(q: seq<Instruction>, cfg: PoolFundingConfig) {
    && (|q| > 0 && q[0].ExecuteRootBundle? ==> !NeedsEthLoad(q[0].poolLeaf, cfg))
    && forall i, j {:trigger q[i], q[j]} :: 0 <= i && j == i + 1 && j < |q| && q[j].ExecuteRootBundle? ==>
         (NeedsEthLoad(q[j].poolLeaf, cfg) <==> q[i].LoadEthForL2Calls?)
  }

  /** Every ETH load is followed by the execution of a leaf and carries what that leaf's messages need. */
  ghost predicate EthLoadsFundNextLeaf(q: seq<Instruction>) {
    && (|q| > 0 ==> !q[|q| - 1].LoadEthForL2Calls?)
    && forall i, j {:trigger q[i], q[j]} :: 0 <= i && j == i + 1 && j < |q| && q[i].LoadEthForL2Calls? ==>
         q[j].ExecuteRootBundle? && q[i].value == RequiredEthForArbitrumLeaf(q[j].poolLeaf)
  }

  /** The pool transactions execute exactly the funded leaves, in order; each
      leaf's execution follows an ETH load exactly when the leaf needs one, and
      every ETH load carries the ETH the leaf right after it needs. */
  lemma {:induction false} PoolInstructionsShape(funded: seq<PoolRebalanceLeaf>, cfg: PoolFundingConfig, root: Root)
    ensures ExecutedPoolLeaves(PoolInstructions(funded, cfg, root)) == funded
    ensures EthLoadsPrecedeNeedyLeaves(PoolInstructions(funded, cfg, root), cfg)
    ensures EthLoadsFundNextLeaf(PoolInstructions(funded, cfg, root))
    decreases |funded|
  {
    if funded != [] {
      var init := funded[..|funded| - 1];
      var leaf := funded[|funded| - 1];
      assert funded == init + [leaf];
      PoolInstructionsShape(init, cfg, root);
      var prev := PoolInstructions(init, cfg, root);
      var block := PoolLeafInstructions(leaf, cfg, root);
      assert PoolInstructions(funded, cfg, root) == prev + block;
      assert ExecutedPoolLeaves(prev + block) == funded by {
        ExecutedPoolLeavesAppend(prev, block);
        ExecutedPoolLeavesOfBlock(leaf, cfg, root);
      }
      assert EthLoadsPrecedeNeedyLeaves(prev + block, cfg) && EthLoadsFundNextLeaf(prev + block) by {
        PoolBlockShape(prev, block, leaf, cfg, root);
      }
    }
  }

  lemma {:induction false} ExecutedPoolLeavesOfBlock(leaf: PoolRebalanceLeaf, cfg: PoolFundingConfig, root: Root)
    ensures ExecutedPoolLeaves(PoolLeafInstructions(leaf, cfg, root)) == [leaf]
  {
    var exec := ExecuteRootBundle(cfg.hubChainId, leaf, root, leaf.chainId != cfg.hubChainId);
    var load := LoadEthForL2Calls(cfg.hubChainId, RequiredEthForArbitrumLeaf(leaf));
    assert [exec][..0] == [];
    assert ExecutedPoolLeaves([exec]) == [leaf];
    if NeedsEthLoad(leaf, cfg) {
      assert [load][..0] == [];
      assert ExecutedPoolLeaves([load]) == [];
      assert [load, exec][..1] == [load];
    }
  }

  lemma {:induction false} PoolBlockShape(prev: seq<Instruction>, block: seq<Instruction>, leaf: PoolRebalanceLeaf, cfg: PoolFundingConfig, root: Root)
    requires block == PoolLeafInstructions(leaf, cfg, root)
    requires EthLoadsPrecedeNeedyLeaves(prev, cfg) && EthLoadsFundNextLeaf(prev)
    ensures EthLoadsPrecedeNeedyLeaves(prev + block, cfg) && EthLoadsFundNextLeaf(prev + block)
  {
    var q := prev + block;
    var exec := ExecuteRootBundle(cfg.hubChainId, leaf, root, leaf.chainId != cfg.hubChainId);
    var load := LoadEthForL2Calls(cfg.hubChainId, RequiredEthForArbitrumLeaf(leaf));
    assert NeedsEthLoad(leaf, cfg) ==> block == [load, exec];
    assert !NeedsEthLoad(leaf, cfg) ==> block == [exec];
    assert q[|q| - 1] == exec;
    if |prev| == 0 {
      assert q == block;
    } else {
      assert q[0] == prev[0];
    }
    forall i, j | 0 <= i && j == i + 1 && j < |q|
      ensures q[j].ExecuteRootBundle? ==> (NeedsEthLoad(q[j].poolLeaf, cfg) <==> q[i].LoadEthForL2Calls?)
      ensures q[i].LoadEthForL2Calls? ==> q[j].ExecuteRootBundle? && q[i].value == RequiredEthForArbitrumLeaf(q[j].poolLeaf)
    {
      if j < |prev| {
        assert q[i] == prev[i] && q[j] == prev[j];
      } else if j == |prev| {
        assert q[i] == prev[|prev| - 1] && q[j] == block[0];
      } else {
        assert NeedsEthLoad(leaf, cfg) && q[i] == load && q[j] == exec;
      }
    }
  }
}
