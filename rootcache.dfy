/** The pool rebalance root cache, keyed by the serialized block ranges, and
    the rebuild of a whole root bundle through it. */
module RootCache {
  import opened Types
  import opened Proposal

  /** Serialized ranges stand for the ranges themselves: equal ranges serialize equally. */
  type Cache = map<BundleBlockRanges, PoolRebalanceRoot>

  /** The builder runs when the ranges are not cached or caching is switched off. */
  predicate MustBuild(cache: Cache, ranges: BundleBlockRanges, disabled: bool) {
    ranges !in cache || disabled
  }

  /** `_getPoolRebalanceRoot`: the root for `ranges`, and the cache after the lookup. */
  function GetPoolRebalanceRoot(
    cache: Cache, build: (BundleBlockRanges, int, int) -> PoolRebalanceRoot, disabled: bool,
    ranges: BundleBlockRanges, latestMainnetBlock: int, mainnetBundleEndBlock: int): (r: (PoolRebalanceRoot, Cache))
    ensures !MustBuild(cache, ranges, disabled) ==> r.0 == cache[ranges] && r.1 == cache
    ensures MustBuild(cache, ranges, disabled) ==> r.0 == build(ranges, latestMainnetBlock, mainnetBundleEndBlock)
    ensures ranges in r.1 && r.1[ranges] == r.0
    ensures forall k :: k != ranges ==> (k in r.1 <==> k in cache)
    ensures forall k :: k != ranges && k in cache ==> r.1[k] == cache[k]
  {
    if MustBuild(cache, ranges, disabled) then
      var root := build(ranges, latestMainnetBlock, mainnetBundleEndBlock);
      (root, cache[ranges := root])
    else (cache[ranges], cache)
  }

  /** With caching on, a second lookup of the same ranges returns the first
      result and leaves the cache as it was, even when the latest mainnet block
      or end block passed differ: neither is part of the key. */
  lemma SecondLookupHits(
    cache: Cache, build: (BundleBlockRanges, int, int) -> PoolRebalanceRoot, ranges: BundleBlockRanges,
    latest1: int, end1: int, latest2: int, end2: int)
    ensures
      var first := GetPoolRebalanceRoot(cache, build, false, ranges, latest1, end1);
      GetPoolRebalanceRoot(first.1, build, false, ranges, latest2, end2) == first
  {
  }

  /** `_proposeRootBundle`: throws when the hub chain has no range; otherwise the
      pool rebalance root comes through the cache, and the refund and slow relay
      trees are built from it and the ranges. */
  function BuildRootBundle(
    cache: Cache, builders: Builders, disabled: bool, ranges: BundleBlockRanges, latestMainnetBlock: int,
    hubChainId: ChainId, chainIdList: seq<ChainId>): (r: Outcome<(RootBundleData, Cache)>)
    ensures r.Throw? <==> BlockRangeForChain(ranges, hubChainId, chainIdList).Throw?
    ensures r.Ok? ==>
      var mainnetEnd := BlockRangeForChain(ranges, hubChainId, chainIdList).value.1;
      var pool := GetPoolRebalanceRoot(cache, builders.poolRebalance, disabled, ranges, latestMainnetBlock, mainnetEnd);
      var refund := builders.relayerRefund(ranges, mainnetEnd, pool.0.leaves, pool.0.runningBalances);
      var slow := builders.slowRelay(ranges);
      && r.value.1 == pool.1
      && r.value.0.poolRebalanceLeaves == pool.0.leaves && r.value.0.poolRebalanceRoot == pool.0.root
      && r.value.0.relayerRefundLeaves == refund.leaves && r.value.0.relayerRefundRoot == refund.root
      && r.value.0.slowFillLeaves == slow.leaves && r.value.0.slowRelayRoot == slow.root
  {
    match BlockRangeForChain(ranges, hubChainId, chainIdList)
    case Throw(m) => Throw(m)
    case Ok(mainnet) =>
      var pool := GetPoolRebalanceRoot(cache, builders.poolRebalance, disabled, ranges, latestMainnetBlock, mainnet.1);
      var refund := builders.relayerRefund(ranges, mainnet.1, pool.0.leaves, pool.0.runningBalances);
      var slow := builders.slowRelay(ranges);
      Ok((RootBundleData(pool.0.leaves, pool.0.root, refund.leaves, refund.root, slow.leaves, slow.root), pool.1))
  }

  /** The trees built straight from the builders, with no cache. */
  function UncachedRootBundle(builders: Builders, ranges: BundleBlockRanges, latestMainnetBlock: int, mainnetEnd: int): RootBundleData {
    var pool := builders.poolRebalance(ranges, latestMainnetBlock, mainnetEnd);
    var refund := builders.relayerRefund(ranges, mainnetEnd, pool.leaves, pool.runningBalances);
    var slow := builders.slowRelay(ranges);
    RootBundleData(pool.leaves, pool.root, refund.leaves, refund.root, slow.leaves, slow.root)
  }

  /** The pool rebalance builder does not depend on the latest mainnet block. */
  ghost predicate LatestBlockIndependent(build: (BundleBlockRanges, int, int) -> PoolRebalanceRoot) {
    forall k, a, b, e :: build(k, a, e) == build(k, b, e)
  }

  /** Every cached root is what the builder yields for its key. */
  ghost predicate Coherent(cache: Cache, builders: Builders, hubChainId: ChainId, chainIdList: seq<ChainId>) {
    forall k :: k in cache ==>
      BlockRangeForChain(k, hubChainId, chainIdList).Ok?
      && cache[k] == builders.poolRebalance(k, 0, BlockRangeForChain(k, hubChainId, chainIdList).value.1)
  }

  /** The cache is invisible when the pool rebalance builder ignores the latest
      mainnet block: a rebuild through a coherent cache yields the uncached
      trees and leaves the cache coherent. */
  lemma {:induction false} CacheIsTransparent(
    cache: Cache, builders: Builders, disabled: bool, ranges: BundleBlockRanges, latestMainnetBlock: int,
    hubChainId: ChainId, chainIdList: seq<ChainId>)
    requires Coherent(cache, builders, hubChainId, chainIdList)
    requires LatestBlockIndependent(builders.poolRebalance)
    ensures
      var r := BuildRootBundle(cache, builders, disabled, ranges, latestMainnetBlock, hubChainId, chainIdList);
      r.Ok? ==>
        && r.value.0 == UncachedRootBundle(builders, ranges, latestMainnetBlock, BlockRangeForChain(ranges, hubChainId, chainIdList).value.1)
        && Coherent(r.value.1, builders, hubChainId, chainIdList)
  {
    var mainnet := BlockRangeForChain(ranges, hubChainId, chainIdList);
    if mainnet.Ok? {
      var end := mainnet.value.1;
      var pool := GetPoolRebalanceRoot(cache, builders.poolRebalance, disabled, ranges, latestMainnetBlock, end);
      assert builders.poolRebalance(ranges, 0, end) == builders.poolRebalance(ranges, latestMainnetBlock, end);
      assert pool.0 == builders.poolRebalance(ranges, latestMainnetBlock, end);
    }
  }
}
