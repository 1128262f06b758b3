/** How much each leaf must have reserved before it is executed, which L1
    tokens a bundle touches, and when an exchange rate refresh is worth a
    transaction. */
module Funding {
  import opened Types
  import opened Seqs
  import opened Allocation

  /** 0.02 ETH in wei: what one L1 to L2 message to Arbitrum costs. */
  const ArbitrumMessageCost: int := 20_000_000_000_000_000

  /** Seconds after the last fee compounding before an exchange rate refresh is considered. */
  const ExchangeRateCooldown: int := 7200

  /** What a refund leaf's spoke pool must hold: the refunds, folded left from
      zero as the source does, plus the amount to return unless it is negative. */
  function RefundReservation(leaf: RelayerRefundLeaf): (r: int)
    ensures r == Sum(leaf.refundAmounts) + (if leaf.amountToReturn > 0 then leaf.amountToReturn else 0)
    ensures leaf.amountToReturn <= 0 ==> r == Sum(leaf.refundAmounts)
  {
    FoldAddIsSum(0, leaf.refundAmounts);
    FoldAdd(0, leaf.refundAmounts) + (if leaf.amountToReturn >= 0 then leaf.amountToReturn else 0)
  }

  /** One request per L1 token of a pool rebalance leaf, held by the hub pool on
      the hub chain; a non-positive net send amount asks for nothing. */
  function PoolRebalanceRequests(leaf: PoolRebalanceLeaf, hubChainId: ChainId, hubPool: Address): (r: seq<Request>)
    ensures |r| == |leaf.netSendAmounts|
    ensures forall i :: 0 <= i < |r| ==>
      && r[i].key == Key(hubChainId, leaf.l1Tokens[i], hubPool)
      && r[i].amount >= 0
      && (leaf.netSendAmounts[i] > 0 ==> r[i].amount == leaf.netSendAmounts[i])
      && (leaf.netSendAmounts[i] <= 0 ==> r[i].amount == 0)
  {
    seq(|leaf.netSendAmounts|, i requires 0 <= i < |leaf.netSendAmounts| =>
      Request(Key(hubChainId, leaf.l1Tokens[i], hubPool), if leaf.netSendAmounts[i] > 0 then leaf.netSendAmounts[i] else 0))
  }

  /** The source's reduce: 0.02 ETH more for every positive amount. */
  function ArbitrumFold(acc: int, amounts: seq<int>): int
    decreases |amounts|
  {
    if amounts == [] then acc
    else ArbitrumFold(if amounts[0] > 0 then acc + ArbitrumMessageCost else acc, amounts[1..])
  }

  lemma {:induction false} ArbitrumFoldCounts(acc: int, amounts: seq<int>)
    decreases |amounts|
    ensures ArbitrumFold(acc, amounts) == acc + ArbitrumMessageCost * CountPositive(amounts)
  {
    if amounts != [] {
      ArbitrumFoldCounts(if amounts[0] > 0 then acc + ArbitrumMessageCost else acc, amounts[1..]);
    }
  }

  /** ETH the hub pool must hold to execute a pool rebalance leaf for
      Arbitrum: one message per positive net send amount, and one more for the
      first leaf of a group (which relays the roots). */
  function RequiredEthForArbitrumLeaf(leaf: PoolRebalanceLeaf): (r: int)
    ensures r == ArbitrumMessageCost * (CountPositive(leaf.netSendAmounts) + if leaf.groupIndex == 0 then 1 else 0)
    ensures r >= 0
  {
    ArbitrumFoldCounts(0, leaf.netSendAmounts);
    var required := ArbitrumFold(0, leaf.netSendAmounts);
    if leaf.groupIndex == 0 then required + ArbitrumMessageCost else required
  }

  /** The ETH request, held by the signer, for a leaf's L1 to L2 messages. */
  function EthRequest(leaf: PoolRebalanceLeaf, hubChainId: ChainId, signer: Address): Request {
    Request(Key(hubChainId, ZeroAddress, signer), RequiredEthForArbitrumLeaf(leaf))
  }

  /** The batch one pool rebalance leaf asks the allocator for: the positive
      token requests, plus the ETH request when the leaf goes to Arbitrum and
      the hub pool's ETH balance is below what its messages cost. */
  function PoolLeafRequests(
    leaf: PoolRebalanceLeaf, hubChainId: ChainId, hubPool: Address, signer: Address,
    onArbitrum: bool, hubPoolEthBalance: int): (r: seq<Request>)
    ensures forall q :: q in r ==> q.amount > 0
    ensures forall i :: 0 <= i < |leaf.netSendAmounts| && leaf.netSendAmounts[i] > 0 ==>
      Request(Key(hubChainId, leaf.l1Tokens[i], hubPool), leaf.netSendAmounts[i]) in r
    ensures forall q :: q in r ==>
      q in PoolRebalanceRequests(leaf, hubChainId, hubPool)
      || (onArbitrum && hubPoolEthBalance < RequiredEthForArbitrumLeaf(leaf) && q == EthRequest(leaf, hubChainId, signer))
    ensures onArbitrum && 0 <= hubPoolEthBalance < RequiredEthForArbitrumLeaf(leaf) ==>
      EthRequest(leaf, hubChainId, signer) in r
  {
    var tokens := PoolRebalanceRequests(leaf, hubChainId, hubPool);
    var eth := if onArbitrum && hubPoolEthBalance < RequiredEthForArbitrumLeaf(leaf) then [EthRequest(leaf, hubChainId, signer)] else [];
    assert forall i :: 0 <= i < |tokens| ==> tokens[i] in tokens + eth;
    Filter(tokens + eth, (q: Request) => q.amount > 0)
  }

  /** How much a fill has delivered so far. */
  function TotalFilledAmount(fill: Fill): int {
    if fill.V2Fill? then fill.totalFilledAmount else fill.outputAmount
  }

  /** What a slow fill leaf must have reserved, given the latest matching fill:
      a V3 leaf needs nothing once any fill exists and its updated output amount
      otherwise; a V2 leaf pays out the unfilled remainder net of LP fees. */
  function SlowFillAmountRequired(leaf: SlowFillLeaf, fill: Option<Fill>, getRefund: (int, int) -> int): (r: int)
    ensures leaf.V3SlowFillLeaf? ==> (r == 0 <==> fill.Some? || leaf.updatedOutputAmount == 0)
    ensures leaf.V3SlowFillLeaf? && fill.None? ==> r == leaf.updatedOutputAmount
    ensures leaf.V2SlowFillLeaf? && fill.None? ==> r == getRefund(leaf.relay2.amount, leaf.relay2.realizedLpFeePct)
    ensures leaf.V2SlowFillLeaf? && fill.Some? ==>
      r == getRefund(leaf.relay2.amount - TotalFilledAmount(fill.value), leaf.relay2.realizedLpFeePct)
  {
    match leaf
    case V3SlowFillLeaf(_, _, updatedOutputAmount) => if fill.Some? then 0 else updatedOutputAmount
    case V2SlowFillLeaf(relay, _) =>
      var filled := if fill.Some? then TotalFilledAmount(fill.value) else 0;
      getRefund(relay.amount - filled, relay.realizedLpFeePct)
  }

  /** An exchange rate refresh is due when the hub pool client knows the time,
      more than the cooldown has passed since the last fee compounding (never
      compounded counts as time 0), and syncing would raise liquid reserves. */
  predicate ExchangeRateDue(currentTime: Option<int>, lastLpFeeUpdate: Option<int>, liquidReservesDelta: int) {
    var last := if lastLpFeeUpdate.Some? then lastLpFeeUpdate.value else 0;
    currentTime.Some? && currentTime.value - last > ExchangeRateCooldown && liquidReservesDelta > 0
  }

  /** A token compounded within the cooldown is never refreshed, nor one whose
      reserves would not grow. */
  lemma ExchangeRateSkipRules(currentTime: int, last: int, liquidReservesDelta: int)
    ensures currentTime - last <= ExchangeRateCooldown ==> !ExchangeRateDue(Some(currentTime), Some(last), liquidReservesDelta)
    ensures liquidReservesDelta <= 0 ==> !ExchangeRateDue(Some(currentTime), Some(last), liquidReservesDelta)
    ensures currentTime - last > ExchangeRateCooldown && liquidReservesDelta > 0 ==>
      ExchangeRateDue(Some(currentTime), Some(last), liquidReservesDelta)
  {
  }

  /** The tokens refreshed: distinct tokens in first-occurrence order, each at
      most once, those that are due. */
  function ExchangeRateTokens(tokens: seq<Address>, due: Address -> bool): (r: seq<Address>)
    ensures NoDuplicates(r)
    ensures forall t :: t in r <==> t in tokens && due(t)
  {
    FilterKeepsNoDuplicates(Dedup(tokens), due);
    Filter(Dedup(tokens), due)
  }

  /** One `exchangeRateCurrent` call on the hub chain per token. */
  function ExchangeRateCalls(hubChainId: ChainId, tokens: seq<Address>): (r: seq<Instruction>)
    ensures |r| == |tokens|
    ensures forall i :: 0 <= i < |r| ==> r[i] == ExchangeRateCurrent(hubChainId, tokens[i])
  {
    seq(|tokens|, i requires 0 <= i < |tokens| => ExchangeRateCurrent(hubChainId, tokens[i]))
  }

  lemma ExchangeRateCallsSnoc(hubChainId: ChainId, tokens: seq<Address>, t: Address)
    ensures ExchangeRateCalls(hubChainId, tokens + [t]) == ExchangeRateCalls(hubChainId, tokens) + [ExchangeRateCurrent(hubChainId, t)]
  {
  }

  /** The L1 tokens of a bundle's pool rebalance leaves, each once, in order of
      first appearance. */
  function L1TokensInBundle(leaves: seq<PoolRebalanceLeaf>): (r: seq<Address>)
    ensures NoDuplicates(r)
    ensures forall t :: t in r <==> exists l :: l in leaves && t in l.l1Tokens
  {
    Dedup(Flatten(leaves, L1TokensOf))
  }

  function L1TokensOf(leaf: PoolRebalanceLeaf): seq<Address> {
    leaf.l1Tokens
  }
}
