/**
 * The opening of a collection cycle, which both exporters share: chain id
 * and client version (published together as the chain-info series), the
 * head block number and the gas price, each of which ends the cycle early
 * when its call fails, and the optional max priority fee.
 */
module Cycle {
  import opened Wrappers
  import opened Quantity
  import opened Chain
  import opened Metrics

  const Network: string := "monad-testnet"


  /** A utilisation in percent: `float64(used) / float64(limit) * 100`. */
  function Percent(used: nat, limit: nat): real
    requires limit > 0
  {
    used as real / limit as real * 100.0
  }

  /** How a cycle ends: it completes, or returns early at the first required call that fails. */
  datatype Outcome = Collected | ChainIdFailed | ClientVersionFailed | BlockNumberFailed | GasPriceFailed

  /** The cycle gets past its opening exactly when all four required calls succeed. */
  function CycleOutcome(node: Node): (o: Outcome)
    requires NodeDecodable(node)
    ensures o == Collected <==>
              && node.chainId.Some? && node.clientVersion.Some?
              && node.blockNumber.Some? && ParseQuantity(node.blockNumber.value).Parsed?
              && node.gasPrice.Some? && ParseQuantity(node.gasPrice.value).Parsed?
  {
    if node.chainId.None? then ChainIdFailed
    else if node.clientVersion.None? then ClientVersionFailed
    else if QuantityAnswer(node.blockNumber).None? then BlockNumberFailed
    else if QuantityAnswer(node.gasPrice).None? then GasPriceFailed
    else Collected
  }

  /** The head block number of a cycle that gets past its opening. */
  function Head(node: Node): (head: nat)
    requires NodeDecodable(node) && CycleOutcome(node) == Collected
    ensures head <= MaxU64 && head == HexToUint64(node.blockNumber.value)
  {
    QuantityAnswer(node.blockNumber).value
  }

  /** The chain-info series: the chain id in decimal, the client version and the network name. */
  function ChainInfoWrite(chainId: string, clientVersion: string): Write
    requires Decodable(chainId)
  {
    Write(Series(ChainInfo, [FormatDecimal(HexToUint64(chainId)), clientVersion, Network]), 1.0)
  }

  /** The max priority fee, written only when that optional call succeeds. */
  function PriorityFeeWrites(node: Node): seq<Write>
    requires NodeDecodable(node)
  {
    match QuantityAnswer(node.maxPriorityFee)
    case None => []
    case Some(fee) => [Write(Gauge(MaxPriorityFeePerGas), fee as real)]
  }

  /** The gas price in wei and in gwei, then the max priority fee when that call succeeds. */
  function PriceWrites(node: Node, price: nat): seq<Write>
    requires NodeDecodable(node)
  {
    [Write(Gauge(GasPriceWei), price as real), Write(Gauge(GasPriceGwei), price as real / 1000000000.0)]
    + PriorityFeeWrites(node)
  }

  /** The writes from the head block number on, up to the first failure. */
  function HeadWrites(node: Node): seq<Write>
    requires NodeDecodable(node)
  {
    match QuantityAnswer(node.blockNumber)
    case None => []
    case Some(head) =>
      [Write(Gauge(CurrentBlockNumber), head as real)]
      + match QuantityAnswer(node.gasPrice)
        case None => []
        case Some(price) => PriceWrites(node, price)
  }

  /** The writes of the opening, up to the first failure. */
  function OpeningWrites(node: Node): seq<Write>
    requires NodeDecodable(node)
  {
    match node.chainId
    case None => []
    case Some(chainId) =>
      match node.clientVersion
      case None => []
      case Some(clientVersion) => [ChainInfoWrite(chainId, clientVersion)] + HeadWrites(node)
  }

  method PublishPrices(node: Node, reg: Registry, price: nat)
    requires NodeDecodable(node) && reg.Valid()
    modifies reg
    ensures reg.Valid() && reg.initial == old(reg.initial)
    ensures reg.history == old(reg.history) + PriceWrites(node, price)
  {
    ghost var h := reg.history;
    reg.Set(Gauge(GasPriceWei), price as real);
    reg.Set(Gauge(GasPriceGwei), price as real / 1000000000.0);
    var maxPriorityFee := QuantityAnswer(node.maxPriorityFee);
    if maxPriorityFee.Some? {
      reg.Set(Gauge(MaxPriorityFeePerGas), maxPriorityFee.value as real);
    }
    assert reg.history == h + [Write(Gauge(GasPriceWei), price as real),
                               Write(Gauge(GasPriceGwei), price as real / 1000000000.0)]
                        + PriorityFeeWrites(node);
  }

  /** The head block number, then the gas price: each ends the cycle early when it fails. */
  method CollectHead(node: Node, reg: Registry) returns (outcome: Outcome, head: nat)
    requires NodeDecodable(node) && reg.Valid()
    requires node.chainId.Some? && node.clientVersion.Some?
    modifies reg
    ensures reg.Valid() && reg.initial == old(reg.initial)
    ensures reg.history == old(reg.history) + HeadWrites(node)
    ensures outcome == CycleOutcome(node)
    ensures outcome == Collected ==> head == Head(node)
  {
    ghost var h0 := reg.history;
    head := 0;
    var currentBlock := QuantityAnswer(node.blockNumber);
    if currentBlock.None? {
      assert reg.history == h0 + [];
      return BlockNumberFailed, head;
    }
    head := currentBlock.value;
    reg.Set(Gauge(CurrentBlockNumber), head as real);
    ghost var h1 := reg.history;
    var currentGasPrice := QuantityAnswer(node.gasPrice);
    if currentGasPrice.None? {
      assert reg.history == h0 + [Write(Gauge(CurrentBlockNumber), head as real)] + [];
      return GasPriceFailed, head;
    }
    PublishPrices(node, reg, currentGasPrice.value);
    assert reg.history == h0 + [Write(Gauge(CurrentBlockNumber), head as real)] + reg.history[|h1|..];
    return Collected, head;
  }

  /**
   * The opening of `CollectMetrics`: on success it returns the head block
   * number, which the window is counted back from.
   */
  method CollectOpening(node: Node, reg: Registry) returns (outcome: Outcome, head: nat)
    requires NodeDecodable(node) && reg.Valid()
    modifies reg
    ensures reg.Valid() && reg.initial == old(reg.initial)
    ensures reg.history == old(reg.history) + OpeningWrites(node)
    ensures outcome == CycleOutcome(node)
    ensures outcome == Collected ==> head == Head(node)
  {
    ghost var h0 := reg.history;
    head := 0;
    if node.chainId.None? {
      assert reg.history == h0 + [];
      return ChainIdFailed, head;
    }
    var chainId := node.chainId.value;
    if node.clientVersion.None? {
      assert reg.history == h0 + [];
      return ClientVersionFailed, head;
    }
    var clientVersion := node.clientVersion.value;
    var chainIdDecimal := HexToUint64(chainId);
    reg.Set(Series(ChainInfo, [FormatDecimal(chainIdDecimal), clientVersion, Network]), 1.0);
    ghost var h1 := reg.history;
    outcome, head := CollectHead(node, reg);
    assert reg.history == h0 + [ChainInfoWrite(chainId, clientVersion)] + reg.history[|h1|..];
  }

  /**
   * An early return keeps only the writes made before the failed call:
   * nothing when chain id or client version fails, the chain-info series
   * alone when the head number fails, and the head number too when the gas
   * price fails. An opening that succeeds writes chain info, the head
   * number, the gas price in wei and in gwei, and then the max priority fee
   * when that call succeeds.
   */
  lemma OpeningWritesByOutcome(node: Node)
    requires NodeDecodable(node)
    ensures CycleOutcome(node) in {ChainIdFailed, ClientVersionFailed} ==> OpeningWrites(node) == []
    ensures CycleOutcome(node) == BlockNumberFailed ==>
              OpeningWrites(node) == [ChainInfoWrite(node.chainId.value, node.clientVersion.value)]
    ensures CycleOutcome(node) == GasPriceFailed ==>
              OpeningWrites(node) == [ChainInfoWrite(node.chainId.value, node.clientVersion.value),
                                      Write(Gauge(CurrentBlockNumber), HexToUint64(node.blockNumber.value) as real)]
    ensures CycleOutcome(node) == Collected ==>
              var price := HexToUint64(node.gasPrice.value);
              OpeningWrites(node)
              == [ChainInfoWrite(node.chainId.value, node.clientVersion.value),
                  Write(Gauge(CurrentBlockNumber), Head(node) as real),
                  Write(Gauge(GasPriceWei), price as real),
                  Write(Gauge(GasPriceGwei), price as real / 1000000000.0)]
                 + PriorityFeeWrites(node)
  {
    if CycleOutcome(node) == Collected {
      OpeningWritesCollected(node);
    }
  }

  /** The writes of an opening that succeeds. */
  lemma OpeningWritesCollected(node: Node)
    requires NodeDecodable(node) && CycleOutcome(node) == Collected
    ensures OpeningWrites(node)
            == [ChainInfoWrite(node.chainId.value, node.clientVersion.value)]
               + ([Write(Gauge(CurrentBlockNumber), Head(node) as real)]
                  + PriceWrites(node, HexToUint64(node.gasPrice.value)))
  {
  }

  /** The opening writes only its own five metrics. */
  lemma OpeningUntouched(node: Node, m: Metric)
    requires NodeDecodable(node)
    requires m !in {ChainInfo, CurrentBlockNumber, GasPriceWei, GasPriceGwei, MaxPriorityFeePerGas}
    ensures Untouched(OpeningWrites(node), m)
  {
  }

  /**
   * An opening that fails changes only what it set before the failed call:
   * nothing when chain id or client version fails, the chain-info series
   * when the head number fails, and the head number as well when the gas
   * price fails.
   */
  lemma AbortedOpening(g: map<Series, real>, node: Node)
    requires NodeDecodable(node)
    ensures CycleOutcome(node) in {ChainIdFailed, ClientVersionFailed} ==> Apply(g, OpeningWrites(node)) == g
    ensures CycleOutcome(node) == BlockNumberFailed ==>
              var info := ChainInfoWrite(node.chainId.value, node.clientVersion.value);
              Apply(g, OpeningWrites(node)) == g[info.series := 1.0]
    ensures CycleOutcome(node) == GasPriceFailed ==>
              var info := ChainInfoWrite(node.chainId.value, node.clientVersion.value);
              Apply(g, OpeningWrites(node))
              == g[info.series := 1.0][Gauge(CurrentBlockNumber) := HexToUint64(node.blockNumber.value) as real]
  {
    OpeningWritesByOutcome(node);
    var ws := OpeningWrites(node);
    if CycleOutcome(node) == GasPriceFailed {
      assert ws[..1] == [ws[0]] && ws[..1][..0] == [];
      assert Apply(g, ws[..1]) == g[ws[0].series := ws[0].value];
      assert Apply(g, ws) == Apply(g, ws[..1])[ws[1].series := ws[1].value];
    } else if CycleOutcome(node) == BlockNumberFailed {
      assert ws[..0] == [];
    }
  }
}
