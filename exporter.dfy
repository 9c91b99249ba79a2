/**
 * The window exporter (docker-apps/monad-explorer/exporter/main.go): after
 * the opening, one collection cycle folds the trailing window of 5 blocks
 * into window totals and sets the aggregate gauges from them.
 *
 * The Go uint64 accumulators wrap: the specification keeps the exact sums
 * (`WindowTotals`) and the accumulators hold them modulo 2^64 (`Wrapped`).
 * The Go accumulator variables are the fields of one `Totals` record here.
 * The float64 gauges are exact reals.
 */
module Exporter {
  import opened Wrappers
  import opened Quantity
  import opened Chain
  import opened Metrics
  import opened Cycle

  /** `blocksToAnalyze`. */
  const WindowSize: nat := 5


  /** The window accumulators. */
  datatype Totals = Totals(
    txs: nat,
    gasUsed: nat,
    gasLimit: nat,
    calls: nat,
    transfers: nat,
    uniqueAddrs: nat,   // sum over blocks of each block's distinct-address count
    value: nat,
    gasPrice: nat,
    gasPriceCount: nat,
    kinds: KindCounts)

  const NoTotals: Totals := Totals(0, 0, 0, 0, 0, 0, 0, 0, 0, NoKinds)

  /** The accumulators the Go code holds for exact totals t: its four uint64 sums wrap. */
  function Wrapped(t: Totals): Totals {
    t.(gasUsed := t.gasUsed % U64, gasLimit := t.gasLimit % U64,
       value := t.value % U64, gasPrice := t.gasPrice % U64)
  }

  /** Folding one transaction: its gas price (with the fallback), value and kind. */
  function FoldTx(t: Totals, tx: Transaction): (r: Totals)
    requires TxDecodable(tx)
    ensures r.gasPriceCount == t.gasPriceCount + 1 && r.kinds.Total() == t.kinds.Total() + 1
    ensures r.kinds.Count(Classify(tx.txType)) == t.kinds.Count(Classify(tx.txType)) + 1
    ensures r.gasPrice >= t.gasPrice && r.value >= t.value
    ensures r.txs == t.txs && r.gasUsed == t.gasUsed && r.gasLimit == t.gasLimit
    ensures r.calls == t.calls && r.transfers == t.transfers && r.uniqueAddrs == t.uniqueAddrs
  {
    t.(gasPrice := t.gasPrice + TxGasPrice(tx),
       gasPriceCount := t.gasPriceCount + 1,
       value := t.value + HexToUint64(tx.value),
       kinds := t.kinds.Increment(Classify(tx.txType)))
  }

  function FoldTxs(t: Totals, txs: seq<Transaction>): Totals
    requires AllTxDecodable(txs)
    decreases |txs|
  {
    if txs == [] then t else FoldTx(FoldTxs(t, txs[..|txs| - 1]), txs[|txs| - 1])
  }

  /** The block-level sums, added before the transactions are folded. */
  function FoldHeader(t: Totals, b: Block): Totals
    requires BlockDecodable(b)
  {
    t.(gasUsed := t.gasUsed + HexToUint64(b.gasUsed),
       gasLimit := t.gasLimit + HexToUint64(b.gasLimit),
       txs := t.txs + |b.transactions|)
  }

  /** Folding a fetched block: its sums, its transactions, then its call, transfer and address counts. */
  function FoldBlock(t: Totals, b: Block): Totals
    requires BlockDecodable(b)
  {
    var t' := FoldTxs(FoldHeader(t, b), b.transactions);
    t'.(calls := t'.calls + CallCount(b.transactions),
        transfers := t'.transfers + TransferCount(b.transactions),
        uniqueAddrs := t'.uniqueAddrs + |AddressesOf(b.transactions)|)
  }

  /** The exact totals after the first i iterations of the window loop; a block whose fetch failed is skipped. */
  function WindowTotals(node: Node, head: nat, i: nat): (r: Totals)
    requires NodeDecodable(node)
    ensures r.calls + r.transfers == r.txs && r.gasPriceCount == r.txs
    decreases i
  {
    if i == 0 then NoTotals
    else
      match node.fullBlock(BlockAt(head, i - 1))
      case None => WindowTotals(node, head, i - 1)
      case Some(b) =>
        var prev := WindowTotals(node, head, i - 1);
        BlockTxsDecodable(b);
        FoldTxsCounts(FoldHeader(prev, b), b.transactions);
        CallsPlusTransfers(b.transactions);
        FoldBlock(prev, b)
  }

  // ----- The writes of one cycle, in order -----

  /** The "current block" point samples, from the head block's decoded fields. */
  function CurrentBlockWrites(gasUsed: nat, gasLimit: nat, size: nat, txCount: nat, timestamp: nat): seq<Write> {
    CurrentStatWrites(gasUsed, gasLimit, size, txCount)
    + (if gasLimit > 0 then [Write(Gauge(CurrentBlockGasUtilization), Percent(gasUsed, gasLimit))] else [])
    + [Write(Gauge(LastBlockTimestamp), timestamp as real)]
  }

  function CurrentStatWrites(gasUsed: nat, gasLimit: nat, size: nat, txCount: nat): seq<Write> {
    [Write(Gauge(CurrentBlockGasUsed), gasUsed as real),
     Write(Gauge(CurrentBlockGasLimit), gasLimit as real),
     Write(Gauge(CurrentBlockSize), size as real),
     Write(Gauge(CurrentBlockTxCount), txCount as real)]
  }

  function HeadBlockWrites(b: Block): seq<Write>
    requires BlockDecodable(b)
  {
    CurrentBlockWrites(HexToUint64(b.gasUsed), HexToUint64(b.gasLimit), HexToUint64(b.size),
                       |b.transactions|, HexToUint64(b.timestamp))
  }

  /** The writes the window loop makes: the current-block gauges, when the head block was fetched. */
  function LoopWrites(node: Node, head: nat): seq<Write>
    requires NodeDecodable(node)
  {
    match node.fullBlock(BlockAt(head, 0))
    case None => []
    case Some(b) => HeadBlockWrites(b)
  }

  /** Average utilisation, written only when the accumulated gas limit is non-zero. */
  function UtilizationWrites(acc: Totals): seq<Write> {
    if acc.gasLimit > 0 then [Write(Gauge(AvgGasUtilization), Percent(acc.gasUsed, acc.gasLimit))] else []
  }

  /** Average gas price, written only when some price was counted. */
  function AvgGasPriceWrites(acc: Totals): seq<Write> {
    if acc.gasPriceCount > 0 then [Write(Gauge(AvgGasPrice), acc.gasPrice as real / acc.gasPriceCount as real)] else []
  }

  /** The per-block address average and the window's call, transfer and value totals. */
  function CountWrites(acc: Totals): seq<Write> {
    [Write(Gauge(AvgUniqueAddresses), acc.uniqueAddrs as real / WindowSize as real),
     Write(Gauge(ContractCallsLast10), acc.calls as real),
     Write(Gauge(SimpleTransfersLast10), acc.transfers as real),
     Write(Gauge(ValueTransferredLast10), acc.value as real)]
  }

  /** The aggregates derived from the window accumulators. */
  function AggregateWrites(acc: Totals): seq<Write> {
    [Write(Gauge(AvgTxPerBlock), acc.txs as real / WindowSize as real)]
    + UtilizationWrites(acc)
    + AvgGasPriceWrites(acc)
    + CountWrites(acc)
  }

  function KindWrite(kinds: KindCounts, k: Kind): seq<Write> {
    if kinds.Has(k) then [Write(Series(TransactionTypesLast10, [KindLabel(k)]), kinds.Count(k) as real)] else []
  }

  /** One write per kind counted this cycle, in the order of ks. */
  function KindWrites(kinds: KindCounts, ks: seq<Kind>): seq<Write>
    decreases |ks|
  {
    if ks == [] then [] else KindWrites(kinds, ks[..|ks| - 1]) + KindWrite(kinds, ks[|ks| - 1])
  }

  /** Block time from the oldest and the head timestamps, and TPS from it. */
  function BlockTimeWrites(node: Node, head: nat, txs: nat): seq<Write>
    requires NodeDecodable(node)
  {
    match node.header(BlockAt(head, WindowSize - 1))
    case None => []
    case Some(first) =>
      match node.header(head)
      case None => []
      case Some(current) =>
        var ft, ct := HexToUint64(first), HexToUint64(current);
        if ct > ft then
          var bt := (ct - ft) as real / (WindowSize - 1) as real;
          [Write(Gauge(AvgBlockTime), bt)]
          + (if bt > 0.0 then [Write(Gauge(TransactionsPerSecond), (txs as real / WindowSize as real) / bt)] else [])
        else []
  }

  /**
   * The writes of one whole cycle, in the order the Go code makes them: the
   * opening and, when it succeeds, the window loop, the aggregates, the
   * kinds and the block time.
   */
  function CycleWrites(node: Node): seq<Write>
    requires NodeDecodable(node)
  {
    if CycleOutcome(node) == Collected then
      var head := Head(node);
      var acc := Wrapped(WindowTotals(node, head, WindowSize));
      OpeningWrites(node) + LoopWrites(node, head) + AggregateWrites(acc)
      + KindWrites(acc.kinds, AllKinds) + BlockTimeWrites(node, head, acc.txs)
    else OpeningWrites(node)
  }

  // ----- The collection cycle -----

  lemma FoldTxsStep(t: Totals, txs: seq<Transaction>, j: nat)
    requires AllTxDecodable(txs) && j < |txs|
    ensures AllTxDecodable(txs[..j]) && AllTxDecodable(txs[..j + 1])
    ensures FoldTxs(t, txs[..j + 1]) == FoldTx(FoldTxs(t, txs[..j]), txs[j])
    ensures CallCount(txs[..j + 1]) == CallCount(txs[..j]) + if IsContractCall(txs[j].input) then 1 else 0
    ensures TransferCount(txs[..j + 1]) == TransferCount(txs[..j]) + if IsContractCall(txs[j].input) then 0 else 1
    ensures AddressesOf(txs[..j + 1]) == AddressesOf(txs[..j]) + TxAddresses(txs[j])
  {
    assert txs[..j + 1][..j] == txs[..j];
  }

  /**
   * One iteration of the transaction loop, in wrapped arithmetic, follows
   * the exact fold: mid is the accumulators after the price and value
   * updates, and the kind count comes last.
   */
  lemma WrappedFoldTx(u: Totals, acc: Totals, mid: Totals, tx: Transaction, price: nat, kind: Kind)
    requires TxDecodable(tx) && acc == Wrapped(u)
    requires price == TxGasPrice(tx) && kind == Classify(tx.txType)
    requires mid == acc.(gasPrice := (acc.gasPrice + price) % U64,
                         gasPriceCount := acc.gasPriceCount + 1,
                         value := (acc.value + HexToUint64(tx.value)) % U64)
    ensures mid.(kinds := mid.kinds.Increment(kind)) == Wrapped(FoldTx(u, tx))
  {
    AddWrap(u.gasPrice, price);
    AddWrap(u.value, HexToUint64(tx.value));
  }

  /** The accumulator updates of a block's own sums, in wrapped arithmetic, follow the exact fold. */
  lemma WrappedFoldHeader(t: Totals, acc: Totals, b: Block)
    requires BlockDecodable(b) && acc == Wrapped(t)
    ensures acc.(gasUsed := (acc.gasUsed + HexToUint64(b.gasUsed)) % U64,
                 gasLimit := (acc.gasLimit + HexToUint64(b.gasLimit)) % U64,
                 txs := acc.txs + |b.transactions|)
            == Wrapped(FoldHeader(t, b))
  {
    AddWrap(t.gasUsed, HexToUint64(b.gasUsed));
    AddWrap(t.gasLimit, HexToUint64(b.gasLimit));
  }

  /** After the transactions, the block's own counts complete the fold of the block. */
  lemma WrappedFoldBlock(t: Totals, acc: Totals, b: Block, calls: nat, transfers: nat, addrs: set<string>)
    requires BlockDecodable(b) && AllTxDecodable(b.transactions)
    requires acc == Wrapped(FoldTxs(FoldHeader(t, b), b.transactions))
    requires calls == CallCount(b.transactions) && transfers == TransferCount(b.transactions)
    requires addrs == AddressesOf(b.transactions)
    ensures acc.(calls := acc.calls + calls, transfers := acc.transfers + transfers,
                 uniqueAddrs := acc.uniqueAddrs + |addrs|)
            == Wrapped(FoldBlock(t, b))
  {
  }

  /** A block without transactions adds only its own sums. */
  lemma FoldEmptyBlock(t: Totals, b: Block)
    requires BlockDecodable(b) && b.transactions == []
    ensures FoldBlock(t, b) == FoldHeader(t, b)
  {
  }

  /**
   * The body of the inner loop: the transaction's price (with the
   * `maxFeePerGas` fallback) and value go into the wrapping sums, its kind
   * is counted, it counts as a call or a transfer, and its addresses join
   * the block's. u is the exact totals the incoming accumulators stand for.
   */
  method ScanTransaction(tx: Transaction, ghost u: Totals, acc0: Totals, calls0: nat, transfers0: nat, addrs0: set<string>)
    returns (acc: Totals, calls: nat, transfers: nat, addrs: set<string>)
    requires TxDecodable(tx) && acc0 == Wrapped(u)
    ensures acc == Wrapped(FoldTx(u, tx))
    ensures calls == calls0 + (if IsContractCall(tx.input) then 1 else 0)
    ensures transfers == transfers0 + (if IsContractCall(tx.input) then 0 else 1)
    ensures addrs == addrs0 + TxAddresses(tx)
  {
    var txGasPrice := TxGasPrice(tx);
    acc := acc0.(gasPrice := (acc0.gasPrice + txGasPrice) % U64,
                 gasPriceCount := acc0.gasPriceCount + 1,
                 value := (acc0.value + HexToUint64(tx.value)) % U64);
    addrs := addrs0 + TxAddresses(tx);
    var txType := Classify(tx.txType);
    WrappedFoldTx(u, acc0, acc, tx, txGasPrice, txType);
    acc := acc.(kinds := acc.kinds.Increment(txType));
    calls, transfers := calls0, transfers0;
    if IsContractCall(tx.input) {
      calls := calls + 1;
    } else {
      transfers := transfers + 1;
    }
  }

  /**
   * The inner loop over one block's transactions: it adds each price,
   * value and kind to the window accumulators and returns the block's call
   * and transfer counts and its set of addresses. t is the exact totals the
   * incoming accumulators stand for.
   */
  method ScanTransactions(txs: seq<Transaction>, ghost t: Totals, acc0: Totals)
    returns (acc: Totals, contractCallCount: nat, simpleTransferCount: nat, uniqueAddrs: set<string>)
    requires AllTxDecodable(txs) && acc0 == Wrapped(t)
    ensures acc == Wrapped(FoldTxs(t, txs))
    ensures contractCallCount == CallCount(txs) && simpleTransferCount == TransferCount(txs)
    ensures uniqueAddrs == AddressesOf(txs)
  {
    acc, contractCallCount, simpleTransferCount, uniqueAddrs := acc0, 0, 0, {};
    var j := 0;
    while j < |txs|
      invariant 0 <= j <= |txs| && AllTxDecodable(txs[..j])
      invariant acc == Wrapped(FoldTxs(t, txs[..j]))
      invariant contractCallCount == CallCount(txs[..j]) && simpleTransferCount == TransferCount(txs[..j])
      invariant uniqueAddrs == AddressesOf(txs[..j])
    {
      FoldTxsStep(t, txs, j);
      acc, contractCallCount, simpleTransferCount, uniqueAddrs :=
        ScanTransaction(txs[j], FoldTxs(t, txs[..j]), acc, contractCallCount, simpleTransferCount, uniqueAddrs);
      j := j + 1;
    }
    assert txs[..j] == txs;
  }

  /** The current-block gauges, set from the head block's fields. */
  method PublishCurrentBlock(reg: Registry, gasUsed: nat, gasLimit: nat, size: nat, txCount: nat, timestamp: nat)
    requires reg.Valid()
    modifies reg
    ensures reg.Valid() && reg.initial == old(reg.initial)
    ensures reg.history == old(reg.history) + CurrentBlockWrites(gasUsed, gasLimit, size, txCount, timestamp)
  {
    PublishCurrentStats(reg, gasUsed, gasLimit, size, txCount);
    ghost var h4 := reg.history;
    if gasLimit > 0 {
      reg.Set(Gauge(CurrentBlockGasUtilization), Percent(gasUsed, gasLimit));
    } else {
      assert reg.history == h4 + [];
    }
    reg.Set(Gauge(LastBlockTimestamp), timestamp as real);
  }

  method PublishCurrentStats(reg: Registry, gasUsed: nat, gasLimit: nat, size: nat, txCount: nat)
    requires reg.Valid()
    modifies reg
    ensures reg.Valid() && reg.initial == old(reg.initial)
    ensures reg.history == old(reg.history) + CurrentStatWrites(gasUsed, gasLimit, size, txCount)
  {
    ghost var h := reg.history;
    reg.Set(Gauge(CurrentBlockGasUsed), gasUsed as real);
    ghost var h1 := reg.history;
    reg.Set(Gauge(CurrentBlockGasLimit), gasLimit as real);
    ghost var h2 := reg.history;
    reg.Set(Gauge(CurrentBlockSize), size as real);
    ghost var h3 := reg.history;
    reg.Set(Gauge(CurrentBlockTxCount), txCount as real);
    AppendFour(h, h1[|h|], h2[|h1|], h3[|h2|], reg.history[|h3|], h1, h2, h3, reg.history);
  }

  /**
   * One fetched block of the window loop: its gas sums and transaction count,
   * then (when it has transactions) the transaction loop and the block's call,
   * transfer and distinct-address counts.
   */
  method ScanBlock(block: Block, ghost t0: Totals, acc0: Totals) returns (acc: Totals)
    requires BlockDecodable(block) && acc0 == Wrapped(t0)
    ensures acc == Wrapped(FoldBlock(t0, block))
  {
    BlockTxsDecodable(block);
    var gasUsed := HexToUint64(block.gasUsed);
    var gasLimit := HexToUint64(block.gasLimit);
    var txCount := |block.transactions|;
    WrappedFoldHeader(t0, acc0, block);
    acc := acc0.(gasUsed := (acc0.gasUsed + gasUsed) % U64,
                 gasLimit := (acc0.gasLimit + gasLimit) % U64,
                 txs := acc0.txs + txCount);

    ghost var t1 := FoldHeader(t0, block);
    if txCount > 0 {
      var contractCallCount, simpleTransferCount, uniqueAddrs;
      acc, contractCallCount, simpleTransferCount, uniqueAddrs := ScanTransactions(block.transactions, t1, acc);
      WrappedFoldBlock(t0, acc, block, contractCallCount, simpleTransferCount, uniqueAddrs);
      acc := acc.(calls := acc.calls + contractCallCount,
                  transfers := acc.transfers + simpleTransferCount,
                  uniqueAddrs := acc.uniqueAddrs + |uniqueAddrs|);
    } else {
      FoldEmptyBlock(t0, block);
    }
  }

  /**
   * One iteration of the window loop: block head-i is fetched (a failed fetch
   * skips it) and folded into the accumulators; the head block also sets the
   * current-block gauges.
   */
  method ScanStep(node: Node, head: nat, i: nat, reg: Registry, acc0: Totals) returns (acc: Totals)
    requires NodeDecodable(node) && reg.Valid()
    requires acc0 == Wrapped(WindowTotals(node, head, i))
    modifies reg
    ensures reg.Valid() && reg.initial == old(reg.initial)
    ensures reg.history == old(reg.history) + (if i == 0 then LoopWrites(node, head) else [])
    ensures acc == Wrapped(WindowTotals(node, head, i + 1))
  {
    ghost var h := reg.history;
    var fetched := node.fullBlock(BlockAt(head, i));
    if fetched.None? {
      assert reg.history == h + (if i == 0 then LoopWrites(node, head) else []);
      return acc0;
    }
    var block := fetched.value;
    if i == 0 {
      PublishCurrentBlock(reg, HexToUint64(block.gasUsed), HexToUint64(block.gasLimit), HexToUint64(block.size),
                          |block.transactions|, HexToUint64(block.timestamp));
    }
    acc := ScanBlock(block, WindowTotals(node, head, i), acc0);
  }

  /** The window loop over blocks head, head-1, ..., head-4. */
  method ScanWindow(node: Node, head: nat, reg: Registry) returns (acc: Totals)
    requires NodeDecodable(node) && reg.Valid()
    modifies reg
    ensures reg.Valid() && reg.initial == old(reg.initial)
    ensures reg.history == old(reg.history) + LoopWrites(node, head)
    ensures acc == Wrapped(WindowTotals(node, head, WindowSize))
  {
    ghost var h, lw := reg.history, LoopWrites(node, head);
    acc := NoTotals;
    var i := 0;
    while i < WindowSize
      invariant 0 <= i <= WindowSize
      invariant reg.Valid() && reg.initial == old(reg.initial)
      invariant reg.history == h + (if i > 0 then lw else [])
      invariant acc == Wrapped(WindowTotals(node, head, i))
    {
      acc := ScanStep(node, head, i, reg, acc);
      i := i + 1;
    }
  }

  /** The derived aggregates, from the window accumulators (`blocksToAnalyze > 0` always holds). */
  method PublishAggregates(reg: Registry, acc: Totals)
    requires reg.Valid()
    modifies reg
    ensures reg.Valid() && reg.initial == old(reg.initial)
    ensures reg.history == old(reg.history) + AggregateWrites(acc)
  {
    ghost var h := reg.history;
    reg.Set(Gauge(AvgTxPerBlock), acc.txs as real / WindowSize as real);
    if acc.gasLimit > 0 {
      reg.Set(Gauge(AvgGasUtilization), Percent(acc.gasUsed, acc.gasLimit));
    }
    assert reg.history == h + [Write(Gauge(AvgTxPerBlock), acc.txs as real / WindowSize as real)] + UtilizationWrites(acc);
    if acc.gasPriceCount > 0 {
      reg.Set(Gauge(AvgGasPrice), acc.gasPrice as real / acc.gasPriceCount as real);
    }
    assert reg.history == h + [Write(Gauge(AvgTxPerBlock), acc.txs as real / WindowSize as real)]
                        + UtilizationWrites(acc) + AvgGasPriceWrites(acc);
    ghost var h2 := reg.history;
    reg.Set(Gauge(AvgUniqueAddresses), acc.uniqueAddrs as real / WindowSize as real);
    ghost var h3 := reg.history;
    reg.Set(Gauge(ContractCallsLast10), acc.calls as real);
    ghost var h4 := reg.history;
    reg.Set(Gauge(SimpleTransfersLast10), acc.transfers as real);
    ghost var h5 := reg.history;
    reg.Set(Gauge(ValueTransferredLast10), acc.value as real);
    AppendFour(h2, h3[|h2|], h4[|h3|], h5[|h4|], reg.history[|h5|], h3, h4, h5, reg.history);
    assert reg.history[|h2|..] == CountWrites(acc);
    AppendRegroup4(h, [Write(Gauge(AvgTxPerBlock), acc.txs as real / WindowSize as real)], UtilizationWrites(acc),
                   AvgGasPriceWrites(acc), reg.history[|h2|..]);
  }

  lemma KindWritesStep(kinds: KindCounts, ks: seq<Kind>, k: nat)
    requires k < |ks|
    ensures KindWrites(kinds, ks[..k + 1]) == KindWrites(kinds, ks[..k]) + KindWrite(kinds, ks[k])
  {
    assert ks[..k + 1][..k] == ks[..k];
  }

  /**
   * One series per kind counted this cycle; Go ranges over its map in an
   * unspecified order, which does not matter since the keys are distinct.
   */
  method PublishKinds(reg: Registry, txTypeCountTotal: KindCounts)
    requires reg.Valid()
    modifies reg
    ensures reg.Valid() && reg.initial == old(reg.initial)
    ensures reg.history == old(reg.history) + KindWrites(txTypeCountTotal, AllKinds)
  {
    ghost var h := reg.history;
    var k := 0;
    while k < |AllKinds|
      invariant 0 <= k <= |AllKinds|
      invariant reg.Valid() && reg.initial == old(reg.initial)
      invariant reg.history == h + KindWrites(txTypeCountTotal, AllKinds[..k])
    {
      KindWritesStep(txTypeCountTotal, AllKinds, k);
      AppendAssoc(h, KindWrites(txTypeCountTotal, AllKinds[..k]), KindWrite(txTypeCountTotal, AllKinds[k]));
      PublishKind(reg, txTypeCountTotal, AllKinds[k]);
      k := k + 1;
    }
    assert AllKinds[..k] == AllKinds;
  }

  /** `transactionTypes.WithLabelValues(txType).Set(count)` for one key of the kind map. */
  method PublishKind(reg: Registry, kinds: KindCounts, kind: Kind)
    requires reg.Valid()
    modifies reg
    ensures reg.Valid() && reg.initial == old(reg.initial)
    ensures reg.history == old(reg.history) + KindWrite(kinds, kind)
  {
    if kinds.Has(kind) {
      reg.Set(Series(TransactionTypesLast10, [KindLabel(kind)]), kinds.Count(kind) as real);
    } else {
      assert reg.history == old(reg.history) + [];
    }
  }

  /** Block time from the oldest and head timestamps (`blocksToAnalyze > 1` always holds), and TPS from it. */
  method PublishBlockTime(node: Node, head: nat, reg: Registry, totalTxs: nat)
    requires NodeDecodable(node) && reg.Valid()
    modifies reg
    ensures reg.Valid() && reg.initial == old(reg.initial)
    ensures reg.history == old(reg.history) + BlockTimeWrites(node, head, totalTxs)
  {
    var firstResult := node.header(BlockAt(head, WindowSize - 1));
    if firstResult.Some? {
      var firstTimestamp := HexToUint64(firstResult.value);
      var currentResult := node.header(head);
      if currentResult.Some? {
        var currentTimestamp := HexToUint64(currentResult.value);
        if currentTimestamp > firstTimestamp {
          var avgBlockTimeValue := (currentTimestamp - firstTimestamp) as real / (WindowSize - 1) as real;
          reg.Set(Gauge(AvgBlockTime), avgBlockTimeValue);
          if avgBlockTimeValue > 0.0 {
            var avgTxsPerBlock := totalTxs as real / WindowSize as real;
            reg.Set(Gauge(TransactionsPerSecond), avgTxsPerBlock / avgBlockTimeValue);
          }
        }
      }
    }
  }

  /**
   * `CollectMetrics`: one collection cycle against the node, writing into the
   * registry. The sleeps between fetches are no-ops here.
   */
  method CollectMetrics(node: Node, reg: Registry) returns (outcome: Outcome)
    requires NodeDecodable(node) && reg.Valid()
    modifies reg
    ensures reg.Valid() && reg.initial == old(reg.initial)
    ensures reg.history == old(reg.history) + CycleWrites(node)
    ensures reg.gauges == Apply(old(reg.gauges), CycleWrites(node))
    ensures outcome == CycleOutcome(node)
  {
    ghost var h0 := reg.history;
    ApplyAppend(reg.initial, h0, CycleWrites(node));
    var head;
    outcome, head := CollectOpening(node, reg);
    ghost var ow := OpeningWrites(node);
    if outcome != Collected {
      return;
    }
    ghost var w := Wrapped(WindowTotals(node, head, WindowSize));
    ghost var lw, aw := LoopWrites(node, head), AggregateWrites(w);
    ghost var kw, bw := KindWrites(w.kinds, AllKinds), BlockTimeWrites(node, head, w.txs);
    assert CycleWrites(node) == ow + lw + aw + kw + bw;

    var acc := ScanWindow(node, head, reg);
    PublishAggregates(reg, acc);
    PublishKinds(reg, acc.kinds);
    PublishBlockTime(node, head, reg, acc.txs);
    AppendRegroup(h0, ow, lw, aw, kw, bw);
  }

  // ----- Properties of a cycle -----

  /** The transaction fold counts each transaction once, and leaves the block-level sums alone. */
  lemma {:induction false} FoldTxsCounts(t: Totals, txs: seq<Transaction>)
    requires AllTxDecodable(txs)
    ensures FoldTxs(t, txs).txs == t.txs
    ensures FoldTxs(t, txs).calls == t.calls && FoldTxs(t, txs).transfers == t.transfers
    ensures FoldTxs(t, txs).uniqueAddrs == t.uniqueAddrs
    ensures FoldTxs(t, txs).gasPriceCount == t.gasPriceCount + |txs|
    ensures FoldTxs(t, txs).kinds.Total() == t.kinds.Total() + |txs|
    decreases |txs|
  {
    if txs != [] {
      var init := txs[..|txs| - 1];
      FoldTxsCounts(t, init);
      var u := FoldTxs(t, init);
      IncrementCounts(u.kinds, Classify(txs[|txs| - 1].txType), Legacy);
    }
  }

  /**
   * Conservation over the window: every transaction is a call or a transfer,
   * has exactly one kind and one counted price, and a block has at most two
   * distinct addresses per transaction.
   */
  lemma {:induction false} WindowConservation(node: Node, head: nat, i: nat)
    requires NodeDecodable(node)
    ensures WindowTotals(node, head, i).calls + WindowTotals(node, head, i).transfers == WindowTotals(node, head, i).txs
    ensures WindowTotals(node, head, i).kinds.Total() == WindowTotals(node, head, i).txs
    ensures WindowTotals(node, head, i).gasPriceCount == WindowTotals(node, head, i).txs
    ensures WindowTotals(node, head, i).uniqueAddrs <= 2 * WindowTotals(node, head, i).txs
    decreases i
  {
    if i > 0 {
      WindowConservation(node, head, i - 1);
      match node.fullBlock(BlockAt(head, i - 1))
      case None =>
      case Some(b) =>
        BlockTxsDecodable(b);
        FoldTxsCounts(FoldHeader(WindowTotals(node, head, i - 1), b), b.transactions);
        CallsPlusTransfers(b.transactions);
        AddressesBound(b.transactions);
    }
  }

  /** A cycle that gets past its opening writes the opening, the loop, the aggregates, the kinds and the block time. */
  lemma CycleParts(node: Node)
    requires NodeDecodable(node) && CycleOutcome(node) == Collected
    ensures var head := Head(node);
            var acc := Wrapped(WindowTotals(node, head, WindowSize));
            CycleWrites(node) == OpeningWrites(node) + LoopWrites(node, head) + AggregateWrites(acc)
                                 + KindWrites(acc.kinds, AllKinds) + BlockTimeWrites(node, head, acc.txs)
  {
  }


  lemma LoopUntouched(node: Node, head: nat, m: Metric)
    requires NodeDecodable(node)
    requires m !in {CurrentBlockGasUsed, CurrentBlockGasLimit, CurrentBlockSize, CurrentBlockTxCount,
                       CurrentBlockGasUtilization, LastBlockTimestamp}
    ensures Untouched(LoopWrites(node, head), m)
  {
  }

  lemma AggregateUntouched(acc: Totals, m: Metric)
    requires m !in {AvgTxPerBlock, AvgGasUtilization, AvgGasPrice, AvgUniqueAddresses,
                       ContractCallsLast10, SimpleTransfersLast10, ValueTransferredLast10}
    ensures Untouched(AggregateWrites(acc), m)
  {
  }

  lemma {:induction false} KindsUntouched(kinds: KindCounts, ks: seq<Kind>, m: Metric)
    requires m != TransactionTypesLast10
    ensures Untouched(KindWrites(kinds, ks), m)
    decreases |ks|
  {
    if ks != [] {
      KindsUntouched(kinds, ks[..|ks| - 1], m);
      UntouchedConcat(KindWrites(kinds, ks[..|ks| - 1]), KindWrite(kinds, ks[|ks| - 1]), m);
    }
  }

  lemma BlockTimeUntouched(node: Node, head: nat, txs: nat, m: Metric)
    requires NodeDecodable(node) && m !in {AvgBlockTime, TransactionsPerSecond}
    ensures Untouched(BlockTimeWrites(node, head, txs), m)
  {
  }

  /** The exact window totals of a cycle that gets past its opening. */
  function CycleTotals(node: Node): Totals
    requires NodeDecodable(node) && CycleOutcome(node) == Collected
  {
    WindowTotals(node, Head(node), WindowSize)
  }

  /** An aggregate gauge is written by the aggregate part of the cycle only. */
  lemma AggregateLastWrite(node: Node, s: Series)
    requires NodeDecodable(node) && CycleOutcome(node) == Collected
    requires s.metric in {AvgTxPerBlock, AvgGasUtilization, AvgGasPrice, AvgUniqueAddresses,
                        ContractCallsLast10, SimpleTransfersLast10, ValueTransferredLast10}
    ensures LastWrite(CycleWrites(node), s) == LastWrite(AggregateWrites(Wrapped(CycleTotals(node))), s)
  {
    var head := Head(node);
    var acc := Wrapped(CycleTotals(node));
    CycleParts(node);
    var o, l, a := OpeningWrites(node), LoopWrites(node, head), AggregateWrites(acc);
    var k, b := KindWrites(acc.kinds, AllKinds), BlockTimeWrites(node, head, acc.txs);
    OpeningUntouched(node, s.metric);
    LastWriteUntouched(o, s);
    LoopUntouched(node, head, s.metric);
    LastWriteUntouched(l, s);
    KindsUntouched(acc.kinds, AllKinds, s.metric);
    LastWriteUntouched(k, s);
    BlockTimeUntouched(node, head, acc.txs, s.metric);
    LastWriteUntouched(b, s);
    LastWriteFive(o, l, a, k, b, s);
  }

  /** The three averages the aggregates start with, the last two guarded. */
  lemma AggregateAverages(acc: Totals)
    ensures LastWrite(AggregateWrites(acc), Gauge(AvgTxPerBlock)) == Some(acc.txs as real / WindowSize as real)
    ensures LastWrite(AggregateWrites(acc), Gauge(AvgGasUtilization))
            == if acc.gasLimit > 0 then Some(Percent(acc.gasUsed, acc.gasLimit)) else None
    ensures LastWrite(AggregateWrites(acc), Gauge(AvgGasPrice))
            == if acc.gasPriceCount > 0 then Some(acc.gasPrice as real / acc.gasPriceCount as real) else None
  {
    AggregateTxAverage(acc);
    AggregateUtilization(acc);
    AggregatePrice(acc);
  }

  lemma AggregateTxAverage(acc: Totals)
    ensures LastWrite(AggregateWrites(acc), Gauge(AvgTxPerBlock)) == Some(acc.txs as real / WindowSize as real)
  {
    var s := Gauge(AvgTxPerBlock);
    var x, u, p, c := [Write(s, acc.txs as real / WindowSize as real)],
                      UtilizationWrites(acc), AvgGasPriceWrites(acc), CountWrites(acc);
    LastWriteFour(x, u, p, c, s);
    LastWriteUntouched(c, s);
    LastWriteUntouched(p, s);
    LastWriteUntouched(u, s);
    LastWriteAt(x, 0, s);
  }

  lemma AggregateUtilization(acc: Totals)
    ensures LastWrite(AggregateWrites(acc), Gauge(AvgGasUtilization))
            == if acc.gasLimit > 0 then Some(Percent(acc.gasUsed, acc.gasLimit)) else None
  {
    var s := Gauge(AvgGasUtilization);
    var x, u, p, c := [Write(Gauge(AvgTxPerBlock), acc.txs as real / WindowSize as real)],
                      UtilizationWrites(acc), AvgGasPriceWrites(acc), CountWrites(acc);
    LastWriteFour(x, u, p, c, s);
    LastWriteUntouched(c, s);
    LastWriteUntouched(p, s);
    LastWriteUntouched(x, s);
    if u != [] {
      LastWriteAt(u, 0, s);
    }
  }

  lemma AggregatePrice(acc: Totals)
    ensures LastWrite(AggregateWrites(acc), Gauge(AvgGasPrice))
            == if acc.gasPriceCount > 0 then Some(acc.gasPrice as real / acc.gasPriceCount as real) else None
  {
    var s := Gauge(AvgGasPrice);
    var x, u, p, c := [Write(Gauge(AvgTxPerBlock), acc.txs as real / WindowSize as real)],
                      UtilizationWrites(acc), AvgGasPriceWrites(acc), CountWrites(acc);
    LastWriteFour(x, u, p, c, s);
    LastWriteUntouched(c, s);
    if p != [] {
      LastWriteAt(p, 0, s);
    } else {
      LastWriteUntouched(u, s);
      LastWriteUntouched(x, s);
    }
  }

  /** The four totals the aggregates end with. */
  lemma AggregateCounts(acc: Totals)
    ensures LastWrite(AggregateWrites(acc), Gauge(AvgUniqueAddresses)) == Some(acc.uniqueAddrs as real / WindowSize as real)
    ensures LastWrite(AggregateWrites(acc), Gauge(ContractCallsLast10)) == Some(acc.calls as real)
    ensures LastWrite(AggregateWrites(acc), Gauge(SimpleTransfersLast10)) == Some(acc.transfers as real)
    ensures LastWrite(AggregateWrites(acc), Gauge(ValueTransferredLast10)) == Some(acc.value as real)
  {
    var x, c := [Write(Gauge(AvgTxPerBlock), acc.txs as real / WindowSize as real)]
                + UtilizationWrites(acc) + AvgGasPriceWrites(acc), CountWrites(acc);
    LastWriteConcat(x, c, Gauge(AvgUniqueAddresses));
    LastWriteConcat(x, c, Gauge(ContractCallsLast10));
    LastWriteConcat(x, c, Gauge(SimpleTransfersLast10));
    LastWriteConcat(x, c, Gauge(ValueTransferredLast10));
    LastWriteAt(c, 0, Gauge(AvgUniqueAddresses));
    LastWriteAt(c, 1, Gauge(ContractCallsLast10));
    LastWriteAt(c, 2, Gauge(SimpleTransfersLast10));
    LastWriteAt(c, 3, Gauge(ValueTransferredLast10));
  }

  /**
   * After a completed cycle: the average transactions per block is the
   * window's transactions over 5; average utilisation is written exactly
   * when the (wrapped) gas-limit sum is non-zero; the average gas price
   * exactly when the window holds a transaction, and it is the wrapped
   * price sum over the number of transactions.
   */
  lemma GuardedAverages(node: Node)
    requires NodeDecodable(node) && CycleOutcome(node) == Collected
    ensures var t := CycleTotals(node);
            LastWrite(CycleWrites(node), Gauge(AvgTxPerBlock)) == Some(t.txs as real / WindowSize as real)
    ensures var acc := Wrapped(CycleTotals(node));
            LastWrite(CycleWrites(node), Gauge(AvgGasUtilization))
            == if acc.gasLimit > 0 then Some(Percent(acc.gasUsed, acc.gasLimit)) else None
    ensures var t := CycleTotals(node);
            LastWrite(CycleWrites(node), Gauge(AvgGasPrice))
            == if t.txs > 0 then Some((t.gasPrice % U64) as real / t.txs as real) else None
  {
    var t := CycleTotals(node);
    WindowConservation(node, Head(node), WindowSize);
    AggregateAverages(Wrapped(t));
    AggregateLastWrite(node, Gauge(AvgTxPerBlock));
    AggregateLastWrite(node, Gauge(AvgGasUtilization));
    AggregateLastWrite(node, Gauge(AvgGasPrice));
  }

  /**
   * After a completed cycle: the address average is the sum of the blocks'
   * distinct-address counts over 5 (at most twice the transactions over
   * 5), and calls plus transfers account for every transaction.
   */
  lemma WindowCountGauges(node: Node)
    requires NodeDecodable(node) && CycleOutcome(node) == Collected
    ensures var t := CycleTotals(node);
            && LastWrite(CycleWrites(node), Gauge(AvgUniqueAddresses)) == Some(t.uniqueAddrs as real / WindowSize as real)
            && t.uniqueAddrs <= 2 * t.txs
    ensures var t := CycleTotals(node);
            && LastWrite(CycleWrites(node), Gauge(ContractCallsLast10)) == Some(t.calls as real)
            && LastWrite(CycleWrites(node), Gauge(SimpleTransfersLast10)) == Some(t.transfers as real)
            && t.calls + t.transfers == t.txs
    ensures var t := CycleTotals(node);
            LastWrite(CycleWrites(node), Gauge(ValueTransferredLast10)) == Some((t.value % U64) as real)
  {
    var t := CycleTotals(node);
    WindowConservation(node, Head(node), WindowSize);
    AggregateCounts(Wrapped(t));
    AggregateLastWrite(node, Gauge(AvgUniqueAddresses));
    AggregateLastWrite(node, Gauge(ContractCallsLast10));
    AggregateLastWrite(node, Gauge(SimpleTransfersLast10));
    AggregateLastWrite(node, Gauge(ValueTransferredLast10));
  }

  /** A current-block gauge is written by the window loop only. */
  lemma LoopLastWrite(node: Node, s: Series)
    requires NodeDecodable(node) && CycleOutcome(node) == Collected
    requires s.metric in {CurrentBlockGasUsed, CurrentBlockGasLimit, CurrentBlockSize, CurrentBlockTxCount,
                          CurrentBlockGasUtilization, LastBlockTimestamp}
    ensures LastWrite(CycleWrites(node), s) == LastWrite(LoopWrites(node, Head(node)), s)
  {
    var head := Head(node);
    var acc := Wrapped(CycleTotals(node));
    CycleParts(node);
    var o, l, a := OpeningWrites(node), LoopWrites(node, head), AggregateWrites(acc);
    var k, b := KindWrites(acc.kinds, AllKinds), BlockTimeWrites(node, head, acc.txs);
    OpeningUntouched(node, s.metric);
    LastWriteUntouched(o, s);
    AggregateUntouched(acc, s.metric);
    LastWriteUntouched(a, s);
    KindsUntouched(acc.kinds, AllKinds, s.metric);
    LastWriteUntouched(k, s);
    BlockTimeUntouched(node, head, acc.txs, s.metric);
    LastWriteUntouched(b, s);
    LastWriteFive(o, l, a, k, b, s);
  }

  /** A transaction-type series is written by the kind part of the cycle only. */
  lemma KindsLastWrite(node: Node, s: Series)
    requires NodeDecodable(node) && CycleOutcome(node) == Collected
    requires s.metric == TransactionTypesLast10
    ensures LastWrite(CycleWrites(node), s)
            == LastWrite(KindWrites(Wrapped(CycleTotals(node)).kinds, AllKinds), s)
  {
    var head := Head(node);
    var acc := Wrapped(CycleTotals(node));
    CycleParts(node);
    var o, l, a := OpeningWrites(node), LoopWrites(node, head), AggregateWrites(acc);
    var k, b := KindWrites(acc.kinds, AllKinds), BlockTimeWrites(node, head, acc.txs);
    OpeningUntouched(node, s.metric);
    LastWriteUntouched(o, s);
    LoopUntouched(node, head, s.metric);
    LastWriteUntouched(l, s);
    AggregateUntouched(acc, s.metric);
    LastWriteUntouched(a, s);
    BlockTimeUntouched(node, head, acc.txs, s.metric);
    LastWriteUntouched(b, s);
    LastWriteFive(o, l, a, k, b, s);
  }

  /** The block-time gauges are written by the last part of the cycle only. */
  lemma BlockTimeLastWrite(node: Node, s: Series)
    requires NodeDecodable(node) && CycleOutcome(node) == Collected
    requires s.metric in {AvgBlockTime, TransactionsPerSecond}
    ensures LastWrite(CycleWrites(node), s)
            == LastWrite(BlockTimeWrites(node, Head(node), CycleTotals(node).txs), s)
  {
    var head := Head(node);
    var acc := Wrapped(CycleTotals(node));
    CycleParts(node);
    var o, l, a := OpeningWrites(node), LoopWrites(node, head), AggregateWrites(acc);
    var k, b := KindWrites(acc.kinds, AllKinds), BlockTimeWrites(node, head, acc.txs);
    OpeningUntouched(node, s.metric);
    LastWriteUntouched(o, s);
    LoopUntouched(node, head, s.metric);
    LastWriteUntouched(l, s);
    AggregateUntouched(acc, s.metric);
    LastWriteUntouched(a, s);
    KindsUntouched(acc.kinds, AllKinds, s.metric);
    LastWriteUntouched(k, s);
    LastWriteFive(o, l, a, k, b, s);
  }

  /** The current-block gauges from the head block's fields. */
  lemma HeadBlockValues(b: Block)
    requires BlockDecodable(b)
    ensures LastWrite(HeadBlockWrites(b), Gauge(CurrentBlockGasUsed)) == Some(HexToUint64(b.gasUsed) as real)
    ensures LastWrite(HeadBlockWrites(b), Gauge(CurrentBlockGasLimit)) == Some(HexToUint64(b.gasLimit) as real)
    ensures LastWrite(HeadBlockWrites(b), Gauge(CurrentBlockSize)) == Some(HexToUint64(b.size) as real)
    ensures LastWrite(HeadBlockWrites(b), Gauge(CurrentBlockTxCount)) == Some(|b.transactions| as real)
  {
    var gasUsed, gasLimit := HexToUint64(b.gasUsed), HexToUint64(b.gasLimit);
    var f := [Write(Gauge(CurrentBlockGasUsed), gasUsed as real),
              Write(Gauge(CurrentBlockGasLimit), gasLimit as real),
              Write(Gauge(CurrentBlockSize), HexToUint64(b.size) as real),
              Write(Gauge(CurrentBlockTxCount), |b.transactions| as real)];
    var r := (if gasLimit > 0 then [Write(Gauge(CurrentBlockGasUtilization), Percent(gasUsed, gasLimit))] else [])
             + [Write(Gauge(LastBlockTimestamp), HexToUint64(b.timestamp) as real)];
    AppendAssoc(f, r[..|r| - 1], [r[|r| - 1]]);
    assert r[..|r| - 1] + [r[|r| - 1]] == r;
    LastWriteConcat(f, r, Gauge(CurrentBlockGasUsed));
    LastWriteConcat(f, r, Gauge(CurrentBlockGasLimit));
    LastWriteConcat(f, r, Gauge(CurrentBlockSize));
    LastWriteConcat(f, r, Gauge(CurrentBlockTxCount));
    LastWriteAt(f, 0, Gauge(CurrentBlockGasUsed));
    LastWriteAt(f, 1, Gauge(CurrentBlockGasLimit));
    LastWriteAt(f, 2, Gauge(CurrentBlockSize));
    LastWriteAt(f, 3, Gauge(CurrentBlockTxCount));
  }

  /** The head block's utilisation (only when its gas limit is non-zero) and timestamp. */
  lemma HeadBlockTail(b: Block)
    requires BlockDecodable(b)
    ensures LastWrite(HeadBlockWrites(b), Gauge(CurrentBlockGasUtilization))
            == if HexToUint64(b.gasLimit) > 0 then Some(Percent(HexToUint64(b.gasUsed), HexToUint64(b.gasLimit))) else None
    ensures LastWrite(HeadBlockWrites(b), Gauge(LastBlockTimestamp)) == Some(HexToUint64(b.timestamp) as real)
  {
    var gasUsed, gasLimit := HexToUint64(b.gasUsed), HexToUint64(b.gasLimit);
    var f := [Write(Gauge(CurrentBlockGasUsed), gasUsed as real),
              Write(Gauge(CurrentBlockGasLimit), gasLimit as real),
              Write(Gauge(CurrentBlockSize), HexToUint64(b.size) as real),
              Write(Gauge(CurrentBlockTxCount), |b.transactions| as real)];
    var u := if gasLimit > 0 then [Write(Gauge(CurrentBlockGasUtilization), Percent(gasUsed, gasLimit))] else [];
    var ts := [Write(Gauge(LastBlockTimestamp), HexToUint64(b.timestamp) as real)];
    LastWriteOnly(f, u, ts, Gauge(CurrentBlockGasUtilization));
    LastWriteConcat(f + u, ts, Gauge(LastBlockTimestamp));
  }

  /** A current-block gauge after a completed cycle: what the head block's writes leave, or unwritten when it was not fetched. */
  lemma HeadBlockGauge(node: Node, s: Series)
    requires NodeDecodable(node) && CycleOutcome(node) == Collected
    requires s.metric in {CurrentBlockGasUsed, CurrentBlockGasLimit, CurrentBlockSize, CurrentBlockTxCount,
                          CurrentBlockGasUtilization, LastBlockTimestamp}
    ensures LastWrite(CycleWrites(node), s)
            == match node.fullBlock(Head(node))
               case None => None
               case Some(b) => LastWrite(HeadBlockWrites(b), s)
  {
    assert BlockAt(Head(node), 0) == Head(node);
    LoopLastWrite(node, s);
  }

  /**
   * After a completed cycle the current-block gauges are written exactly
   * when the head block was fetched, and then hold its fields; the
   * utilisation only when its gas limit is non-zero.
   */
  lemma HeadBlockGauges(node: Node)
    requires NodeDecodable(node) && CycleOutcome(node) == Collected
    ensures node.fullBlock(Head(node)).None? ==>
              && LastWrite(CycleWrites(node), Gauge(CurrentBlockGasUsed)) == None
              && LastWrite(CycleWrites(node), Gauge(CurrentBlockGasLimit)) == None
              && LastWrite(CycleWrites(node), Gauge(CurrentBlockSize)) == None
              && LastWrite(CycleWrites(node), Gauge(CurrentBlockTxCount)) == None
              && LastWrite(CycleWrites(node), Gauge(CurrentBlockGasUtilization)) == None
              && LastWrite(CycleWrites(node), Gauge(LastBlockTimestamp)) == None
    ensures node.fullBlock(Head(node)).Some? ==>
              var b := node.fullBlock(Head(node)).value;
              && LastWrite(CycleWrites(node), Gauge(CurrentBlockGasUsed)) == Some(HexToUint64(b.gasUsed) as real)
              && LastWrite(CycleWrites(node), Gauge(CurrentBlockGasLimit)) == Some(HexToUint64(b.gasLimit) as real)
              && LastWrite(CycleWrites(node), Gauge(CurrentBlockSize)) == Some(HexToUint64(b.size) as real)
              && LastWrite(CycleWrites(node), Gauge(CurrentBlockTxCount)) == Some(|b.transactions| as real)
              && LastWrite(CycleWrites(node), Gauge(CurrentBlockGasUtilization))
                 == (if HexToUint64(b.gasLimit) > 0 then Some(Percent(HexToUint64(b.gasUsed), HexToUint64(b.gasLimit))) else None)
              && LastWrite(CycleWrites(node), Gauge(LastBlockTimestamp)) == Some(HexToUint64(b.timestamp) as real)
  {
    HeadBlockGauge(node, Gauge(CurrentBlockGasUsed));
    HeadBlockGauge(node, Gauge(CurrentBlockGasLimit));
    HeadBlockGauge(node, Gauge(CurrentBlockSize));
    HeadBlockGauge(node, Gauge(CurrentBlockTxCount));
    HeadBlockGauge(node, Gauge(CurrentBlockGasUtilization));
    HeadBlockGauge(node, Gauge(LastBlockTimestamp));
    if node.fullBlock(Head(node)).Some? {
      HeadBlockValues(node.fullBlock(Head(node)).value);
      HeadBlockTail(node.fullBlock(Head(node)).value);
    }
  }

  /** The last write to a kind's series in the kind writes: its count, when it has one. */
  lemma {:induction false} KindWritesValue(kinds: KindCounts, ks: seq<Kind>, k: Kind)
    requires forall i, j :: 0 <= i < j < |ks| ==> ks[i] != ks[j]
    ensures LastWrite(KindWrites(kinds, ks), Series(TransactionTypesLast10, [KindLabel(k)]))
            == if k in ks && kinds.Has(k) then Some(kinds.Count(k) as real) else None
    decreases |ks|
  {
    if ks != [] {
      var init, last := ks[..|ks| - 1], ks[|ks| - 1];
      var s := Series(TransactionTypesLast10, [KindLabel(k)]);
      KindWritesValue(kinds, init, k);
      LastWriteConcat(KindWrites(kinds, init), KindWrite(kinds, last), s);
      assert k in ks <==> k in init || k == last;
      if k == last {
        assert k !in init;
      } else {
        assert KindLabel(last) != KindLabel(k);
      }
    }
  }

  /**
   * After a completed cycle a kind's series holds the kind's count in the
   * window when the window has such a transaction, and is not written
   * otherwise.
   */
  lemma KindGauges(node: Node, k: Kind)
    requires NodeDecodable(node) && CycleOutcome(node) == Collected
    ensures var kinds := CycleTotals(node).kinds;
            LastWrite(CycleWrites(node), Series(TransactionTypesLast10, [KindLabel(k)]))
            == if kinds.Has(k) then Some(kinds.Count(k) as real) else None
  {
    KindsLastWrite(node, Series(TransactionTypesLast10, [KindLabel(k)]));
    AllKindsValue(CycleTotals(node).kinds, k);
  }

  /** Each kind's series in the kind writes over all four kinds. */
  lemma AllKindsValue(kinds: KindCounts, k: Kind)
    ensures LastWrite(KindWrites(kinds, AllKinds), Series(TransactionTypesLast10, [KindLabel(k)]))
            == if kinds.Has(k) then Some(kinds.Count(k) as real) else None
  {
    assert k in AllKinds;
    KindWritesValue(kinds, AllKinds, k);
  }

  /** A kind absent from this cycle's window keeps its value from an earlier cycle, or stays absent. */
  lemma AbsentKindKept(g: map<Series, real>, node: Node, k: Kind)
    requires NodeDecodable(node) && CycleOutcome(node) == Collected
    requires !CycleTotals(node).kinds.Has(k)
    ensures var s := Series(TransactionTypesLast10, [KindLabel(k)]);
            && (s in Apply(g, CycleWrites(node)) <==> s in g)
            && (s in g ==> Apply(g, CycleWrites(node))[s] == g[s])
  {
    KindGauges(node, k);
    ApplyIsLastWrite(g, CycleWrites(node), Series(TransactionTypesLast10, [KindLabel(k)]));
  }

  /** Block time and TPS as the block-time part writes them. */
  lemma BlockTimeValues(node: Node, head: nat, txs: nat)
    requires NodeDecodable(node)
    ensures var ws := BlockTimeWrites(node, head, txs);
            var first, current := node.header(BlockAt(head, WindowSize - 1)), node.header(head);
            && (LastWrite(ws, Gauge(AvgBlockTime)).Some?
                <==> first.Some? && current.Some? && HexToUint64(current.value) > HexToUint64(first.value))
            && (LastWrite(ws, Gauge(AvgBlockTime)).Some? ==>
                  LastWrite(ws, Gauge(AvgBlockTime)).value
                  == (HexToUint64(current.value) - HexToUint64(first.value)) as real / (WindowSize - 1) as real)
            && (LastWrite(ws, Gauge(TransactionsPerSecond)).Some? <==> LastWrite(ws, Gauge(AvgBlockTime)).Some?)
            && (LastWrite(ws, Gauge(TransactionsPerSecond)).Some? ==>
                  && LastWrite(ws, Gauge(AvgBlockTime)).Some? && LastWrite(ws, Gauge(AvgBlockTime)).value > 0.0
                  && LastWrite(ws, Gauge(TransactionsPerSecond)).value
                  == (txs as real / WindowSize as real) / LastWrite(ws, Gauge(AvgBlockTime)).value)
  {
    var ws := BlockTimeWrites(node, head, txs);
    if |ws| == 2 {
      assert ws[..1] == [ws[0]];
    }
  }

  /**
   * After a completed cycle the block time is written exactly when both
   * timestamps were fetched and the head's is the later one, and then it is
   * their difference over 4; TPS is written exactly when the block time is
   * (a positive difference gives a positive block time), and it is the
   * average transactions per block over the block time.
   */
  lemma BlockTimeGauges(node: Node)
    requires NodeDecodable(node) && CycleOutcome(node) == Collected
    ensures var head := Head(node);
            var first, current := node.header(BlockAt(head, WindowSize - 1)), node.header(head);
            && (LastWrite(CycleWrites(node), Gauge(AvgBlockTime)).Some?
                <==> first.Some? && current.Some? && HexToUint64(current.value) > HexToUint64(first.value))
            && (LastWrite(CycleWrites(node), Gauge(AvgBlockTime)).Some? ==>
                  LastWrite(CycleWrites(node), Gauge(AvgBlockTime)).value
                  == (HexToUint64(current.value) - HexToUint64(first.value)) as real / (WindowSize - 1) as real)
    ensures LastWrite(CycleWrites(node), Gauge(TransactionsPerSecond)).Some?
            <==> LastWrite(CycleWrites(node), Gauge(AvgBlockTime)).Some?
    ensures LastWrite(CycleWrites(node), Gauge(TransactionsPerSecond)).Some? ==>
              && LastWrite(CycleWrites(node), Gauge(AvgBlockTime)).Some?
              && LastWrite(CycleWrites(node), Gauge(AvgBlockTime)).value > 0.0
              && LastWrite(CycleWrites(node), Gauge(TransactionsPerSecond)).value
              == (CycleTotals(node).txs as real / WindowSize as real)
                 / LastWrite(CycleWrites(node), Gauge(AvgBlockTime)).value
  {
    BlockTimeLastWrite(node, Gauge(AvgBlockTime));
    BlockTimeLastWrite(node, Gauge(TransactionsPerSecond));
    BlockTimeValues(node, Head(node), CycleTotals(node).txs);
  }

  /**
   * A cycle that returns early changes only what it set before the failed
   * call: nothing when chain id or client version fails, the chain-info
   * series when the head number fails, and the head number as well when the
   * gas price fails.
   */
  lemma AbortedCycle(g: map<Series, real>, node: Node)
    requires NodeDecodable(node)
    ensures CycleOutcome(node) in {ChainIdFailed, ClientVersionFailed} ==> Apply(g, CycleWrites(node)) == g
    ensures CycleOutcome(node) == BlockNumberFailed ==>
              var info := ChainInfoWrite(node.chainId.value, node.clientVersion.value);
              Apply(g, CycleWrites(node)) == g[info.series := 1.0]
    ensures CycleOutcome(node) == GasPriceFailed ==>
              var info := ChainInfoWrite(node.chainId.value, node.clientVersion.value);
              Apply(g, CycleWrites(node))
              == g[info.series := 1.0][Gauge(CurrentBlockNumber) := HexToUint64(node.blockNumber.value) as real]
  {
    AbortedOpening(g, node);
  }
}
