/**
 * The per-block explorer (docker-apps/monad-explorer/main.go): after the
 * opening, one collection cycle walks the 10 most recent blocks, publishes
 * one series per block (labelled by the block number in decimal), gathers
 * the gaps between consecutive block timestamps, and sets the average block
 * time and TPS from them.
 *
 * The Go uint64 sums wrap: the specification keeps the exact sums and the
 * published values are taken modulo 2^64. The float64 gauges are exact reals.
 */
module Explorer {
  import opened Wrappers
  import opened Quantity
  import opened Chain
  import opened Metrics
  import opened Cycle

  /** `blocksToAnalyze`. */
  const BlocksToAnalyze: nat := 10

  /** `blockNumStr`: the block number the i-th iteration asks for, in decimal. */
  function BlockLabel(head: nat, i: nat): string {
    FormatDecimal(BlockAt(head, i))
  }

  // ----- One block's transactions -----

  /** The exact sum of the transactions' gas prices (with the `maxFeePerGas` fallback). */
  function PriceSum(txs: seq<Transaction>): nat
    requires AllTxDecodable(txs)
    decreases |txs|
  {
    if txs == [] then 0 else PriceSum(txs[..|txs| - 1]) + TxGasPrice(txs[|txs| - 1])
  }

  /** The exact sum of the transactions' values. */
  function ValueSum(txs: seq<Transaction>): nat
    requires AllTxDecodable(txs)
    decreases |txs|
  {
    if txs == [] then 0 else ValueSum(txs[..|txs| - 1]) + HexToUint64(txs[|txs| - 1].value)
  }

  /** The locals of the transaction loop: the sums wrap, the extremes and counts are exact. */
  datatype BlockTally = BlockTally(
    totalGasPrice: nat, totalValue: nat, maxGas: nat, minGas: nat,
    calls: nat, transfers: nat, addrs: set<string>, kinds: KindCounts)

  const NoTally := BlockTally(0, 0, 0, 0, 0, 0, {}, NoKinds)

  /**
   * One iteration of the transaction loop on its locals: first says whether
   * this is the block's first transaction, whose price starts both extremes.
   */
  function TallyNext(t: BlockTally, first: bool, tx: Transaction): BlockTally
    requires TxDecodable(tx)
  {
    var p := TxGasPrice(tx);
    BlockTally((t.totalGasPrice + p) % U64, (t.totalValue + HexToUint64(tx.value)) % U64,
               if first || p > t.maxGas then p else t.maxGas,
               if first || p < t.minGas then p else t.minGas,
               t.calls + (if IsContractCall(tx.input) then 1 else 0),
               t.transfers + (if IsContractCall(tx.input) then 0 else 1),
               t.addrs + TxAddresses(tx), t.kinds.Increment(Classify(tx.txType)))
  }

  /** The loop's locals after the transactions. */
  function Tally(txs: seq<Transaction>): BlockTally
    requires AllTxDecodable(txs)
    decreases |txs|
  {
    if txs == [] then NoTally else TallyNext(Tally(txs[..|txs| - 1]), |txs| == 1, txs[|txs| - 1])
  }

  // ----- The writes of one cycle, in order -----

  /** `transactionTypes.WithLabelValues(txType, blockNumStr)` for one key of the block's kind map. */
  function KindWrite(kinds: KindCounts, k: Kind, blockLabel: string): seq<Write> {
    if kinds.Has(k) then [Write(Series(TransactionTypes, [KindLabel(k), blockLabel]), kinds.Count(k) as real)] else []
  }

  function KindWrites(kinds: KindCounts, ks: seq<Kind>, blockLabel: string): seq<Write>
    decreases |ks|
  {
    if ks == [] then [] else KindWrites(kinds, ks[..|ks| - 1], blockLabel) + KindWrite(kinds, ks[|ks| - 1], blockLabel)
  }

  /**
   * The per-block transaction series: the average price is the wrapped
   * price sum divided by the transaction count in integer arithmetic, and
   * the value total is wrapped too.
   */
  function TallyWrites(blockLabel: string, txCount: nat, t: BlockTally): seq<Write>
    requires txCount > 0
  {
    TallyPriceWrites(blockLabel, txCount, t) + TallyCountWrites(blockLabel, t) + KindWrites(t.kinds, AllKinds, blockLabel)
  }

  function TallyPriceWrites(blockLabel: string, txCount: nat, t: BlockTally): seq<Write>
    requires txCount > 0
  {
    [Write(Series(BlockAvgGasPrice, [blockLabel]), (t.totalGasPrice / txCount) as real),
     Write(Series(BlockMaxGasPrice, [blockLabel]), t.maxGas as real),
     Write(Series(BlockMinGasPrice, [blockLabel]), t.minGas as real)]
  }

  function TallyCountWrites(blockLabel: string, t: BlockTally): seq<Write> {
    [Write(Series(ContractCalls, [blockLabel]), t.calls as real),
     Write(Series(SimpleTransfers, [blockLabel]), t.transfers as real),
     Write(Series(UniqueAddresses, [blockLabel]), |t.addrs| as real),
     Write(Series(ValueTransferred, [blockLabel]), t.totalValue as real)]
  }

  /** The block's own series; utilisation only when its gas limit is non-zero, the timestamp only for the head. */
  function HeaderWrites(i: nat, blockLabel: string, b: Block): seq<Write>
    requires BlockDecodable(b)
  {
    BlockStatWrites(blockLabel, b) + UtilizationWrites(blockLabel, b) + TimestampWrites(i, b)
  }

  function BlockStatWrites(blockLabel: string, b: Block): seq<Write>
    requires BlockDecodable(b)
  {
    [Write(Series(BlockGasUsed, [blockLabel]), HexToUint64(b.gasUsed) as real),
     Write(Series(BlockGasLimit, [blockLabel]), HexToUint64(b.gasLimit) as real),
     Write(Series(BlockSize, [blockLabel]), HexToUint64(b.size) as real),
     Write(Series(BlockTxCount, [blockLabel]), |b.transactions| as real)]
  }

  function UtilizationWrites(blockLabel: string, b: Block): seq<Write>
    requires BlockDecodable(b)
  {
    var gasUsed, gasLimit := HexToUint64(b.gasUsed), HexToUint64(b.gasLimit);
    if gasLimit > 0 then [Write(Series(BlockGasUtilization, [blockLabel]), Percent(gasUsed, gasLimit))] else []
  }

  function TimestampWrites(i: nat, b: Block): seq<Write>
    requires BlockDecodable(b)
  {
    if i == 0 then [Write(Gauge(LastBlockTimestamp), HexToUint64(b.timestamp) as real)] else []
  }

  /** The transaction series of a block. */
  function TxWrites(blockLabel: string, b: Block): seq<Write>
    requires BlockDecodable(b)
  {
    BlockTxsDecodable(b);
    if b.transactions != [] then TallyWrites(blockLabel, |b.transactions|, Tally(b.transactions)) else []
  }

  /** The writes of iteration i for a fetched block b: the transaction series only when it has transactions. */
  function BlockWrites(i: nat, blockLabel: string, b: Block): seq<Write>
    requires BlockDecodable(b)
  {
    HeaderWrites(i, blockLabel, b) + TxWrites(blockLabel, b)
  }

  /** The writes of iteration i: none when the block's fetch fails. */
  function IterationWrites(node: Node, head: nat, i: nat): seq<Write>
    requires NodeDecodable(node)
  {
    match node.fullBlock(BlockAt(head, i))
    case None => []
    case Some(b) => BlockWrites(i, BlockLabel(head, i), b)
  }

  /** The writes of each of the first n iterations. */
  function Iterations(node: Node, head: nat, n: nat): seq<seq<Write>>
    requires NodeDecodable(node)
  {
    seq(n, (j: int) requires 0 <= j => IterationWrites(node, head, j))
  }

  /** The writes of the first n iterations. */
  function LoopWrites(node: Node, head: nat, n: nat): seq<Write>
    requires NodeDecodable(node)
  {
    Flatten(Iterations(node, head, n))
  }

  /** One more iteration appends its writes. */
  lemma LoopWritesNext(node: Node, head: nat, i: nat)
    requires NodeDecodable(node)
    ensures LoopWrites(node, head, i + 1) == LoopWrites(node, head, i) + IterationWrites(node, head, i)
  {
    assert Iterations(node, head, i + 1)[..i] == Iterations(node, head, i);
  }

  /**
   * What iteration i appends to `blockTimes`: for a fetched block after the
   * first, when the next newer block's header is fetched and its timestamp
   * is strictly later, the difference.
   */
  function BlockTimeEntry(node: Node, head: nat, i: nat): seq<nat>
    requires NodeDecodable(node)
  {
    if i == 0 then []
    else
      match node.fullBlock(BlockAt(head, i))
      case None => []
      case Some(b) =>
        match node.header(BlockAt(head, i - 1))
        case None => []
        case Some(prev) =>
          var timestamp, prevTimestamp := HexToUint64(b.timestamp), HexToUint64(prev);
          if timestamp < prevTimestamp then [prevTimestamp - timestamp] else []
  }

  /** `blockTimes` after the first n iterations. */
  function BlockTimes(node: Node, head: nat, n: nat): seq<nat>
    requires NodeDecodable(node)
    decreases n
  {
    if n == 0 then [] else BlockTimes(node, head, n - 1) + BlockTimeEntry(node, head, n - 1)
  }

  /** `totalTxs` after the first n iterations: the transactions of the fetched blocks. */
  function TotalTxs(node: Node, head: nat, n: nat): nat
    requires NodeDecodable(node)
    decreases n
  {
    if n == 0 then 0
    else
      TotalTxs(node, head, n - 1)
      + match node.fullBlock(BlockAt(head, n - 1))
        case None => 0
        case Some(b) => |b.transactions|
  }

  function Sum(s: seq<nat>): nat
    decreases |s|
  {
    if s == [] then 0 else Sum(s[..|s| - 1]) + s[|s| - 1]
  }

  /** Average block time, when some gap was found, and TPS from it when it is positive. */
  function BlockTimeWrites(blockTimes: seq<nat>, totalTxs: nat): seq<Write> {
    if |blockTimes| > 0 then
      var avg := Sum(blockTimes) as real / |blockTimes| as real;
      [Write(Gauge(AvgBlockTime), avg)]
      + (if avg > 0.0 then [Write(Gauge(TransactionsPerSecond), (totalTxs as real / BlocksToAnalyze as real) / avg)] else [])
    else []
  }

  /** The writes of one whole cycle, in the order the Go code makes them. */
  function CycleWrites(node: Node): seq<Write>
    requires NodeDecodable(node)
  {
    if CycleOutcome(node) == Collected then
      var head := Head(node);
      OpeningWrites(node) + LoopWrites(node, head, BlocksToAnalyze)
      + BlockTimeWrites(BlockTimes(node, head, BlocksToAnalyze), TotalTxs(node, head, BlocksToAnalyze))
    else OpeningWrites(node)
  }

  // ----- The collection cycle -----

  /**
   * The body of the transaction loop: the price (with its fallback) moves
   * the extremes and both wrapping sums; the addresses, kind and call or
   * transfer are counted.
   */
  method TallyTransaction(t: BlockTally, j: nat, tx: Transaction) returns (next: BlockTally)
    requires TxDecodable(tx)
    ensures next == TallyNext(t, j == 0, tx)
  {
    next := t;
    var txGasPrice := TxGasPrice(tx);
    if j == 0 || txGasPrice > next.maxGas {
      next := next.(maxGas := txGasPrice);
    }
    if j == 0 || txGasPrice < next.minGas {
      next := next.(minGas := txGasPrice);
    }
    next := next.(totalGasPrice := (next.totalGasPrice + txGasPrice) % U64,
                  totalValue := (next.totalValue + HexToUint64(tx.value)) % U64,
                  addrs := next.addrs + TxAddresses(tx),
                  kinds := next.kinds.Increment(Classify(tx.txType)));
    if IsContractCall(tx.input) {
      next := next.(calls := next.calls + 1);
    } else {
      next := next.(transfers := next.transfers + 1);
    }
  }

  /** The loop over one block's transactions. */
  method TallyTransactions(txs: seq<Transaction>) returns (t: BlockTally)
    requires AllTxDecodable(txs)
    ensures t == Tally(txs)
  {
    t := NoTally;
    var j := 0;
    while j < |txs|
      invariant 0 <= j <= |txs|
      invariant t == Tally(txs[..j])
    {
      assert txs[..j + 1][..j] == txs[..j];
      t := TallyTransaction(t, j, txs[j]);
      j := j + 1;
    }
    assert txs[..j] == txs;
  }

  /** The block's own series, then (for the head block) the last block timestamp. */
  method PublishHeader(reg: Registry, i: nat, blockNumStr: string, block: Block)
    requires BlockDecodable(block) && reg.Valid()
    modifies reg
    ensures reg.Valid() && reg.initial == old(reg.initial)
    ensures reg.history == old(reg.history) + HeaderWrites(i, blockNumStr, block)
  {
    ghost var h := reg.history;
    PublishStats(reg, blockNumStr, block);
    var gasUsed := HexToUint64(block.gasUsed);
    var gasLimit := HexToUint64(block.gasLimit);
    var timestamp := HexToUint64(block.timestamp);
    ghost var h4 := reg.history;
    if gasLimit > 0 {
      reg.Set(Series(BlockGasUtilization, [blockNumStr]), Percent(gasUsed, gasLimit));
    } else {
      assert reg.history == h4 + [];
    }
    ghost var h5 := reg.history;
    assert h5 == h4 + UtilizationWrites(blockNumStr, block);
    if i == 0 {
      reg.Set(Gauge(LastBlockTimestamp), timestamp as real);
    } else {
      assert reg.history == h5 + [];
    }
    assert reg.history == h5 + TimestampWrites(i, block);
  }

  /** Gas used, gas limit, size and transaction count under the block's number. */
  method PublishStats(reg: Registry, blockNumStr: string, block: Block)
    requires BlockDecodable(block) && reg.Valid()
    modifies reg
    ensures reg.Valid() && reg.initial == old(reg.initial)
    ensures reg.history == old(reg.history) + BlockStatWrites(blockNumStr, block)
  {
    ghost var h := reg.history;
    var gasUsed := HexToUint64(block.gasUsed);
    var gasLimit := HexToUint64(block.gasLimit);
    var size := HexToUint64(block.size);
    var txCount := |block.transactions|;
    reg.Set(Series(BlockGasUsed, [blockNumStr]), gasUsed as real);
    ghost var h1 := reg.history;
    reg.Set(Series(BlockGasLimit, [blockNumStr]), gasLimit as real);
    ghost var h2 := reg.history;
    reg.Set(Series(BlockSize, [blockNumStr]), size as real);
    ghost var h3 := reg.history;
    reg.Set(Series(BlockTxCount, [blockNumStr]), txCount as real);
    AppendFour(h, h1[|h|], h2[|h1|], h3[|h2|], reg.history[|h3|], h1, h2, h3, reg.history);
  }

  method PublishTallyPrices(reg: Registry, blockNumStr: string, txCount: nat, t: BlockTally)
    requires txCount > 0 && reg.Valid()
    modifies reg
    ensures reg.Valid() && reg.initial == old(reg.initial)
    ensures reg.history == old(reg.history) + TallyPriceWrites(blockNumStr, txCount, t)
  {
    reg.Set(Series(BlockAvgGasPrice, [blockNumStr]), (t.totalGasPrice / txCount) as real);
    reg.Set(Series(BlockMaxGasPrice, [blockNumStr]), t.maxGas as real);
    reg.Set(Series(BlockMinGasPrice, [blockNumStr]), t.minGas as real);
  }

  method PublishTallyCounts(reg: Registry, blockNumStr: string, t: BlockTally)
    requires reg.Valid()
    modifies reg
    ensures reg.Valid() && reg.initial == old(reg.initial)
    ensures reg.history == old(reg.history) + TallyCountWrites(blockNumStr, t)
  {
    ghost var h := reg.history;
    reg.Set(Series(ContractCalls, [blockNumStr]), t.calls as real);
    ghost var h1 := reg.history;
    reg.Set(Series(SimpleTransfers, [blockNumStr]), t.transfers as real);
    ghost var h2 := reg.history;
    reg.Set(Series(UniqueAddresses, [blockNumStr]), |t.addrs| as real);
    ghost var h3 := reg.history;
    reg.Set(Series(ValueTransferred, [blockNumStr]), t.totalValue as real);
    AppendFour(h, h1[|h|], h2[|h1|], h3[|h2|], reg.history[|h3|], h1, h2, h3, reg.history);
  }

  lemma KindWritesStep(kinds: KindCounts, ks: seq<Kind>, k: nat, blockLabel: string)
    requires k < |ks|
    ensures KindWrites(kinds, ks[..k + 1], blockLabel) == KindWrites(kinds, ks[..k], blockLabel) + KindWrite(kinds, ks[k], blockLabel)
  {
    assert ks[..k + 1][..k] == ks[..k];
  }

  /** `transactionTypes.WithLabelValues(txType, blockNumStr).Set(count)` for one key of the kind map. */
  method PublishKind(reg: Registry, kinds: KindCounts, kind: Kind, blockNumStr: string)
    requires reg.Valid()
    modifies reg
    ensures reg.Valid() && reg.initial == old(reg.initial)
    ensures reg.history == old(reg.history) + KindWrite(kinds, kind, blockNumStr)
  {
    if kinds.Has(kind) {
      reg.Set(Series(TransactionTypes, [KindLabel(kind), blockNumStr]), kinds.Count(kind) as real);
    } else {
      assert reg.history == old(reg.history) + [];
    }
  }

  /** One series per kind counted in the block (the Go map's order does not matter: the keys are distinct). */
  method PublishKinds(reg: Registry, txTypeCount: KindCounts, blockNumStr: string)
    requires reg.Valid()
    modifies reg
    ensures reg.Valid() && reg.initial == old(reg.initial)
    ensures reg.history == old(reg.history) + KindWrites(txTypeCount, AllKinds, blockNumStr)
  {
    ghost var h := reg.history;
    var k := 0;
    while k < |AllKinds|
      invariant 0 <= k <= |AllKinds|
      invariant reg.Valid() && reg.initial == old(reg.initial)
      invariant reg.history == h + KindWrites(txTypeCount, AllKinds[..k], blockNumStr)
    {
      KindWritesStep(txTypeCount, AllKinds, k, blockNumStr);
      AppendAssoc(h, KindWrites(txTypeCount, AllKinds[..k], blockNumStr), KindWrite(txTypeCount, AllKinds[k], blockNumStr));
      PublishKind(reg, txTypeCount, AllKinds[k], blockNumStr);
      k := k + 1;
    }
    assert AllKinds[..k] == AllKinds;
  }

  /** The transaction series of a block with transactions. */
  method PublishTally(reg: Registry, blockNumStr: string, txCount: nat, t: BlockTally)
    requires txCount > 0 && reg.Valid()
    modifies reg
    ensures reg.Valid() && reg.initial == old(reg.initial)
    ensures reg.history == old(reg.history) + TallyWrites(blockNumStr, txCount, t)
  {
    ghost var h := reg.history;
    PublishTallyPrices(reg, blockNumStr, txCount, t);
    PublishTallyCounts(reg, blockNumStr, t);
    PublishKinds(reg, t.kinds, blockNumStr);
    ghost var p, c, k := TallyPriceWrites(blockNumStr, txCount, t), TallyCountWrites(blockNumStr, t),
                         KindWrites(t.kinds, AllKinds, blockNumStr);
    AppendAssoc(h, p, c);
    AppendAssoc(h, p + c, k);
  }

  /** What the iteration appends to `blockTimes`: the gap to the next newer block, when its header is fetched and later. */
  method BlockTimeGap(node: Node, head: nat, i: nat, timestamp: nat, blockTimes0: seq<nat>) returns (blockTimes: seq<nat>)
    requires NodeDecodable(node) && node.fullBlock(BlockAt(head, i)).Some?
    requires timestamp == HexToUint64(node.fullBlock(BlockAt(head, i)).value.timestamp)
    ensures blockTimes == blockTimes0 + BlockTimeEntry(node, head, i)
  {
    blockTimes := blockTimes0;
    if i > 0 {
      var prevBlockNum := BlockAt(head, i - 1);
      var prevBlock := node.header(prevBlockNum);
      if prevBlock.Some? {
        var prevTimestamp := HexToUint64(prevBlock.value);
        if timestamp < prevTimestamp {
          blockTimes := blockTimes + [prevTimestamp - timestamp];
        }
      }
    }
    assert blockTimes0 + [] == blockTimes0;
  }

  /**
   * One iteration of the block loop: block head-i is fetched (a failed fetch
   * skips it), its series are published under its decimal number, the gap
   * to the newer block is recorded and its transactions are tallied.
   */
  method ScanStep(node: Node, head: nat, i: nat, reg: Registry, totalTxs0: nat, blockTimes0: seq<nat>)
    returns (totalTxs: nat, blockTimes: seq<nat>)
    requires NodeDecodable(node) && reg.Valid()
    requires totalTxs0 == TotalTxs(node, head, i) && blockTimes0 == BlockTimes(node, head, i)
    modifies reg
    ensures reg.Valid() && reg.initial == old(reg.initial)
    ensures reg.history == old(reg.history) + IterationWrites(node, head, i)
    ensures totalTxs == TotalTxs(node, head, i + 1) && blockTimes == BlockTimes(node, head, i + 1)
  {
    ghost var h := reg.history;
    var blockNum := BlockAt(head, i);
    var fetched := node.fullBlock(blockNum);
    if fetched.None? {
      assert reg.history == h + [] && blockTimes0 + [] == blockTimes0;
      return totalTxs0, blockTimes0;
    }
    var block := fetched.value;
    var blockNumStr := FormatDecimal(blockNum);
    PublishHeader(reg, i, blockNumStr, block);
    blockTimes := BlockTimeGap(node, head, i, HexToUint64(block.timestamp), blockTimes0);
    totalTxs := totalTxs0 + |block.transactions|;
    BlockTxsDecodable(block);
    if |block.transactions| > 0 {
      var t := TallyTransactions(block.transactions);
      PublishTally(reg, blockNumStr, |block.transactions|, t);
      AppendAssoc(h, HeaderWrites(i, blockNumStr, block), TallyWrites(blockNumStr, |block.transactions|, t));
    } else {
      assert HeaderWrites(i, blockNumStr, block) + [] == HeaderWrites(i, blockNumStr, block);
    }
  }

  /** The loop over blocks head, head-1, ..., head-9. */
  method ScanBlocks(node: Node, head: nat, reg: Registry) returns (totalTxs: nat, blockTimes: seq<nat>)
    requires NodeDecodable(node) && reg.Valid()
    modifies reg
    ensures reg.Valid() && reg.initial == old(reg.initial)
    ensures reg.history == old(reg.history) + LoopWrites(node, head, BlocksToAnalyze)
    ensures totalTxs == TotalTxs(node, head, BlocksToAnalyze) && blockTimes == BlockTimes(node, head, BlocksToAnalyze)
  {
    ghost var h := reg.history;
    totalTxs, blockTimes := 0, [];
    var i := 0;
    while i < BlocksToAnalyze
      invariant 0 <= i <= BlocksToAnalyze
      invariant reg.Valid() && reg.initial == old(reg.initial)
      invariant reg.history == h + LoopWrites(node, head, i)
      invariant totalTxs == TotalTxs(node, head, i) && blockTimes == BlockTimes(node, head, i)
    {
      LoopWritesNext(node, head, i);
      AppendAssoc(h, LoopWrites(node, head, i), IterationWrites(node, head, i));
      totalTxs, blockTimes := ScanStep(node, head, i, reg, totalTxs, blockTimes);
      i := i + 1;
    }
  }

  /** The mean of the recorded gaps. */
  method AverageBlockTime(blockTimes: seq<nat>) returns (avgBlockTime: real)
    requires |blockTimes| > 0
    ensures avgBlockTime == Sum(blockTimes) as real / |blockTimes| as real
  {
    var sum := 0.0;
    var k := 0;
    while k < |blockTimes|
      invariant 0 <= k <= |blockTimes|
      invariant sum == Sum(blockTimes[..k]) as real
    {
      assert blockTimes[..k + 1][..k] == blockTimes[..k];
      sum := sum + blockTimes[k] as real;
      k := k + 1;
    }
    assert blockTimes[..k] == blockTimes;
    avgBlockTime := sum / |blockTimes| as real;
  }

  /** Average block time when some gap was recorded, and TPS from it when it is positive. */
  method PublishBlockTime(reg: Registry, blockTimes: seq<nat>, totalTxs: nat)
    requires reg.Valid()
    modifies reg
    ensures reg.Valid() && reg.initial == old(reg.initial)
    ensures reg.history == old(reg.history) + BlockTimeWrites(blockTimes, totalTxs)
  {
    if |blockTimes| > 0 {
      var avgBlockTime := AverageBlockTime(blockTimes);
      reg.Set(Gauge(AvgBlockTime), avgBlockTime);
      if avgBlockTime > 0.0 {
        var avgTxsPerBlock := totalTxs as real / BlocksToAnalyze as real;
        reg.Set(Gauge(TransactionsPerSecond), avgTxsPerBlock / avgBlockTime);
      }
    } else {
      assert reg.history == old(reg.history) + [];
    }
  }

  /**
   * `CollectMetrics`: one collection cycle against the node, writing into the
   * registry.
   */
  method CollectMetrics(node: Node, reg: Registry) returns (outcome: Outcome)
    requires NodeDecodable(node) && reg.Valid()
    modifies reg
    ensures reg.Valid() && reg.initial == old(reg.initial)
    ensures reg.history == old(reg.history) + CycleWrites(node)
    ensures reg.gauges == Apply(old(reg.gauges), CycleWrites(node))
    ensures outcome == CycleOutcome(node)
  {
    ghost var h0 := reg.history;
    ApplyAppend(reg.initial, h0, CycleWrites(node));
    var currentBlock;
    outcome, currentBlock := CollectOpening(node, reg);
    if outcome != Collected {
      return;
    }
    ghost var ow, lw := OpeningWrites(node), LoopWrites(node, currentBlock, BlocksToAnalyze);
    var totalTxs, blockTimes := ScanBlocks(node, currentBlock, reg);
    PublishBlockTime(reg, blockTimes, totalTxs);
    ghost var bw := BlockTimeWrites(blockTimes, totalTxs);
    AppendAssoc(h0, ow, lw);
    AppendAssoc(h0, ow + lw, bw);
  }

  // ----- What a block's tally means -----

  lemma TallyUnfold(txs: seq<Transaction>)
    requires AllTxDecodable(txs) && txs != []
    ensures AllTxDecodable(txs[..|txs| - 1])
    ensures Tally(txs) == TallyNext(Tally(txs[..|txs| - 1]), |txs| == 1, txs[|txs| - 1])
  {
  }

  /** The extremes after one more transaction: the first price starts both. */
  lemma TallyExtremesStep(txs: seq<Transaction>)
    requires AllTxDecodable(txs) && txs != []
    ensures AllTxDecodable(txs[..|txs| - 1])
    ensures |txs| == 1 ==> Tally(txs).maxGas == TxGasPrice(txs[0]) && Tally(txs).minGas == TxGasPrice(txs[0])
    ensures |txs| > 1 ==>
      var m, p := Tally(txs[..|txs| - 1]).maxGas, TxGasPrice(txs[|txs| - 1]);
      Tally(txs).maxGas == if p > m then p else m
    ensures |txs| > 1 ==>
      var m, p := Tally(txs[..|txs| - 1]).minGas, TxGasPrice(txs[|txs| - 1]);
      Tally(txs).minGas == if p < m then p else m
  {
    assert Tally(txs) == TallyNext(Tally(txs[..|txs| - 1]), |txs| == 1, txs[|txs| - 1]);
  }

  /** The counts after one more transaction. */
  lemma TallyCountsStep(txs: seq<Transaction>)
    requires AllTxDecodable(txs) && txs != []
    ensures AllTxDecodable(txs[..|txs| - 1])
    ensures var t, u, tx := Tally(txs), Tally(txs[..|txs| - 1]), txs[|txs| - 1];
      && t.calls == u.calls + (if IsContractCall(tx.input) then 1 else 0)
      && t.transfers == u.transfers + (if IsContractCall(tx.input) then 0 else 1)
      && t.addrs == u.addrs + TxAddresses(tx)
      && t.kinds == u.kinds.Increment(Classify(tx.txType))
  {
    assert Tally(txs) == TallyNext(Tally(txs[..|txs| - 1]), |txs| == 1, txs[|txs| - 1]);
  }

  /** Adding x to a wrapped number and wrapping gives the wrapped exact sum. */
  lemma WrapStep(t: nat, exact: nat, x: nat)
    requires t == exact % U64
    ensures (t + x) % U64 == (exact + x) % U64
  {
    AddWrap(exact, x);
  }

  /** The published price sum is the exact sum of the prices, wrapped to 64 bits. */
  lemma {:induction false} TallyPriceSum(txs: seq<Transaction>)
    requires AllTxDecodable(txs)
    ensures Tally(txs).totalGasPrice == PriceSum(txs) % U64
    decreases |txs|
  {
    if txs != [] {
      var init, tx := txs[..|txs| - 1], txs[|txs| - 1];
      TallyUnfold(txs);
      TallyPriceSum(init);
      WrapStep(Tally(init).totalGasPrice, PriceSum(init), TxGasPrice(tx));
    }
  }

  /** The published value sum is the exact sum of the values, wrapped to 64 bits. */
  lemma {:induction false} TallyValueSum(txs: seq<Transaction>)
    requires AllTxDecodable(txs)
    ensures Tally(txs).totalValue == ValueSum(txs) % U64
    decreases |txs|
  {
    if txs != [] {
      var init, tx := txs[..|txs| - 1], txs[|txs| - 1];
      TallyUnfold(txs);
      TallyValueSum(init);
      WrapStep(Tally(init).totalValue, ValueSum(init), HexToUint64(tx.value));
    }
  }

  /** The counts: calls and transfers split the transactions, every one has a kind, the addresses are those touched. */
  lemma {:induction false} TallyCounts(txs: seq<Transaction>)
    requires AllTxDecodable(txs)
    ensures Tally(txs).calls == CallCount(txs) && Tally(txs).transfers == TransferCount(txs)
    ensures Tally(txs).calls + Tally(txs).transfers == |txs|
    ensures Tally(txs).addrs == AddressesOf(txs) && |Tally(txs).addrs| <= 2 * |txs|
    ensures Tally(txs).kinds.Total() == |txs|
    decreases |txs|
  {
    CallsPlusTransfers(txs);
    AddressesBound(txs);
    if txs != [] {
      var init, tx := txs[..|txs| - 1], txs[|txs| - 1];
      TallyCountsStep(txs);
      TallyCounts(init);
      IncrementCounts(Tally(init).kinds, Classify(tx.txType), Legacy);
    }
  }

  /** The kind map of a block counts its transactions of each kind. */
  lemma {:induction false} TallyKinds(txs: seq<Transaction>, k: Kind)
    requires AllTxDecodable(txs)
    ensures Tally(txs).kinds.Count(k) == KindCount(txs, k)
    decreases |txs|
  {
    if txs != [] {
      var init, tx := txs[..|txs| - 1], txs[|txs| - 1];
      TallyCountsStep(txs);
      TallyKinds(init, k);
      IncrementCounts(Tally(init).kinds, Classify(tx.txType), k);
    }
  }

  /** The maximum and minimum bound every price of a block. */
  lemma TallyBounds(txs: seq<Transaction>)
    requires AllTxDecodable(txs) && txs != []
    ensures forall j :: 0 <= j < |txs| ==> Tally(txs).minGas <= TxGasPrice(txs[j]) <= Tally(txs).maxGas
  {
    forall j | 0 <= j < |txs| ensures Tally(txs).minGas <= TxGasPrice(txs[j]) <= Tally(txs).maxGas {
      TallyBoundsAt(txs, j);
    }
  }

  lemma {:induction false} TallyBoundsAt(txs: seq<Transaction>, j: nat)
    requires AllTxDecodable(txs) && j < |txs|
    ensures Tally(txs).minGas <= TxGasPrice(txs[j]) <= Tally(txs).maxGas
    decreases |txs|
  {
    var init := txs[..|txs| - 1];
    TallyExtremesStep(txs);
    if j < |init| {
      TallyBoundsAt(init, j);
      assert txs[j] == init[j];
    }
  }

  /** The maximum and the minimum are prices of the block's transactions. */
  lemma {:induction false} TallyAttained(txs: seq<Transaction>)
    requires AllTxDecodable(txs) && txs != []
    ensures exists j :: 0 <= j < |txs| && TxGasPrice(txs[j]) == Tally(txs).maxGas
    ensures exists j :: 0 <= j < |txs| && TxGasPrice(txs[j]) == Tally(txs).minGas
    decreases |txs|
  {
    var init, n := txs[..|txs| - 1], |txs| - 1;
    TallyExtremesStep(txs);
    if n > 0 {
      TallyAttained(init);
      var a :| 0 <= a < n && TxGasPrice(init[a]) == Tally(init).maxGas;
      var b :| 0 <= b < n && TxGasPrice(init[b]) == Tally(init).minGas;
      assert txs[a] == init[a] && txs[b] == init[b];
      var ma := if TxGasPrice(txs[n]) > Tally(init).maxGas then n else a;
      var mb := if TxGasPrice(txs[n]) < Tally(init).minGas then n else b;
      assert TxGasPrice(txs[ma]) == Tally(txs).maxGas && TxGasPrice(txs[mb]) == Tally(txs).minGas;
    } else {
      assert TxGasPrice(txs[0]) == Tally(txs).maxGas && TxGasPrice(txs[0]) == Tally(txs).minGas;
    }
  }

  lemma MulSucc(n: nat, x: nat)
    ensures (n + 1) * x == n * x + x
  {
  }

  /** A sum of prices each between lo and hi lies between n * lo and n * hi. */
  lemma {:induction false} PriceSumBounds(txs: seq<Transaction>, lo: nat, hi: nat)
    requires AllTxDecodable(txs)
    requires forall j :: 0 <= j < |txs| ==> lo <= TxGasPrice(txs[j]) <= hi
    ensures |txs| * lo <= PriceSum(txs) <= |txs| * hi
    decreases |txs|
  {
    if txs != [] {
      var init := txs[..|txs| - 1];
      forall j | 0 <= j < |init| ensures lo <= TxGasPrice(init[j]) <= hi {
        assert init[j] == txs[j];
      }
      PriceSumBounds(init, lo, hi);
      MulSucc(|init|, lo);
      MulSucc(|init|, hi);
    }
  }

  lemma MulMono(a: nat, b: nat, n: nat)
    requires a <= b
    ensures a * n <= b * n
  {
  }

  /** Integer division by n of a value between n * lo and n * hi stays between lo and hi. */
  lemma DivBounds(x: nat, n: nat, lo: nat, hi: nat)
    requires n > 0 && n * lo <= x <= n * hi
    ensures lo <= x / n <= hi
  {
    var q := x / n;
    assert q * n <= x < (q + 1) * n;
    if q > hi {
      MulMono(hi + 1, q, n);
      assert false;
    }
    if q < lo {
      MulMono(q + 1, lo, n);
      assert false;
    }
  }

  /**
   * The published average price never exceeds the maximum; it is at least
   * the minimum whenever the exact price sum fits in 64 bits (a wrapped sum
   * can fall below n times the minimum).
   */
  lemma AvgPriceWithinExtremes(txs: seq<Transaction>)
    requires AllTxDecodable(txs) && txs != []
    ensures Tally(txs).totalGasPrice / |txs| <= Tally(txs).maxGas
    ensures PriceSum(txs) <= MaxU64 ==> Tally(txs).minGas <= Tally(txs).totalGasPrice / |txs|
  {
    var t := Tally(txs);
    TallyPriceSum(txs);
    TallyBounds(txs);
    PriceSumBounds(txs, t.minGas, t.maxGas);
    WrapBelow(PriceSum(txs));
    DivBounds(t.totalGasPrice, |txs|, 0, t.maxGas);
    if PriceSum(txs) <= MaxU64 {
      DivBounds(t.totalGasPrice, |txs|, t.minGas, t.maxGas);
    }
  }

  // ----- Properties of a cycle -----

  /** The series a block's transactions are published under. */
  predicate TxMetric(m: Metric) {
    || m.BlockAvgGasPrice? || m.BlockMaxGasPrice? || m.BlockMinGasPrice? || m.ContractCalls?
    || m.SimpleTransfers? || m.UniqueAddresses? || m.ValueTransferred? || m.TransactionTypes?
  }

  /** The series every fetched block is published under. */
  predicate StatMetric(m: Metric) {
    m.BlockGasUsed? || m.BlockGasLimit? || m.BlockSize? || m.BlockTxCount?
  }

  /** The series labelled by block number. */
  predicate PerBlockMetric(m: Metric) {
    StatMetric(m) || m.BlockGasUtilization? || TxMetric(m)
  }

  /**
   * The label of iteration i is the decimal form of the block number it
   * asks for, head - i while the chain is that long; the ten labels of a
   * cycle are distinct.
   */
  lemma BlockLabelDecimal(head: nat, i: nat, j: nat)
    ensures forall k :: 0 <= k < |BlockLabel(head, i)| ==> IsDecimalDigit(BlockLabel(head, i)[k])
    ensures DecimalValue(BlockLabel(head, i)) == BlockAt(head, i)
    ensures i <= head < U64 ==> DecimalValue(BlockLabel(head, i)) == head - i
    ensures i < j < BlocksToAnalyze ==> BlockLabel(head, i) != BlockLabel(head, j)
  {
    FormatDecimalValue(BlockAt(head, i));
    if i < j < BlocksToAnalyze {
      BlockAtDistinct(head, i, j);
      FormatDecimalInjective(BlockAt(head, i), BlockAt(head, j));
    }
  }

  lemma {:induction false} KindWritesLabelled(kinds: KindCounts, ks: seq<Kind>, blockLabel: string)
    ensures LabelledBy(KindWrites(kinds, ks, blockLabel), blockLabel)
    decreases |ks|
  {
    if ks != [] {
      KindWritesLabelled(kinds, ks[..|ks| - 1], blockLabel);
      LabelledByAll(KindWrite(kinds, ks[|ks| - 1], blockLabel), blockLabel);
      LabelledByConcat(KindWrites(kinds, ks[..|ks| - 1], blockLabel), KindWrite(kinds, ks[|ks| - 1], blockLabel), blockLabel);
    }
  }

  lemma {:induction false} KindWritesUntouched(kinds: KindCounts, ks: seq<Kind>, blockLabel: string, m: Metric)
    requires !m.TransactionTypes?
    ensures Untouched(KindWrites(kinds, ks, blockLabel), m)
    decreases |ks|
  {
    if ks != [] {
      KindWritesUntouched(kinds, ks[..|ks| - 1], blockLabel, m);
      UntouchedConcat(KindWrites(kinds, ks[..|ks| - 1], blockLabel), KindWrite(kinds, ks[|ks| - 1], blockLabel), m);
    }
  }

  lemma TallyWritesLabelled(blockLabel: string, txCount: nat, t: BlockTally)
    requires txCount > 0
    ensures LabelledBy(TallyWrites(blockLabel, txCount, t), blockLabel)
  {
    KindWritesLabelled(t.kinds, AllKinds, blockLabel);
    var p, c := TallyPriceWrites(blockLabel, txCount, t), TallyCountWrites(blockLabel, t);
    LabelledByAll(p, blockLabel);
    LabelledByAll(c, blockLabel);
    LabelledByConcat(p, c, blockLabel);
    LabelledByConcat(p + c, KindWrites(t.kinds, AllKinds, blockLabel), blockLabel);
  }

  lemma HeaderWritesLabelled(i: nat, blockLabel: string, b: Block)
    requires BlockDecodable(b)
    ensures LabelledBy(HeaderWrites(i, blockLabel, b), blockLabel)
  {
    var st, u := BlockStatWrites(blockLabel, b), UtilizationWrites(blockLabel, b);
    LabelledByAll(st, blockLabel);
    LabelledByAll(u, blockLabel);
    LabelledByAll(TimestampWrites(i, b), blockLabel);
    LabelledByConcat(st, u, blockLabel);
    LabelledByConcat(st + u, TimestampWrites(i, b), blockLabel);
  }

  /** Every write of iteration i is to an unlabelled gauge or to a series labelled by the block's number. */
  lemma IterationLabelled(node: Node, head: nat, i: nat)
    requires NodeDecodable(node)
    ensures LabelledBy(IterationWrites(node, head, i), BlockLabel(head, i))
  {
    match node.fullBlock(BlockAt(head, i))
    case None =>
      assert LabelledBy([], BlockLabel(head, i));
    case Some(b) =>
      var l := BlockLabel(head, i);
      HeaderWritesLabelled(i, l, b);
      BlockTxsDecodable(b);
      if b.transactions != [] {
        TallyWritesLabelled(l, |b.transactions|, Tally(b.transactions));
      } else {
        assert LabelledBy([], l);
      }
      LabelledByConcat(HeaderWrites(i, l, b), TxWrites(l, b), l);
  }

  /** The ten labels of a cycle, in iteration order. */
  function BlockLabels(head: nat): (labels: seq<string>)
    ensures |labels| == BlocksToAnalyze
    ensures forall j :: 0 <= j < BlocksToAnalyze ==> labels[j] == BlockLabel(head, j)
  {
    seq(BlocksToAnalyze, (j: int) requires 0 <= j => BlockLabel(head, j))
  }

  /** Every iteration of the loop writes under its own block's label, and the labels are distinct. */
  lemma IterationsLabelled(node: Node, head: nat)
    requires NodeDecodable(node)
    ensures forall j :: 0 <= j < BlocksToAnalyze ==>
              LabelledBy(Iterations(node, head, BlocksToAnalyze)[j], BlockLabels(head)[j])
    ensures forall i, j :: 0 <= i < BlocksToAnalyze && 0 <= j < BlocksToAnalyze && i != j ==>
              BlockLabels(head)[i] != BlockLabels(head)[j]
  {
    forall j | 0 <= j < BlocksToAnalyze
      ensures LabelledBy(Iterations(node, head, BlocksToAnalyze)[j], BlockLabels(head)[j])
    {
      IterationLabelled(node, head, j);
    }
    forall i, j | 0 <= i < BlocksToAnalyze && 0 <= j < BlocksToAnalyze && i != j
      ensures BlockLabels(head)[i] != BlockLabels(head)[j]
    {
      if i < j { BlockLabelDecimal(head, i, j); } else { BlockLabelDecimal(head, j, i); }
    }
  }

  lemma BlockTimeWritesUntouched(blockTimes: seq<nat>, totalTxs: nat, m: Metric)
    requires !m.AvgBlockTime? && !m.TransactionsPerSecond?
    ensures Untouched(BlockTimeWrites(blockTimes, totalTxs), m)
  {
  }

  lemma PerBlockNotOpening(m: Metric)
    requires PerBlockMetric(m)
    ensures m !in {ChainInfo, CurrentBlockNumber, GasPriceWei, GasPriceGwei, MaxPriorityFeePerGas}
    ensures !m.AvgBlockTime? && !m.TransactionsPerSecond?
  {
  }

  /** In a collected cycle, only the block loop writes per-block series. */
  lemma PerBlockFromLoop(node: Node, s: Series)
    requires NodeDecodable(node) && CycleOutcome(node) == Collected && PerBlockMetric(s.metric)
    ensures LastWrite(CycleWrites(node), s) == LastWrite(Flatten(Iterations(node, Head(node), BlocksToAnalyze)), s)
  {
    var head := Head(node);
    var bts, txs := BlockTimes(node, head, BlocksToAnalyze), TotalTxs(node, head, BlocksToAnalyze);
    PerBlockNotOpening(s.metric);
    OpeningUntouched(node, s.metric);
    BlockTimeWritesUntouched(bts, txs, s.metric);
    LastWriteOnly(OpeningWrites(node), LoopWrites(node, head, BlocksToAnalyze), BlockTimeWrites(bts, txs), s);
  }

  /**
   * In a collected cycle, a per-block series is decided by the iteration
   * whose block number it carries.
   */
  lemma PerBlockSeries(node: Node, i: nat, s: Series)
    requires NodeDecodable(node) && CycleOutcome(node) == Collected && i < BlocksToAnalyze
    requires PerBlockMetric(s.metric) && s.labels != [] && s.labels[|s.labels| - 1] == BlockLabel(Head(node), i)
    ensures LastWrite(CycleWrites(node), s) == LastWrite(IterationWrites(node, Head(node), i), s)
  {
    PerBlockFromLoop(node, s);
    LoopSeriesOf(node, Head(node), i, s);
  }

  /** A series labelled with the i-th block's number is decided, within the loop, by the i-th iteration. */
  lemma LoopSeriesOf(node: Node, head: nat, i: nat, s: Series)
    requires NodeDecodable(node) && i < BlocksToAnalyze
    requires s.labels != [] && s.labels[|s.labels| - 1] == BlockLabel(head, i)
    ensures LastWrite(Flatten(Iterations(node, head, BlocksToAnalyze)), s) == LastWrite(IterationWrites(node, head, i), s)
  {
    IterationsLabelled(node, head);
    FlattenOf(Iterations(node, head, BlocksToAnalyze), BlockLabels(head), i, s);
  }

  /** In a collected cycle, a per-block series carrying none of the ten block numbers is never written. */
  lemma OtherBlockSeries(node: Node, s: Series)
    requires NodeDecodable(node) && CycleOutcome(node) == Collected
    requires PerBlockMetric(s.metric) && s.labels != []
    requires forall i :: 0 <= i < BlocksToAnalyze ==> s.labels[|s.labels| - 1] != BlockLabel(Head(node), i)
    ensures LastWrite(CycleWrites(node), s) == None
  {
    PerBlockFromLoop(node, s);
    LoopSeriesOther(node, Head(node), s);
  }

  /** Within the loop, a series labelled with none of the ten block numbers is never written. */
  lemma LoopSeriesOther(node: Node, head: nat, s: Series)
    requires NodeDecodable(node) && s.labels != []
    requires forall i :: 0 <= i < BlocksToAnalyze ==> s.labels[|s.labels| - 1] != BlockLabel(head, i)
    ensures LastWrite(Flatten(Iterations(node, head, BlocksToAnalyze)), s) == None
  {
    IterationsLabelled(node, head);
    FlattenOther(Iterations(node, head, BlocksToAnalyze), BlockLabels(head), s);
  }

  // ----- The series of one block -----

  /** The transaction series never touch a block's own series or the timestamp. */
  lemma TxWritesUntouched(blockLabel: string, b: Block, m: Metric)
    requires BlockDecodable(b) && !TxMetric(m)
    ensures Untouched(TxWrites(blockLabel, b), m)
  {
    BlockTxsDecodable(b);
    if b.transactions != [] {
      var t := Tally(b.transactions);
      var p, c := TallyPriceWrites(blockLabel, |b.transactions|, t), TallyCountWrites(blockLabel, t);
      KindWritesUntouched(t.kinds, AllKinds, blockLabel, m);
      UntouchedConcat(p, c, m);
      UntouchedConcat(p + c, KindWrites(t.kinds, AllKinds, blockLabel), m);
    }
  }

  /** A fetched block publishes its gas used, gas limit, size and transaction count under its number. */
  lemma BlockStatValues(i: nat, blockLabel: string, b: Block)
    requires BlockDecodable(b)
    ensures var ws := BlockWrites(i, blockLabel, b);
            && LastWrite(ws, Series(BlockGasUsed, [blockLabel])) == Some(HexToUint64(b.gasUsed) as real)
            && LastWrite(ws, Series(BlockGasLimit, [blockLabel])) == Some(HexToUint64(b.gasLimit) as real)
            && LastWrite(ws, Series(BlockSize, [blockLabel])) == Some(HexToUint64(b.size) as real)
            && LastWrite(ws, Series(BlockTxCount, [blockLabel])) == Some(|b.transactions| as real)
  {
    StatValue(i, blockLabel, b, Series(BlockGasUsed, [blockLabel]));
    StatValue(i, blockLabel, b, Series(BlockGasLimit, [blockLabel]));
    StatValue(i, blockLabel, b, Series(BlockSize, [blockLabel]));
    StatValue(i, blockLabel, b, Series(BlockTxCount, [blockLabel]));
    StatWritesValues(blockLabel, b);
  }

  lemma StatWritesValues(blockLabel: string, b: Block)
    requires BlockDecodable(b)
    ensures var st := BlockStatWrites(blockLabel, b);
            && LastWrite(st, Series(BlockGasUsed, [blockLabel])) == Some(HexToUint64(b.gasUsed) as real)
            && LastWrite(st, Series(BlockGasLimit, [blockLabel])) == Some(HexToUint64(b.gasLimit) as real)
            && LastWrite(st, Series(BlockSize, [blockLabel])) == Some(HexToUint64(b.size) as real)
            && LastWrite(st, Series(BlockTxCount, [blockLabel])) == Some(|b.transactions| as real)
  {
    var st := BlockStatWrites(blockLabel, b);
    LastWriteAt(st, 0, Series(BlockGasUsed, [blockLabel]));
    LastWriteAt(st, 1, Series(BlockGasLimit, [blockLabel]));
    LastWriteAt(st, 2, Series(BlockSize, [blockLabel]));
    LastWriteAt(st, 3, Series(BlockTxCount, [blockLabel]));
  }

  /** A fetched block publishes its utilisation exactly when its gas limit is non-zero. */
  lemma BlockUtilizationValue(i: nat, blockLabel: string, b: Block)
    requires BlockDecodable(b)
    ensures var gasUsed, gasLimit := HexToUint64(b.gasUsed), HexToUint64(b.gasLimit);
            LastWrite(BlockWrites(i, blockLabel, b), Series(BlockGasUtilization, [blockLabel]))
            == if gasLimit > 0 then Some(Percent(gasUsed, gasLimit)) else None
  {
    HeaderDecides(i, blockLabel, b, Series(BlockGasUtilization, [blockLabel]));
    HeaderUtilization(i, blockLabel, b);
    UtilizationValue(blockLabel, b);
  }

  /** Within the block's own series, only the utilisation write touches the utilisation gauge. */
  lemma HeaderUtilization(i: nat, blockLabel: string, b: Block)
    requires BlockDecodable(b)
    ensures var s := Series(BlockGasUtilization, [blockLabel]);
            LastWrite(HeaderWrites(i, blockLabel, b), s) == LastWrite(UtilizationWrites(blockLabel, b), s)
  {
    var s := Series(BlockGasUtilization, [blockLabel]);
    LastWriteOnly(BlockStatWrites(blockLabel, b), UtilizationWrites(blockLabel, b), TimestampWrites(i, b), s);
  }

  lemma UtilizationValue(blockLabel: string, b: Block)
    requires BlockDecodable(b)
    ensures var gasUsed, gasLimit := HexToUint64(b.gasUsed), HexToUint64(b.gasLimit);
            LastWrite(UtilizationWrites(blockLabel, b), Series(BlockGasUtilization, [blockLabel]))
            == if gasLimit > 0 then Some(Percent(gasUsed, gasLimit)) else None
  {
    var u := UtilizationWrites(blockLabel, b);
    if u != [] {
      LastWriteAt(u, 0, Series(BlockGasUtilization, [blockLabel]));
    }
  }

  /** The transaction series never decide a block's own series. */
  lemma HeaderDecides(i: nat, blockLabel: string, b: Block, s: Series)
    requires BlockDecodable(b) && !TxMetric(s.metric)
    ensures LastWrite(BlockWrites(i, blockLabel, b), s) == LastWrite(HeaderWrites(i, blockLabel, b), s)
  {
    var tx := TxWrites(blockLabel, b);
    TxWritesUntouched(blockLabel, b, s.metric);
    LastWriteUntouched(tx, s);
    LastWriteConcat(HeaderWrites(i, blockLabel, b), tx, s);
  }

  /** The block's own series are decided by its stat writes. */
  lemma StatValue(i: nat, blockLabel: string, b: Block, s: Series)
    requires BlockDecodable(b) && StatMetric(s.metric)
    ensures LastWrite(BlockWrites(i, blockLabel, b), s) == LastWrite(BlockStatWrites(blockLabel, b), s)
  {
    HeaderDecides(i, blockLabel, b, s);
    HeaderStat(i, blockLabel, b, s);
  }

  lemma HeaderStat(i: nat, blockLabel: string, b: Block, s: Series)
    requires BlockDecodable(b) && StatMetric(s.metric)
    ensures LastWrite(HeaderWrites(i, blockLabel, b), s) == LastWrite(BlockStatWrites(blockLabel, b), s)
  {
    LastWriteFirst(BlockStatWrites(blockLabel, b), UtilizationWrites(blockLabel, b), TimestampWrites(i, b), s);
  }

  /** The transaction series of a block as the block's writes leave them. */
  lemma TxSeriesFromTally(i: nat, blockLabel: string, b: Block, s: Series)
    requires BlockDecodable(b) && TxMetric(s.metric)
    ensures LastWrite(BlockWrites(i, blockLabel, b), s) == LastWrite(TxWrites(blockLabel, b), s)
  {
    var h := HeaderWrites(i, blockLabel, b);
    HeaderUntouched(i, blockLabel, b, s.metric);
    LastWriteUntouched(h, s);
    LastWriteConcat(h, TxWrites(blockLabel, b), s);
  }

  /** The price series as the transaction writes leave them. */
  lemma TallyPriceValues(blockLabel: string, txCount: nat, t: BlockTally)
    requires txCount > 0
    ensures var ws := TallyWrites(blockLabel, txCount, t);
            && LastWrite(ws, Series(BlockAvgGasPrice, [blockLabel])) == Some((t.totalGasPrice / txCount) as real)
            && LastWrite(ws, Series(BlockMaxGasPrice, [blockLabel])) == Some(t.maxGas as real)
            && LastWrite(ws, Series(BlockMinGasPrice, [blockLabel])) == Some(t.minGas as real)
  {
    PriceValue(blockLabel, txCount, t, Series(BlockAvgGasPrice, [blockLabel]));
    PriceValue(blockLabel, txCount, t, Series(BlockMaxGasPrice, [blockLabel]));
    PriceValue(blockLabel, txCount, t, Series(BlockMinGasPrice, [blockLabel]));
    var p := TallyPriceWrites(blockLabel, txCount, t);
    LastWriteAt(p, 0, Series(BlockAvgGasPrice, [blockLabel]));
    LastWriteAt(p, 1, Series(BlockMaxGasPrice, [blockLabel]));
    LastWriteAt(p, 2, Series(BlockMinGasPrice, [blockLabel]));
  }

  lemma PriceValue(blockLabel: string, txCount: nat, t: BlockTally, s: Series)
    requires txCount > 0
    requires s.metric.BlockAvgGasPrice? || s.metric.BlockMaxGasPrice? || s.metric.BlockMinGasPrice?
    ensures LastWrite(TallyWrites(blockLabel, txCount, t), s) == LastWrite(TallyPriceWrites(blockLabel, txCount, t), s)
  {
    var p, c, k := TallyPriceWrites(blockLabel, txCount, t), TallyCountWrites(blockLabel, t), KindWrites(t.kinds, AllKinds, blockLabel);
    KindWritesUntouched(t.kinds, AllKinds, blockLabel, s.metric);
    CountWritesUntouched(blockLabel, t, s.metric);
    LastWriteFirst(p, c, k, s);
  }

  lemma CountWritesUntouched(blockLabel: string, t: BlockTally, m: Metric)
    requires !m.ContractCalls? && !m.SimpleTransfers? && !m.UniqueAddresses? && !m.ValueTransferred?
    ensures Untouched(TallyCountWrites(blockLabel, t), m)
  {
  }

  /** The count series as the transaction writes leave them. */
  lemma TallyCountValues(blockLabel: string, txCount: nat, t: BlockTally)
    requires txCount > 0
    ensures var ws := TallyWrites(blockLabel, txCount, t);
            && LastWrite(ws, Series(ContractCalls, [blockLabel])) == Some(t.calls as real)
            && LastWrite(ws, Series(SimpleTransfers, [blockLabel])) == Some(t.transfers as real)
            && LastWrite(ws, Series(UniqueAddresses, [blockLabel])) == Some(|t.addrs| as real)
            && LastWrite(ws, Series(ValueTransferred, [blockLabel])) == Some(t.totalValue as real)
  {
    var p, c, k := TallyPriceWrites(blockLabel, txCount, t), TallyCountWrites(blockLabel, t), KindWrites(t.kinds, AllKinds, blockLabel);
    CountValue(blockLabel, txCount, t, Series(ContractCalls, [blockLabel]));
    CountValue(blockLabel, txCount, t, Series(SimpleTransfers, [blockLabel]));
    CountValue(blockLabel, txCount, t, Series(UniqueAddresses, [blockLabel]));
    CountValue(blockLabel, txCount, t, Series(ValueTransferred, [blockLabel]));
    LastWriteAt(c, 0, Series(ContractCalls, [blockLabel]));
    LastWriteAt(c, 1, Series(SimpleTransfers, [blockLabel]));
    LastWriteAt(c, 2, Series(UniqueAddresses, [blockLabel]));
    LastWriteAt(c, 3, Series(ValueTransferred, [blockLabel]));
  }

  lemma CountValue(blockLabel: string, txCount: nat, t: BlockTally, s: Series)
    requires txCount > 0
    requires s.metric.ContractCalls? || s.metric.SimpleTransfers? || s.metric.UniqueAddresses? || s.metric.ValueTransferred?
    ensures LastWrite(TallyWrites(blockLabel, txCount, t), s) == LastWrite(TallyCountWrites(blockLabel, t), s)
  {
    var p, c, k := TallyPriceWrites(blockLabel, txCount, t), TallyCountWrites(blockLabel, t), KindWrites(t.kinds, AllKinds, blockLabel);
    KindWritesUntouched(t.kinds, AllKinds, blockLabel, s.metric);
    LastWriteUntouched(k, s);
    LastWriteUntouched(p, s);
    LastWriteOnly(p, c, k, s);
  }

  /**
   * A block with transactions publishes the wrapped price sum divided by the
   * count, the largest and the smallest price, under its number.
   */
  lemma BlockPriceValues(i: nat, blockLabel: string, b: Block)
    requires BlockDecodable(b) && b.transactions != []
    ensures var ws, txs := BlockWrites(i, blockLabel, b), b.transactions;
            && AllTxDecodable(txs)
            && LastWrite(ws, Series(BlockAvgGasPrice, [blockLabel])) == Some(((PriceSum(txs) % U64) / |txs|) as real)
            && LastWrite(ws, Series(BlockMaxGasPrice, [blockLabel])) == Some(Tally(txs).maxGas as real)
            && LastWrite(ws, Series(BlockMinGasPrice, [blockLabel])) == Some(Tally(txs).minGas as real)
  {
    var txs := b.transactions;
    BlockTxsDecodable(b);
    TallyPriceSum(txs);
    TallyPriceValues(blockLabel, |txs|, Tally(txs));
    TxSeriesFromTally(i, blockLabel, b, Series(BlockAvgGasPrice, [blockLabel]));
    TxSeriesFromTally(i, blockLabel, b, Series(BlockMaxGasPrice, [blockLabel]));
    TxSeriesFromTally(i, blockLabel, b, Series(BlockMinGasPrice, [blockLabel]));
  }

  /**
   * A block with transactions publishes its contract calls, simple
   * transfers, distinct addresses and wrapped value total under its number.
   */
  lemma BlockCountValues(i: nat, blockLabel: string, b: Block)
    requires BlockDecodable(b) && b.transactions != []
    ensures var ws, txs := BlockWrites(i, blockLabel, b), b.transactions;
            && AllTxDecodable(txs)
            && LastWrite(ws, Series(ContractCalls, [blockLabel])) == Some(CallCount(txs) as real)
            && LastWrite(ws, Series(SimpleTransfers, [blockLabel])) == Some(TransferCount(txs) as real)
            && LastWrite(ws, Series(UniqueAddresses, [blockLabel])) == Some(|AddressesOf(txs)| as real)
            && LastWrite(ws, Series(ValueTransferred, [blockLabel])) == Some((ValueSum(txs) % U64) as real)
  {
    var txs := b.transactions;
    BlockTxsDecodable(b);
    TallyCounts(txs);
    TallyValueSum(txs);
    TallyCountValues(blockLabel, |txs|, Tally(txs));
    TxSeriesFromTally(i, blockLabel, b, Series(ContractCalls, [blockLabel]));
    TxSeriesFromTally(i, blockLabel, b, Series(SimpleTransfers, [blockLabel]));
    TxSeriesFromTally(i, blockLabel, b, Series(UniqueAddresses, [blockLabel]));
    TxSeriesFromTally(i, blockLabel, b, Series(ValueTransferred, [blockLabel]));
  }

  /** The last write to a kind's series of a block in the kind writes: its count, when it has one. */
  lemma {:induction false} KindWritesValue(kinds: KindCounts, ks: seq<Kind>, k: Kind, blockLabel: string)
    requires forall i, j :: 0 <= i < j < |ks| ==> ks[i] != ks[j]
    ensures LastWrite(KindWrites(kinds, ks, blockLabel), Series(TransactionTypes, [KindLabel(k), blockLabel]))
            == if k in ks && kinds.Has(k) then Some(kinds.Count(k) as real) else None
    decreases |ks|
  {
    if ks != [] {
      var init, last := ks[..|ks| - 1], ks[|ks| - 1];
      var s := Series(TransactionTypes, [KindLabel(k), blockLabel]);
      KindWritesValue(kinds, init, k, blockLabel);
      LastWriteConcat(KindWrites(kinds, init, blockLabel), KindWrite(kinds, last, blockLabel), s);
      assert k in ks <==> k in init || k == last;
      if k == last {
        assert k !in init;
      } else {
        assert KindLabel(last) != KindLabel(k);
      }
    }
  }

  /** A kind's series as the transaction writes leave it. */
  lemma TallyKindValue(blockLabel: string, txCount: nat, t: BlockTally, k: Kind)
    requires txCount > 0
    ensures LastWrite(TallyWrites(blockLabel, txCount, t), Series(TransactionTypes, [KindLabel(k), blockLabel]))
            == if t.kinds.Has(k) then Some(t.kinds.Count(k) as real) else None
  {
    var p, c, kw := TallyPriceWrites(blockLabel, txCount, t), TallyCountWrites(blockLabel, t), KindWrites(t.kinds, AllKinds, blockLabel);
    var s := Series(TransactionTypes, [KindLabel(k), blockLabel]);
    assert k in AllKinds;
    KindWritesValue(t.kinds, AllKinds, k, blockLabel);
    LastWriteUntouched(p + c, s);
    LastWriteConcat(p + c, kw, s);
  }

  /**
   * A block publishes, for each kind, the number of its transactions of
   * that kind when there is one, and nothing for a kind it lacks (in
   * particular nothing at all when it has no transactions).
   */
  lemma BlockKindValue(i: nat, blockLabel: string, b: Block, k: Kind)
    requires BlockDecodable(b)
    ensures var txs := b.transactions;
            && AllTxDecodable(txs)
            && LastWrite(BlockWrites(i, blockLabel, b), Series(TransactionTypes, [KindLabel(k), blockLabel]))
               == if KindCount(txs, k) > 0 then Some(KindCount(txs, k) as real) else None
  {
    var txs := b.transactions;
    BlockTxsDecodable(b);
    TxSeriesFromTally(i, blockLabel, b, Series(TransactionTypes, [KindLabel(k), blockLabel]));
    TallyKinds(txs, k);
    if txs != [] {
      TallyKindValue(blockLabel, |txs|, Tally(txs), k);
    }
  }

  /** A block without transactions publishes none of the transaction series. */
  lemma EmptyBlockTxSeries(i: nat, blockLabel: string, b: Block, s: Series)
    requires BlockDecodable(b) && b.transactions == [] && TxMetric(s.metric)
    ensures LastWrite(BlockWrites(i, blockLabel, b), s) == None
  {
    TxSeriesFromTally(i, blockLabel, b, s);
  }

  // ----- The gauges after a cycle -----

  /** A fetched block's per-block series end the cycle as its own iteration left them. */
  lemma FetchedBlockSeries(node: Node, i: nat, s: Series)
    requires NodeDecodable(node) && CycleOutcome(node) == Collected && i < BlocksToAnalyze
    requires node.fullBlock(BlockAt(Head(node), i)).Some?
    requires PerBlockMetric(s.metric) && s.labels != [] && s.labels[|s.labels| - 1] == BlockLabel(Head(node), i)
    ensures LastWrite(CycleWrites(node), s)
            == LastWrite(BlockWrites(i, BlockLabel(Head(node), i), node.fullBlock(BlockAt(Head(node), i)).value), s)
  {
    PerBlockSeries(node, i, s);
  }

  /**
   * For a block the node did not return, the cycle writes no per-block
   * series under its number: the Go loop skips it before writing anything.
   */
  lemma SkippedBlockSeries(node: Node, i: nat, s: Series)
    requires NodeDecodable(node) && CycleOutcome(node) == Collected && i < BlocksToAnalyze
    requires node.fullBlock(BlockAt(Head(node), i)).None?
    requires PerBlockMetric(s.metric) && s.labels != [] && s.labels[|s.labels| - 1] == BlockLabel(Head(node), i)
    ensures LastWrite(CycleWrites(node), s) == None
  {
    PerBlockSeries(node, i, s);
  }

  /**
   * A per-block series under the number of a block the node did not return
   * keeps whatever an earlier cycle left in it, or stays absent.
   */
  lemma SkippedBlockKept(g: map<Series, real>, node: Node, i: nat, s: Series)
    requires NodeDecodable(node) && CycleOutcome(node) == Collected && i < BlocksToAnalyze
    requires node.fullBlock(BlockAt(Head(node), i)).None?
    requires PerBlockMetric(s.metric) && s.labels != [] && s.labels[|s.labels| - 1] == BlockLabel(Head(node), i)
    ensures s in Apply(g, CycleWrites(node)) <==> s in g
    ensures s in g ==> Apply(g, CycleWrites(node))[s] == g[s]
  {
    SkippedBlockSeries(node, i, s);
    ApplyIsLastWrite(g, CycleWrites(node), s);
  }

  /**
   * After a cycle, each fetched block's gas used, gas limit, size and
   * transaction count are published under its number.
   */
  lemma BlockGauges(node: Node, i: nat)
    requires NodeDecodable(node) && CycleOutcome(node) == Collected && i < BlocksToAnalyze
    requires node.fullBlock(BlockAt(Head(node), i)).Some?
    ensures var b, l := node.fullBlock(BlockAt(Head(node), i)).value, BlockLabel(Head(node), i);
            var ws := CycleWrites(node);
            && LastWrite(ws, Series(BlockGasUsed, [l])) == Some(HexToUint64(b.gasUsed) as real)
            && LastWrite(ws, Series(BlockGasLimit, [l])) == Some(HexToUint64(b.gasLimit) as real)
            && LastWrite(ws, Series(BlockSize, [l])) == Some(HexToUint64(b.size) as real)
            && LastWrite(ws, Series(BlockTxCount, [l])) == Some(|b.transactions| as real)
  {
    var b, l := node.fullBlock(BlockAt(Head(node), i)).value, BlockLabel(Head(node), i);
    FetchedBlockSeries(node, i, Series(BlockGasUsed, [l]));
    FetchedBlockSeries(node, i, Series(BlockGasLimit, [l]));
    FetchedBlockSeries(node, i, Series(BlockSize, [l]));
    FetchedBlockSeries(node, i, Series(BlockTxCount, [l]));
    BlockStatValues(i, l, b);
  }

  /** After a cycle, a fetched block's utilisation is published exactly when its gas limit is non-zero. */
  lemma BlockUtilizationGauge(node: Node, i: nat)
    requires NodeDecodable(node) && CycleOutcome(node) == Collected && i < BlocksToAnalyze
    requires node.fullBlock(BlockAt(Head(node), i)).Some?
    ensures var b, l := node.fullBlock(BlockAt(Head(node), i)).value, BlockLabel(Head(node), i);
            var gasUsed, gasLimit := HexToUint64(b.gasUsed), HexToUint64(b.gasLimit);
            LastWrite(CycleWrites(node), Series(BlockGasUtilization, [l]))
            == if gasLimit > 0 then Some(Percent(gasUsed, gasLimit)) else None
  {
    var b, l := node.fullBlock(BlockAt(Head(node), i)).value, BlockLabel(Head(node), i);
    FetchedBlockSeries(node, i, Series(BlockGasUtilization, [l]));
    BlockUtilizationValue(i, l, b);
  }

  /**
   * After a cycle, each fetched block with transactions publishes under its
   * number the wrapped price sum over the count (never above the largest
   * price, and not below the smallest while the sum fits in 64 bits), the
   * largest and smallest price, its calls and transfers (which add up to its
   * transactions), its distinct addresses (at most two per transaction) and
   * its wrapped value total.
   */
  lemma BlockTxGauges(node: Node, i: nat)
    requires NodeDecodable(node) && CycleOutcome(node) == Collected && i < BlocksToAnalyze
    requires node.fullBlock(BlockAt(Head(node), i)).Some?
    requires node.fullBlock(BlockAt(Head(node), i)).value.transactions != []
    ensures var b, l := node.fullBlock(BlockAt(Head(node), i)).value, BlockLabel(Head(node), i);
            var ws, txs := CycleWrites(node), b.transactions;
            && AllTxDecodable(txs)
            && LastWrite(ws, Series(BlockAvgGasPrice, [l])) == Some(((PriceSum(txs) % U64) / |txs|) as real)
            && LastWrite(ws, Series(BlockMaxGasPrice, [l])) == Some(Tally(txs).maxGas as real)
            && LastWrite(ws, Series(BlockMinGasPrice, [l])) == Some(Tally(txs).minGas as real)
            && (PriceSum(txs) % U64) / |txs| <= Tally(txs).maxGas
            && (PriceSum(txs) <= MaxU64 ==> Tally(txs).minGas <= (PriceSum(txs) % U64) / |txs|)
    ensures var b, l := node.fullBlock(BlockAt(Head(node), i)).value, BlockLabel(Head(node), i);
            var ws, txs := CycleWrites(node), b.transactions;
            && AllTxDecodable(txs)
            && LastWrite(ws, Series(ContractCalls, [l])) == Some(CallCount(txs) as real)
            && LastWrite(ws, Series(SimpleTransfers, [l])) == Some(TransferCount(txs) as real)
            && CallCount(txs) + TransferCount(txs) == |txs|
            && LastWrite(ws, Series(UniqueAddresses, [l])) == Some(|AddressesOf(txs)| as real)
            && |AddressesOf(txs)| <= 2 * |txs|
            && LastWrite(ws, Series(ValueTransferred, [l])) == Some((ValueSum(txs) % U64) as real)
  {
    var b, l := node.fullBlock(BlockAt(Head(node), i)).value, BlockLabel(Head(node), i);
    BlockTxsDecodable(b);
    var txs := b.transactions;
    FetchedBlockSeries(node, i, Series(BlockAvgGasPrice, [l]));
    FetchedBlockSeries(node, i, Series(BlockMaxGasPrice, [l]));
    FetchedBlockSeries(node, i, Series(BlockMinGasPrice, [l]));
    FetchedBlockSeries(node, i, Series(ContractCalls, [l]));
    FetchedBlockSeries(node, i, Series(SimpleTransfers, [l]));
    FetchedBlockSeries(node, i, Series(UniqueAddresses, [l]));
    FetchedBlockSeries(node, i, Series(ValueTransferred, [l]));
    BlockPriceValues(i, l, b);
    BlockCountValues(i, l, b);
    AvgPriceWithinExtremes(txs);
    TallyPriceSum(txs);
    CallsPlusTransfers(txs);
    AddressesBound(txs);
  }

  /** After a cycle, a fetched block without transactions has none of the transaction series under its number. */
  lemma EmptyBlockTxGauges(node: Node, i: nat, s: Series)
    requires NodeDecodable(node) && CycleOutcome(node) == Collected && i < BlocksToAnalyze
    requires node.fullBlock(BlockAt(Head(node), i)).Some?
    requires node.fullBlock(BlockAt(Head(node), i)).value.transactions == []
    requires TxMetric(s.metric) && s.labels != [] && s.labels[|s.labels| - 1] == BlockLabel(Head(node), i)
    ensures LastWrite(CycleWrites(node), s) == None
  {
    FetchedBlockSeries(node, i, s);
    EmptyBlockTxSeries(i, BlockLabel(Head(node), i), node.fullBlock(BlockAt(Head(node), i)).value, s);
  }

  /**
   * After a cycle, a fetched block's series for a kind holds the number of
   * its transactions of that kind when there is one and is not written
   * otherwise; the kinds' counts add up to the block's transactions.
   */
  lemma BlockKindGauges(node: Node, i: nat, k: Kind)
    requires NodeDecodable(node) && CycleOutcome(node) == Collected && i < BlocksToAnalyze
    requires node.fullBlock(BlockAt(Head(node), i)).Some?
    ensures var b, l := node.fullBlock(BlockAt(Head(node), i)).value, BlockLabel(Head(node), i);
            var txs := b.transactions;
            && AllTxDecodable(txs)
            && LastWrite(CycleWrites(node), Series(TransactionTypes, [KindLabel(k), l]))
               == (if KindCount(txs, k) > 0 then Some(KindCount(txs, k) as real) else None)
            && KindCount(txs, Legacy) + KindCount(txs, Eip2930) + KindCount(txs, Eip1559) + KindCount(txs, Unknown) == |txs|
  {
    var b, l := node.fullBlock(BlockAt(Head(node), i)).value, BlockLabel(Head(node), i);
    BlockTxsDecodable(b);
    var txs := b.transactions;
    FetchedBlockSeries(node, i, Series(TransactionTypes, [KindLabel(k), l]));
    BlockKindValue(i, l, b, k);
    KindCountsTotal(txs);
  }

  /** A block's writes touch only per-block series and, for the head block, the timestamp. */
  lemma BlockWritesUntouched(i: nat, l: string, b: Block, m: Metric)
    requires BlockDecodable(b) && !PerBlockMetric(m) && (i > 0 || m != LastBlockTimestamp)
    ensures Untouched(BlockWrites(i, l, b), m)
  {
    TxWritesUntouched(l, b, m);
    HeaderUntouched(i, l, b, m);
    UntouchedConcat(HeaderWrites(i, l, b), TxWrites(l, b), m);
  }

  lemma HeaderUntouched(i: nat, l: string, b: Block, m: Metric)
    requires BlockDecodable(b) && !StatMetric(m) && !m.BlockGasUtilization? && (i > 0 || m != LastBlockTimestamp)
    ensures Untouched(HeaderWrites(i, l, b), m)
  {
    var st, u := BlockStatWrites(l, b), UtilizationWrites(l, b);
    UntouchedConcat(st, u, m);
    UntouchedConcat(st + u, TimestampWrites(i, b), m);
  }

  /** Only the head block's iteration writes the timestamp, and no iteration writes the block-time gauges. */
  lemma IterationUntouched(node: Node, head: nat, j: nat, m: Metric)
    requires NodeDecodable(node) && !PerBlockMetric(m) && (j > 0 || m != LastBlockTimestamp)
    ensures Untouched(IterationWrites(node, head, j), m)
  {
    match node.fullBlock(BlockAt(head, j))
    case None =>
    case Some(b) =>
      BlockWritesUntouched(j, BlockLabel(head, j), b, m);
  }

  /** The loop's writes to a metric that is not per-block are those of the head block's iteration. */
  lemma LoopNonBlockSeries(node: Node, head: nat, s: Series)
    requires NodeDecodable(node) && !PerBlockMetric(s.metric)
    ensures LastWrite(LoopWrites(node, head, BlocksToAnalyze), s) == LastWrite(IterationWrites(node, head, 0), s)
    ensures s.metric != LastBlockTimestamp ==> LastWrite(LoopWrites(node, head, BlocksToAnalyze), s) == None
  {
    var parts := Iterations(node, head, BlocksToAnalyze);
    forall j | 0 <= j < BlocksToAnalyze && j != 0 ensures Untouched(parts[j], s.metric) {
      IterationUntouched(node, head, j, s.metric);
    }
    FlattenOnly(parts, 0, s);
    if s.metric != LastBlockTimestamp {
      IterationUntouched(node, head, 0, s.metric);
      LastWriteUntouched(parts[0], s);
    }
  }

  /** The timestamp a fetched head block's iteration writes. */
  lemma HeadTimestampValue(b: Block, l: string)
    requires BlockDecodable(b)
    ensures LastWrite(BlockWrites(0, l, b), Gauge(LastBlockTimestamp)) == Some(HexToUint64(b.timestamp) as real)
  {
    var s := Gauge(LastBlockTimestamp);
    HeaderDecides(0, l, b, s);
    LastWriteConcat(BlockStatWrites(l, b) + UtilizationWrites(l, b), TimestampWrites(0, b), s);
  }

  /** The loop writes the timestamp of the block it asks for first, when that block is fetched. */
  lemma LoopTimestamp(node: Node, head: nat)
    requires NodeDecodable(node)
    ensures match node.fullBlock(BlockAt(head, 0))
            case None => LastWrite(LoopWrites(node, head, BlocksToAnalyze), Gauge(LastBlockTimestamp)) == None
            case Some(b) =>
              LastWrite(LoopWrites(node, head, BlocksToAnalyze), Gauge(LastBlockTimestamp)) == Some(HexToUint64(b.timestamp) as real)
  {
    LoopNonBlockSeries(node, head, Gauge(LastBlockTimestamp));
    match node.fullBlock(BlockAt(head, 0))
    case None =>
    case Some(b) =>
      HeadTimestampValue(b, BlockLabel(head, 0));
  }

  /**
   * After a cycle the last-block timestamp holds the head block's timestamp
   * when the head block was fetched, and is not written otherwise.
   */
  lemma LastTimestampGauge(node: Node)
    requires NodeDecodable(node) && CycleOutcome(node) == Collected
    ensures match node.fullBlock(Head(node))
            case None => LastWrite(CycleWrites(node), Gauge(LastBlockTimestamp)) == None
            case Some(b) => LastWrite(CycleWrites(node), Gauge(LastBlockTimestamp)) == Some(HexToUint64(b.timestamp) as real)
  {
    var head := Head(node);
    var s := Gauge(LastBlockTimestamp);
    var bts, txs := BlockTimes(node, head, BlocksToAnalyze), TotalTxs(node, head, BlocksToAnalyze);
    assert BlockAt(head, 0) == head;
    OpeningUntouched(node, s.metric);
    BlockTimeWritesUntouched(bts, txs, s.metric);
    LastWriteOnly(OpeningWrites(node), LoopWrites(node, head, BlocksToAnalyze), BlockTimeWrites(bts, txs), s);
    LoopTimestamp(node, head);
  }

  /** Every recorded gap is positive: a gap is recorded only when the newer block's timestamp is strictly later. */
  lemma {:induction false} BlockTimesPositive(node: Node, head: nat, n: nat)
    requires NodeDecodable(node)
    ensures |BlockTimes(node, head, n)| < n || n == 0
    ensures forall j :: 0 <= j < |BlockTimes(node, head, n)| ==> BlockTimes(node, head, n)[j] > 0
    decreases n
  {
    if n > 0 {
      BlockTimesPositive(node, head, n - 1);
      var bts, e := BlockTimes(node, head, n - 1), BlockTimeEntry(node, head, n - 1);
      assert |e| <= 1 && (n - 1 == 0 ==> e == []);
      forall j | 0 <= j < |bts + e| ensures (bts + e)[j] > 0 {
        if j < |bts| {
          assert (bts + e)[j] == bts[j];
        }
      }
    }
  }

  lemma {:induction false} SumPositive(s: seq<nat>)
    requires forall j :: 0 <= j < |s| ==> s[j] > 0
    ensures s != [] ==> Sum(s) > 0
    decreases |s|
  {
    if |s| > 1 {
      SumPositive(s[..|s| - 1]);
    }
  }

  lemma QuotientPositive(x: real, y: real)
    requires x > 0.0 && y > 0.0
    ensures x / y > 0.0
  {
  }

  /**
   * With positive gaps, the block-time writes set the mean gap exactly when
   * there is one, and TPS whenever they set the mean.
   */
  lemma BlockTimeValues(blockTimes: seq<nat>, totalTxs: nat)
    requires forall j :: 0 <= j < |blockTimes| ==> blockTimes[j] > 0
    ensures blockTimes == [] ==>
              && LastWrite(BlockTimeWrites(blockTimes, totalTxs), Gauge(AvgBlockTime)) == None
              && LastWrite(BlockTimeWrites(blockTimes, totalTxs), Gauge(TransactionsPerSecond)) == None
    ensures blockTimes != [] ==>
              var avg := Sum(blockTimes) as real / |blockTimes| as real;
              && avg > 0.0
              && LastWrite(BlockTimeWrites(blockTimes, totalTxs), Gauge(AvgBlockTime)) == Some(avg)
              && LastWrite(BlockTimeWrites(blockTimes, totalTxs), Gauge(TransactionsPerSecond))
                 == Some((totalTxs as real / BlocksToAnalyze as real) / avg)
  {
    if blockTimes != [] {
      var avg := Sum(blockTimes) as real / |blockTimes| as real;
      SumPositive(blockTimes);
      QuotientPositive(Sum(blockTimes) as real, |blockTimes| as real);
      var a := [Write(Gauge(AvgBlockTime), avg)];
      var t := [Write(Gauge(TransactionsPerSecond), (totalTxs as real / BlocksToAnalyze as real) / avg)];
      assert BlockTimeWrites(blockTimes, totalTxs) == a + t;
      LastWriteConcat(a, t, Gauge(AvgBlockTime));
      LastWriteConcat(a, t, Gauge(TransactionsPerSecond));
    }
  }

  /**
   * After a cycle the block time is the mean of the recorded gaps, written
   * exactly when some gap was recorded; TPS is then always written too (the
   * gaps are positive), as the transactions per analysed block over the
   * block time.
   */
  lemma BlockTimeGauges(node: Node)
    requires NodeDecodable(node) && CycleOutcome(node) == Collected
    ensures var bts := BlockTimes(node, Head(node), BlocksToAnalyze);
            forall j :: 0 <= j < |bts| ==> bts[j] > 0
    ensures var bts := BlockTimes(node, Head(node), BlocksToAnalyze);
            bts == [] ==>
              && LastWrite(CycleWrites(node), Gauge(AvgBlockTime)) == None
              && LastWrite(CycleWrites(node), Gauge(TransactionsPerSecond)) == None
    ensures var bts, txs := BlockTimes(node, Head(node), BlocksToAnalyze), TotalTxs(node, Head(node), BlocksToAnalyze);
            bts != [] ==>
              var avg := Sum(bts) as real / |bts| as real;
              && LastWrite(CycleWrites(node), Gauge(AvgBlockTime)) == Some(avg)
              && LastWrite(CycleWrites(node), Gauge(TransactionsPerSecond)) == Some((txs as real / BlocksToAnalyze as real) / avg)
  {
    var head := Head(node);
    var bts, txs := BlockTimes(node, head, BlocksToAnalyze), TotalTxs(node, head, BlocksToAnalyze);
    BlockTimesPositive(node, head, BlocksToAnalyze);
    BlockTimeValues(bts, txs);
    BlockTimeFromTail(node, Gauge(AvgBlockTime));
    BlockTimeFromTail(node, Gauge(TransactionsPerSecond));
  }

  lemma BlockTimeMetric(m: Metric)
    requires m == AvgBlockTime || m == TransactionsPerSecond
    ensures !PerBlockMetric(m) && m != LastBlockTimestamp
    ensures m !in {ChainInfo, CurrentBlockNumber, GasPriceWei, GasPriceGwei, MaxPriorityFeePerGas}
  {
  }

  /** The block-time gauges are written only after the loop. */
  lemma BlockTimeFromTail(node: Node, s: Series)
    requires NodeDecodable(node) && CycleOutcome(node) == Collected
    requires s.metric == AvgBlockTime || s.metric == TransactionsPerSecond
    ensures var head := Head(node);
            LastWrite(CycleWrites(node), s)
            == LastWrite(BlockTimeWrites(BlockTimes(node, head, BlocksToAnalyze), TotalTxs(node, head, BlocksToAnalyze)), s)
  {
    var head := Head(node);
    var o, l := OpeningWrites(node), LoopWrites(node, head, BlocksToAnalyze);
    BlockTimeMetric(s.metric);
    OpeningUntouched(node, s.metric);
    LastWriteUntouched(o, s);
    LoopNonBlockSeries(node, head, s);
    LastWriteConcat(o, l, s);
    LastWriteConcat(o + l, BlockTimeWrites(BlockTimes(node, head, BlocksToAnalyze), TotalTxs(node, head, BlocksToAnalyze)), s);
  }

  /**
   * A cycle that returns early changes only what it set before the failed
   * call: nothing when chain id or client version fails, the chain-info
   * series when the head number fails, and the head number as well when the
   * gas price fails.
   */
  lemma AbortedCycle(g: map<Series, real>, node: Node)
    requires NodeDecodable(node)
    ensures CycleOutcome(node) in {ChainIdFailed, ClientVersionFailed} ==> Apply(g, CycleWrites(node)) == g
    ensures CycleOutcome(node) == BlockNumberFailed ==>
              var info := ChainInfoWrite(node.chainId.value, node.clientVersion.value);
              Apply(g, CycleWrites(node)) == g[info.series := 1.0]
    ensures CycleOutcome(node) == GasPriceFailed ==>
              var info := ChainInfoWrite(node.chainId.value, node.clientVersion.value);
              Apply(g, CycleWrites(node))
              == g[info.series := 1.0][Gauge(CurrentBlockNumber) := HexToUint64(node.blockNumber.value) as real]
  {
    AbortedOpening(g, node);
  }

  // ----- The header-only fetch of the newer block -----

  /**
   * The header-only fetch as the explorer writes it: `GetBlock(n, false)`
   * decodes the answer into `Block`, whose transactions are objects, while
   * a header-only answer lists the transactions as hash strings; decoding
   * then fails for every block that has transactions.
   */
  ghost predicate HeaderFailsWhenBusy(node: Node) {
    forall n :: node.fullBlock(n).Some? && node.fullBlock(n).value.transactions != [] ==> node.header(n).None?
  }

  /** The header-only fetch as intended: it yields the timestamp of every block the node returns. */
  ghost predicate HeaderAnswers(node: Node) {
    forall n :: node.fullBlock(n).Some? ==> node.header(n) == Some(node.fullBlock(n).value.timestamp)
  }

  /** The first n blocks of the window were all fetched and all carry transactions. */
  predicate BusyWindow(node: Node, head: nat, n: nat) {
    forall k :: 0 <= k < n ==>
      node.fullBlock(BlockAt(head, k)).Some? && node.fullBlock(BlockAt(head, k)).value.transactions != []
  }

  /** As written: over a window of blocks with transactions no gap is ever recorded. */
  lemma {:induction false} BusyWindowNoGaps(node: Node, head: nat, n: nat)
    requires NodeDecodable(node) && HeaderFailsWhenBusy(node) && BusyWindow(node, head, n)
    ensures BlockTimes(node, head, n) == []
    decreases n
  {
    if n > 0 {
      BusyWindowNoGaps(node, head, n - 1);
      if n > 1 {
        assert node.fullBlock(BlockAt(head, n - 2)).Some?;
        assert node.header(BlockAt(head, n - 2)).None?;
      }
    }
  }

  /**
   * As written, a cycle whose ten blocks were all fetched and all carry
   * transactions publishes neither the block time nor TPS, however the
   * timestamps advance.
   */
  lemma BusyCycleNoBlockTime(node: Node)
    requires NodeDecodable(node) && CycleOutcome(node) == Collected
    requires HeaderFailsWhenBusy(node) && BusyWindow(node, Head(node), BlocksToAnalyze)
    ensures LastWrite(CycleWrites(node), Gauge(AvgBlockTime)) == None
    ensures LastWrite(CycleWrites(node), Gauge(TransactionsPerSecond)) == None
  {
    BusyWindowNoGaps(node, Head(node), BlocksToAnalyze);
    BlockTimeGauges(node);
  }

  /** The gaps only accumulate: the gaps of m iterations begin those of n >= m. */
  lemma {:induction false} BlockTimesMonotone(node: Node, head: nat, m: nat, n: nat)
    requires NodeDecodable(node) && m <= n
    ensures BlockTimes(node, head, m) <= BlockTimes(node, head, n)
    decreases n - m
  {
    if m < n {
      var before, e := BlockTimes(node, head, n - 1), BlockTimeEntry(node, head, n - 1);
      BlockTimesMonotone(node, head, m, n - 1);
      assert before <= before + e;
    }
  }

  /**
   * As intended, a cycle in which the head block and the one before it were
   * fetched, the head being the later, publishes the block time and TPS,
   * whether or not the blocks carry transactions.
   */
  lemma IntendedCycleBlockTime(node: Node)
    requires NodeDecodable(node) && CycleOutcome(node) == Collected && HeaderAnswers(node)
    requires node.fullBlock(Head(node)).Some? && node.fullBlock(BlockAt(Head(node), 1)).Some?
    requires HexToUint64(node.fullBlock(BlockAt(Head(node), 1)).value.timestamp)
             < HexToUint64(node.fullBlock(Head(node)).value.timestamp)
    ensures LastWrite(CycleWrites(node), Gauge(AvgBlockTime)).Some?
    ensures LastWrite(CycleWrites(node), Gauge(TransactionsPerSecond)).Some?
  {
    var head := Head(node);
    assert BlockAt(head, 0) == head;
    assert node.header(BlockAt(head, 0)) == Some(node.fullBlock(head).value.timestamp);
    assert BlockTimeEntry(node, head, 1) != [];
    assert BlockTimes(node, head, 2) == BlockTimes(node, head, 1) + BlockTimeEntry(node, head, 1);
    BlockTimesMonotone(node, head, 2, BlocksToAnalyze);
    BlockTimeGauges(node);
  }
}
