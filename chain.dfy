/**
 * The ledger data both exporters fold: blocks and transactions as the
 * JSON-RPC node returns them (every numeric field a hex QUANTITY string),
 * the per-transaction classification rules, and the node itself as an
 * oracle that answers each call or fails.
 */
module Chain {
  import opened Wrappers
  import opened Quantity

  /** The transaction fields the exporters read (hash, nonce, gas and the rest are not used). */
  datatype Transaction = Transaction(
    from: string,
    to: string,            // "" for a contract creation
    value: string,
    gasPrice: string,
    maxFeePerGas: string,
    input: string,         // "0x" when empty
    txType: string)        // the EIP-2718 type code, "" when absent

  /** The block fields the exporters read. */
  datatype Block = Block(
    timestamp: string,
    gasLimit: string,
    gasUsed: string,
    size: string,
    transactions: seq<Transaction>)

  /** The JSON-RPC node as seen by one collection cycle: each call either answers or fails. */
  datatype Node = Node(
    chainId: Option<string>,              // eth_chainId
    clientVersion: Option<string>,        // web3_clientVersion
    blockNumber: Option<string>,          // eth_blockNumber
    gasPrice: Option<string>,             // eth_gasPrice
    maxPriorityFee: Option<string>,       // eth_maxPriorityFeePerGas
    fullBlock: nat -> Option<Block>,      // eth_getBlockByNumber(n, true)
    header: nat -> Option<string>)        // timestamp of eth_getBlockByNumber(n, false)

  /** The fee-model variants told apart by the EIP-2718 type code. */
  datatype Kind = Legacy | Eip2930 | Eip1559 | Unknown

  /** The label value each kind is published under. */
  function KindLabel(k: Kind): string {
    match k
    case Legacy => "legacy"
    case Eip2930 => "eip2930"
    case Eip1559 => "eip1559"
    case Unknown => "unknown"
  }

  /** The four kinds in the order the model publishes them. */
  const AllKinds: seq<Kind> := [Legacy, Eip2930, Eip1559, Unknown]

  /** A hex field that `hexToUint64` can decode without the slice panicking. */
  predicate Decodable(s: string) {
    |s| != 1
  }

  /** A transaction whose fields decode as the fold needs them. */
  predicate TxDecodable(tx: Transaction) {
    && Decodable(tx.gasPrice)
    && (HexToUint64(tx.gasPrice) == 0 ==> Decodable(tx.maxFeePerGas))
    && Decodable(tx.value)
    && Decodable(tx.txType)
  }

  predicate BlockDecodable(b: Block) {
    && Decodable(b.timestamp) && Decodable(b.gasLimit) && Decodable(b.gasUsed) && Decodable(b.size)
    && forall j :: 0 <= j < |b.transactions| ==> TxDecodable(b.transactions[j])
  }

  /**
   * The transaction kind: an absent type is legacy; otherwise the decoded
   * code 0, 1 or 2 names legacy, EIP-2930 or EIP-1559 and anything else is
   * unknown.
   */
  function Classify(txType: string): (k: Kind)
    requires Decodable(txType)
    ensures k == Legacy <==> txType == "" || HexToUint64(txType) == 0
    ensures k == Eip2930 <==> txType != "" && HexToUint64(txType) == 1
    ensures k == Eip1559 <==> txType != "" && HexToUint64(txType) == 2
    ensures k == Unknown <==> txType != "" && HexToUint64(txType) > 2
  {
    if txType == "" then Legacy
    else
      match HexToUint64(txType)
      case 0 => Legacy
      case 1 => Eip2930
      case 2 => Eip1559
      case _ => Unknown
  }

  /**
   * A transaction is a contract call when its input is neither "0x" nor
   * shorter than three characters; since "0x" has two, that is exactly
   * "longer than two".
   */
  function IsContractCall(input: string): (r: bool)
    ensures r <==> |input| > 2
  {
    input != "0x" && |input| > 2
  }

  /** The price a transaction pays per gas: `gasPrice`, or `maxFeePerGas` when that decodes to 0. */
  function TxGasPrice(tx: Transaction): (p: nat)
    requires Decodable(tx.gasPrice)
    requires HexToUint64(tx.gasPrice) == 0 ==> Decodable(tx.maxFeePerGas)
    ensures p <= MaxU64
    ensures HexToUint64(tx.gasPrice) != 0 ==> p == HexToUint64(tx.gasPrice)
    ensures HexToUint64(tx.gasPrice) == 0 ==> p == HexToUint64(tx.maxFeePerGas)
    ensures p == 0 ==> HexToUint64(tx.gasPrice) == 0 && HexToUint64(tx.maxFeePerGas) == 0
  {
    var p := HexToUint64(tx.gasPrice);
    if p == 0 then HexToUint64(tx.maxFeePerGas) else p
  }

  predicate AllTxDecodable(txs: seq<Transaction>) {
    forall j :: 0 <= j < |txs| ==> TxDecodable(txs[j])
  }

  lemma BlockTxsDecodable(b: Block)
    requires BlockDecodable(b)
    ensures AllTxDecodable(b.transactions)
  {
  }

  /** The number of contract calls among the transactions. */
  function CallCount(txs: seq<Transaction>): (n: nat)
    ensures n <= |txs|
  {
    if txs == [] then 0
    else CallCount(txs[..|txs| - 1]) + if IsContractCall(txs[|txs| - 1].input) then 1 else 0
  }

  /** The number of simple transfers (transactions that are not contract calls). */
  function TransferCount(txs: seq<Transaction>): nat {
    if txs == [] then 0
    else TransferCount(txs[..|txs| - 1]) + if IsContractCall(txs[|txs| - 1].input) then 0 else 1
  }

  /** The number of transactions of kind k. */
  function KindCount(txs: seq<Transaction>, k: Kind): nat
    requires AllTxDecodable(txs)
    decreases |txs|
  {
    if txs == [] then 0
    else KindCount(txs[..|txs| - 1], k) + if Classify(txs[|txs| - 1].txType) == k then 1 else 0
  }

  /** Every transaction has exactly one kind, so the four kinds' counts add up to the transactions. */
  lemma {:induction false} KindCountsTotal(txs: seq<Transaction>)
    requires AllTxDecodable(txs)
    ensures KindCount(txs, Legacy) + KindCount(txs, Eip2930) + KindCount(txs, Eip1559) + KindCount(txs, Unknown) == |txs|
    decreases |txs|
  {
    if txs != [] {
      KindCountsTotal(txs[..|txs| - 1]);
    }
  }

  /** Every transaction is either a contract call or a simple transfer, never both. */
  lemma {:induction false} CallsPlusTransfers(txs: seq<Transaction>)
    ensures CallCount(txs) + TransferCount(txs) == |txs|
    decreases |txs|
  {
    if txs != [] {
      CallsPlusTransfers(txs[..|txs| - 1]);
    }
  }

  /** The addresses a transaction touches: its sender and, unless empty, its recipient. */
  function TxAddresses(tx: Transaction): set<string>
  {
    if tx.to != "" then {tx.from, tx.to} else {tx.from}
  }

  /** The set of addresses the transactions touch (the Go `uniqueAddrs` map's keys). */
  function AddressesOf(txs: seq<Transaction>): set<string>
  {
    if txs == [] then {} else AddressesOf(txs[..|txs| - 1]) + TxAddresses(txs[|txs| - 1])
  }

  /** A block's distinct addresses number at most twice its transactions. */
  lemma {:induction false} AddressesBound(txs: seq<Transaction>)
    ensures |AddressesOf(txs)| <= 2 * |txs|
    decreases |txs|
  {
    if txs != [] {
      var init := txs[..|txs| - 1];
      AddressesBound(init);
      var a := AddressesOf(init);
      var t := TxAddresses(txs[|txs| - 1]);
      assert |t| <= 2;
      assert |a + t| <= |a| + |t| by {
        assert |a + t| == |a| + |t - a|;
        assert t - a <= t;
      }
    }
  }

  /** Every sender, and every non-empty recipient, is among the collected addresses; nothing else is. */
  lemma {:induction false} AddressesMembers(txs: seq<Transaction>, x: string)
    ensures x in AddressesOf(txs) <==>
              exists j :: 0 <= j < |txs| && (x == txs[j].from || (x == txs[j].to && txs[j].to != ""))
    decreases |txs|
  {
    if txs != [] {
      var init := txs[..|txs| - 1];
      AddressesMembers(init, x);
      if x in AddressesOf(init) {
        var j :| 0 <= j < |init| && (x == init[j].from || (x == init[j].to && init[j].to != ""));
        assert txs[j] == init[j];
      }
      if exists j :: 0 <= j < |txs| && (x == txs[j].from || (x == txs[j].to && txs[j].to != "")) {
        var j :| 0 <= j < |txs| && (x == txs[j].from || (x == txs[j].to && txs[j].to != ""));
        if j < |init| {
          assert init[j] == txs[j];
        }
      }
    }
  }

  /** A node whose answers never make the Go code panic on a too-short hex string. */
  ghost predicate NodeDecodable(node: Node) {
    && (node.chainId.Some? ==> Decodable(node.chainId.value))
    && (node.blockNumber.Some? ==> |node.blockNumber.value| >= 2)
    && (node.gasPrice.Some? ==> |node.gasPrice.value| >= 2)
    && (node.maxPriorityFee.Some? ==> |node.maxPriorityFee.value| >= 2)
    && (forall n :: node.fullBlock(n).Some? ==> BlockDecodable(node.fullBlock(n).value))
    && (forall n :: node.header(n).Some? ==> Decodable(node.header(n).value))
  }

  /**
   * GetBlockNumber, GetGasPrice and GetMaxPriorityFeePerGas: the call fails,
   * or its answer fails strict parsing, or it gives the number.
   */
  function QuantityAnswer(answer: Option<string>): (r: Option<nat>)
    requires answer.Some? ==> |answer.value| >= 2
    ensures r.Some? <==> answer.Some? && ParseQuantity(answer.value).Parsed?
    ensures r.Some? ==> r.value <= MaxU64 && r.value == HexToUint64(answer.value)
  {
    match answer
    case None => None
    case Some(s) =>
      var r := ParseQuantity(s);
      if r.Parsed? then Some(r.n) else None
  }

  /** The block the i-th iteration of a window asks for: `currentBlock - uint64(i)`, wrapping. */
  function BlockAt(head: nat, i: nat): (n: nat)
    ensures n < U64
    ensures i <= head < U64 ==> n == head - i
  {
    (head - i) % U64
  }

  /** Fewer than 2^64 iterations never ask for the same block twice. */
  lemma BlockAtDistinct(head: nat, i: nat, j: nat)
    requires i < j < U64
    ensures BlockAt(head, i) != BlockAt(head, j)
  {
    var x, d := head - j, j - i;
    var q, r := x / U64, x % U64;
    assert x == q * U64 + r;
    if r + d < U64 {
      assert x + d == q * U64 + (r + d);
      assert (x + d) % U64 == r + d;
    } else {
      assert x + d == (q + 1) * U64 + (r + d - U64);
      assert (x + d) % U64 == r + d - U64;
    }
  }

  // ----- Per-kind counters (the Go map[string]int keyed by kind label) -----

  /**
   * The per-kind counts. Only the four kind labels ever become keys of the
   * Go map, and a label is a key exactly when its count is positive, so the
   * map is four counters here.
   */
  datatype KindCounts = KindCounts(legacy: nat, eip2930: nat, eip1559: nat, unknown: nat) {
    function Count(k: Kind): nat {
      match k
      case Legacy => legacy
      case Eip2930 => eip2930
      case Eip1559 => eip1559
      case Unknown => unknown
    }

    /** Whether the kind's label is a key of the Go map. */
    predicate Has(k: Kind) {
      Count(k) > 0
    }

    /** `m[kind]++`: a missing key counts as 0. */
    function Increment(k: Kind): KindCounts {
      match k
      case Legacy => this.(legacy := legacy + 1)
      case Eip2930 => this.(eip2930 := eip2930 + 1)
      case Eip1559 => this.(eip1559 := eip1559 + 1)
      case Unknown => this.(unknown := unknown + 1)
    }

    /** The sum of all counts. */
    function Total(): nat {
      legacy + eip2930 + eip1559 + unknown
    }
  }

  const NoKinds: KindCounts := KindCounts(0, 0, 0, 0)

  /** Incrementing one kind adds one to it and to the total, leaves the others alone, and makes it a key. */
  lemma IncrementCounts(m: KindCounts, k: Kind, k': Kind)
    ensures m.Increment(k).Count(k) == m.Count(k) + 1 && m.Increment(k).Has(k)
    ensures k' != k ==> m.Increment(k).Count(k') == m.Count(k')
    ensures m.Increment(k).Total() == m.Total() + 1
  {
  }
}
