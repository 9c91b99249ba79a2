/**
 * The exposed gauges: one value per series (a metric name with its label
 * values), held by the registry the collection cycles write into. A cycle's
 * effect is described as the ordered list of its gauge writes.
 */
module Metrics {
  import opened Wrappers

  /**
   * The gauges the two exporters declare, one constructor per metric name
   * (a name both declare is one constructor). Series of different
   * constructors are different series, since their names differ.
   */
  datatype Metric =
    // both exporters
    | ChainInfo | CurrentBlockNumber | GasPriceWei | GasPriceGwei | MaxPriorityFeePerGas
    | AvgBlockTime | TransactionsPerSecond | LastBlockTimestamp
    // the window exporter
    | CurrentBlockGasUsed | CurrentBlockGasLimit | CurrentBlockGasUtilization | CurrentBlockSize
    | CurrentBlockTxCount | AvgTxPerBlock | AvgGasUtilization | AvgGasPrice | TransactionTypesLast10
    | ContractCallsLast10 | SimpleTransfersLast10 | AvgUniqueAddresses | ValueTransferredLast10
    // the per-block explorer
    | BlockGasUsed | BlockGasLimit | BlockGasUtilization | BlockSize | BlockTxCount
    | TransactionTypes | ContractCalls | SimpleTransfers | UniqueAddresses | ValueTransferred
    | BlockAvgGasPrice | BlockMaxGasPrice | BlockMinGasPrice
  {
    /** The name the metric is exposed under. */
    function Name(): string {
      match this
      case ChainInfo => "monad_chain_info"
      case CurrentBlockNumber => "monad_current_block_number"
      case GasPriceWei => "monad_gas_price_wei"
      case GasPriceGwei => "monad_gas_price_gwei"
      case MaxPriorityFeePerGas => "monad_max_priority_fee_per_gas_wei"
      case AvgBlockTime => "monad_avg_block_time_seconds"
      case TransactionsPerSecond => "monad_transactions_per_second"
      case LastBlockTimestamp => "monad_last_block_timestamp"
      case CurrentBlockGasUsed => "monad_current_block_gas_used"
      case CurrentBlockGasLimit => "monad_current_block_gas_limit"
      case CurrentBlockGasUtilization => "monad_current_block_gas_utilization_percent"
      case CurrentBlockSize => "monad_current_block_size_bytes"
      case CurrentBlockTxCount => "monad_current_block_transaction_count"
      case AvgTxPerBlock => "monad_avg_transactions_per_block"
      case AvgGasUtilization => "monad_avg_gas_utilization_percent"
      case AvgGasPrice => "monad_avg_gas_price_wei"
      case TransactionTypesLast10 => "monad_transaction_types_last_10_blocks"
      case ContractCallsLast10 => "monad_contract_calls_last_10_blocks"
      case SimpleTransfersLast10 => "monad_simple_transfers_last_10_blocks"
      case AvgUniqueAddresses => "monad_avg_unique_addresses_per_block"
      case ValueTransferredLast10 => "monad_total_value_transferred_wei_last_10_blocks"
      case BlockGasUsed => "monad_block_gas_used"
      case BlockGasLimit => "monad_block_gas_limit"
      case BlockGasUtilization => "monad_block_gas_utilization_percent"
      case BlockSize => "monad_block_size_bytes"
      case BlockTxCount => "monad_block_transaction_count"
      case TransactionTypes => "monad_transaction_types"
      case ContractCalls => "monad_contract_calls"
      case SimpleTransfers => "monad_simple_transfers"
      case UniqueAddresses => "monad_unique_addresses"
      case ValueTransferred => "monad_total_value_transferred_wei"
      case BlockAvgGasPrice => "monad_avg_gas_price_per_block_wei"
      case BlockMaxGasPrice => "monad_max_gas_price_per_block_wei"
      case BlockMinGasPrice => "monad_min_gas_price_per_block_wei"
    }
  }

  /** A series: a metric and the values of its labels, in declaration order. */
  datatype Series = Series(metric: Metric, labels: seq<string>)

  /** An unlabelled gauge. */
  function Gauge(m: Metric): Series {
    Series(m, [])
  }

  /** One `Set` on a gauge. */
  datatype Write = Write(series: Series, value: real)

  /** The gauge values after the writes, applied in order, to g. */
  function Apply(g: map<Series, real>, ws: seq<Write>): map<Series, real>
    decreases |ws|
  {
    if ws == [] then g
    else Apply(g, ws[..|ws| - 1])[ws[|ws| - 1].series := ws[|ws| - 1].value]
  }

  /** The value the last write to s in ws sets, or None when no write touches s. */
  function LastWrite(ws: seq<Write>, s: Series): Option<real>
    decreases |ws|
  {
    if ws == [] then None
    else if ws[|ws| - 1].series == s then Some(ws[|ws| - 1].value)
    else LastWrite(ws[..|ws| - 1], s)
  }

  /** No write in ws is to a series of metric m. */
  predicate Untouched(ws: seq<Write>, m: Metric) {
    forall j :: 0 <= j < |ws| ==> ws[j].series.metric != m
  }

  /**
   * What a series holds after the writes: the last value written to it, or
   * its old value (or absence) when nothing wrote to it. In particular only
   * what was set changes.
   */
  lemma {:induction false} ApplyIsLastWrite(g: map<Series, real>, ws: seq<Write>, s: Series)
    ensures LastWrite(ws, s).Some? ==> s in Apply(g, ws) && Apply(g, ws)[s] == LastWrite(ws, s).value
    ensures LastWrite(ws, s).None? ==> (s in Apply(g, ws) <==> s in g)
    ensures LastWrite(ws, s).None? && s in g ==> Apply(g, ws)[s] == g[s]
    decreases |ws|
  {
    if ws != [] {
      ApplyIsLastWrite(g, ws[..|ws| - 1], s);
    }
  }

  /** Writing a then b: the last write of b wins, otherwise that of a. */
  lemma {:induction false} LastWriteConcat(a: seq<Write>, b: seq<Write>, s: Series)
    ensures LastWrite(a + b, s) == if LastWrite(b, s).Some? then LastWrite(b, s) else LastWrite(a, s)
    decreases |b|
  {
    if b == [] {
      assert a + b == a;
    } else {
      assert (a + b)[..|a + b| - 1] == a + b[..|b| - 1];
      LastWriteConcat(a, b[..|b| - 1], s);
    }
  }

  /** Writes to other metrics never touch s. */
  lemma {:induction false} LastWriteUntouched(ws: seq<Write>, s: Series)
    requires Untouched(ws, s.metric)
    ensures LastWrite(ws, s) == None
    decreases |ws|
  {
    if ws != [] {
      var init := ws[..|ws| - 1];
      assert Untouched(init, s.metric) by {
        forall j | 0 <= j < |init| ensures init[j].series.metric != s.metric {
          assert init[j] == ws[j];
        }
      }
      LastWriteUntouched(init, s);
    }
  }

  /**
   * In a log made of three parts where only the middle one writes to metric
   * s.metric, the last write to s is the middle part's.
   */
  lemma LastWriteOnly(pre: seq<Write>, x: seq<Write>, post: seq<Write>, s: Series)
    requires Untouched(pre, s.metric) && Untouched(post, s.metric)
    ensures LastWrite(pre + x + post, s) == LastWrite(x, s)
  {
    LastWriteUntouched(pre, s);
    LastWriteUntouched(post, s);
    LastWriteConcat(pre + x, post, s);
    LastWriteConcat(pre, x, s);
  }

  /** In a log made of five parts, the last write to s is that of the last part that writes to s. */
  lemma LastWriteFive(o: seq<Write>, l: seq<Write>, a: seq<Write>, k: seq<Write>, b: seq<Write>, s: Series)
    ensures LastWrite(o + l + a + k + b, s)
            == if LastWrite(b, s).Some? then LastWrite(b, s)
               else if LastWrite(k, s).Some? then LastWrite(k, s)
               else if LastWrite(a, s).Some? then LastWrite(a, s)
               else if LastWrite(l, s).Some? then LastWrite(l, s)
               else LastWrite(o, s)
  {
    LastWriteConcat(o + l + a + k, b, s);
    LastWriteConcat(o + l + a, k, s);
    LastWriteConcat(o + l, a, s);
    LastWriteConcat(o, l, s);
  }

  /** In a log made of four parts, the last write to s is that of the last part that writes to s. */
  lemma LastWriteFour(a: seq<Write>, b: seq<Write>, c: seq<Write>, d: seq<Write>, s: Series)
    ensures LastWrite(a + b + c + d, s)
            == if LastWrite(d, s).Some? then LastWrite(d, s)
               else if LastWrite(c, s).Some? then LastWrite(c, s)
               else if LastWrite(b, s).Some? then LastWrite(b, s)
               else LastWrite(a, s)
  {
    LastWriteConcat(a + b + c, d, s);
    LastWriteConcat(a + b, c, s);
    LastWriteConcat(a, b, s);
  }

  /** When only the first of three parts writes to s's metric, its last write to s is the last. */
  lemma LastWriteFirst(a: seq<Write>, b: seq<Write>, c: seq<Write>, s: Series)
    requires Untouched(b, s.metric) && Untouched(c, s.metric)
    ensures LastWrite(a + b + c, s) == LastWrite(a, s)
  {
    LastWriteUntouched(b, s);
    LastWriteUntouched(c, s);
    LastWriteConcat(a + b, c, s);
    LastWriteConcat(a, b, s);
  }

  /** A write to s followed only by writes to other series is the last write to s. */
  lemma {:induction false} LastWriteAt(ws: seq<Write>, k: nat, s: Series)
    requires k < |ws| && ws[k].series == s
    requires forall j :: k < j < |ws| ==> ws[j].series != s
    ensures LastWrite(ws, s) == Some(ws[k].value)
    decreases |ws|
  {
    if k < |ws| - 1 {
      var init := ws[..|ws| - 1];
      assert init[k] == ws[k];
      forall j | k < j < |init| ensures init[j].series != s {
        assert init[j] == ws[j];
      }
      LastWriteAt(init, k, s);
    }
  }

  /** The single write to s in a log whose other parts do not touch its metric is the last. */
  lemma LastWriteSingle(pre: seq<Write>, w: Write, post: seq<Write>, s: Series)
    requires Untouched(pre, s.metric) && Untouched(post, s.metric) && w.series == s
    ensures LastWrite(pre + [w] + post, s) == Some(w.value)
  {
    LastWriteOnly(pre, [w], post, s);
  }

  lemma UntouchedConcat(a: seq<Write>, b: seq<Write>, m: Metric)
    ensures Untouched(a + b, m) <==> Untouched(a, m) && Untouched(b, m)
  {
    if Untouched(a, m) && Untouched(b, m) {
      forall j | 0 <= j < |a + b| ensures (a + b)[j].series.metric != m {
        if j >= |a| {
          assert (a + b)[j] == b[j - |a|];
        }
      }
    }
    if Untouched(a + b, m) {
      forall j | 0 <= j < |a| ensures a[j].series.metric != m {
        assert (a + b)[j] == a[j];
      }
      forall j | 0 <= j < |b| ensures b[j].series.metric != m {
        assert (a + b)[|a| + j] == b[j];
      }
    }
  }

  /** Every write in ws is to an unlabelled series or to one whose last label is l. */
  predicate LabelledBy(ws: seq<Write>, l: string)
    decreases |ws|
  {
    ws == [] ||
      (LabelledBy(ws[..|ws| - 1], l) && var labels := ws[|ws| - 1].series.labels; labels == [] || labels[|labels| - 1] == l)
  }

  lemma {:induction false} LabelledByAll(ws: seq<Write>, l: string)
    requires forall j :: 0 <= j < |ws| ==> ws[j].series.labels == [] || ws[j].series.labels[|ws[j].series.labels| - 1] == l
    ensures LabelledBy(ws, l)
    decreases |ws|
  {
    if ws != [] {
      var init := ws[..|ws| - 1];
      forall j | 0 <= j < |init|
        ensures init[j].series.labels == [] || init[j].series.labels[|init[j].series.labels| - 1] == l
      {
        assert init[j] == ws[j];
      }
      LabelledByAll(init, l);
    }
  }

  /** Writes labelled by l never touch a series whose last label is another. */
  lemma {:induction false} LastWriteOtherLabel(ws: seq<Write>, l: string, s: Series)
    requires LabelledBy(ws, l) && s.labels != [] && s.labels[|s.labels| - 1] != l
    ensures LastWrite(ws, s) == None
    decreases |ws|
  {
    if ws != [] {
      LastWriteOtherLabel(ws[..|ws| - 1], l, s);
    }
  }

  /** The writes of a loop, one part per iteration in order. */
  function Flatten(parts: seq<seq<Write>>): seq<Write>
    decreases |parts|
  {
    if parts == [] then [] else Flatten(parts[..|parts| - 1]) + parts[|parts| - 1]
  }

  /** A loop none of whose iterations writes to metric m leaves it untouched. */
  lemma {:induction false} FlattenUntouched(parts: seq<seq<Write>>, m: Metric)
    requires forall j :: 0 <= j < |parts| ==> Untouched(parts[j], m)
    ensures Untouched(Flatten(parts), m)
    decreases |parts|
  {
    if parts != [] {
      var k := |parts| - 1;
      FlattenUntouched(parts[..k], m);
      UntouchedConcat(Flatten(parts[..k]), parts[k], m);
    }
  }

  /** When only iteration i of a loop writes to s's metric, the last write to s is that iteration's. */
  lemma {:induction false} FlattenOnly(parts: seq<seq<Write>>, i: nat, s: Series)
    requires i < |parts|
    requires forall j :: 0 <= j < |parts| && j != i ==> Untouched(parts[j], s.metric)
    ensures LastWrite(Flatten(parts), s) == LastWrite(parts[i], s)
    decreases |parts|
  {
    var k := |parts| - 1;
    LastWriteConcat(Flatten(parts[..k]), parts[k], s);
    if k == i {
      FlattenUntouched(parts[..k], s.metric);
      LastWriteUntouched(Flatten(parts[..k]), s);
    } else {
      LastWriteUntouched(parts[k], s);
      FlattenOnly(parts[..k], i, s);
    }
  }

  /** A loop whose every iteration writes under its own label never touches a series labelled by none of them. */
  lemma {:induction false} FlattenOther(parts: seq<seq<Write>>, labels: seq<string>, s: Series)
    requires |labels| == |parts| && s.labels != []
    requires forall j :: 0 <= j < |parts| ==> LabelledBy(parts[j], labels[j])
    requires forall j :: 0 <= j < |parts| ==> s.labels[|s.labels| - 1] != labels[j]
    ensures LastWrite(Flatten(parts), s) == None
    decreases |parts|
  {
    if parts != [] {
      var k := |parts| - 1;
      FlattenOther(parts[..k], labels[..k], s);
      LastWriteOtherLabel(parts[k], labels[k], s);
      LastWriteConcat(Flatten(parts[..k]), parts[k], s);
    }
  }

  /**
   * When the iterations write under distinct labels, a series carrying the
   * label of iteration i is decided by that iteration alone.
   */
  lemma {:induction false} FlattenOf(parts: seq<seq<Write>>, labels: seq<string>, i: nat, s: Series)
    requires |labels| == |parts| && i < |parts|
    requires forall j :: 0 <= j < |parts| ==> LabelledBy(parts[j], labels[j])
    requires forall j :: 0 <= j < |parts| && j != i ==> labels[j] != labels[i]
    requires s.labels != [] && s.labels[|s.labels| - 1] == labels[i]
    ensures LastWrite(Flatten(parts), s) == LastWrite(parts[i], s)
    decreases |parts|
  {
    var k := |parts| - 1;
    LastWriteConcat(Flatten(parts[..k]), parts[k], s);
    if k == i {
      FlattenOther(parts[..k], labels[..k], s);
    } else {
      LastWriteOtherLabel(parts[k], labels[k], s);
      FlattenOf(parts[..k], labels[..k], i, s);
    }
  }

  lemma {:induction false} LabelledByConcat(a: seq<Write>, b: seq<Write>, l: string)
    requires LabelledBy(a, l) && LabelledBy(b, l)
    ensures LabelledBy(a + b, l)
    decreases |b|
  {
    if b == [] {
      assert a + b == a;
    } else {
      assert (a + b)[..|a + b| - 1] == a + b[..|b| - 1];
      LabelledByConcat(a, b[..|b| - 1], l);
    }
  }

  lemma {:induction false} ApplyAppend(g: map<Series, real>, a: seq<Write>, b: seq<Write>)
    ensures Apply(g, a + b) == Apply(Apply(g, a), b)
    decreases |b|
  {
    if b == [] {
      assert a + b == a;
    } else {
      assert (a + b)[..|a + b| - 1] == a + b[..|b| - 1];
      ApplyAppend(g, a, b[..|b| - 1]);
    }
  }

  lemma AppendAssoc(a: seq<Write>, b: seq<Write>, c: seq<Write>)
    ensures a + b + c == a + (b + c)
  {
  }

  /** A write log extended by four single writes, one at a time. */
  lemma AppendFour(h: seq<Write>, a: Write, b: Write, c: Write, d: Write,
                   ha: seq<Write>, hb: seq<Write>, hc: seq<Write>, hd: seq<Write>)
    requires ha == h + [a] && hb == ha + [b] && hc == hb + [c] && hd == hc + [d]
    ensures hd == h + [a, b, c, d] && hd[|h|..] == [a, b, c, d]
  {
  }

  /** Regrouping a write log extended by four parts. */
  lemma AppendRegroup4(h: seq<Write>, a: seq<Write>, b: seq<Write>, c: seq<Write>, d: seq<Write>)
    ensures h + a + b + c + d == h + (a + b + c + d)
  {
  }

  /** Regrouping the write log of a cycle made of an opening and four later parts. */
  lemma AppendRegroup(h: seq<Write>, a: seq<Write>, b: seq<Write>, c: seq<Write>, d: seq<Write>, e: seq<Write>)
    ensures h + a + b + c + d + e == h + (a + b + c + d + e)
  {
  }

  /**
   * The gauge registry the metrics are exposed from. The ghost fields record
   * the values it started with and every write since, so that a cycle can
   * be specified by the writes it makes.
   */
  class Registry {
    var gauges: map<Series, real>
    ghost var initial: map<Series, real>
    ghost var history: seq<Write>

    ghost predicate Valid()
      reads this
    {
      gauges == Apply(initial, history)
    }

    constructor ()
      ensures Valid() && gauges == map[] && history == []
    {
      gauges := map[];
      initial := map[];
      history := [];
    }

    /** `Gauge.Set`: the series now holds v; every other series is unchanged. */
    method Set(s: Series, v: real)
      requires Valid()
      modifies this
      ensures Valid() && initial == old(initial)
      ensures history == old(history) + [Write(s, v)]
      ensures gauges == old(gauges)[s := v]
    {
      gauges := gauges[s := v];
      history := history + [Write(s, v)];
      assert history[..|history| - 1] == old(history);
    }
  }
}
