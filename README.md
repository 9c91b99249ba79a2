# Monad exporters, front proxy and habit rules, modelled in Dafny

This project models the core of the `infra-stanodn` infrastructure repository.
That is four pieces of logic.

- **The two Monad metric exporters.**
  - `docker-apps/monad-explorer/exporter/main.go` is the *window exporter*. Each cycle it reads chain id, client version, head block number, gas price and max priority fee from a Monad node. It then folds the 5 most recent blocks into window totals and sets aggregate Prometheus gauges: averages, call/transfer counts, value, transaction types, block time and TPS.
  - `docker-apps/monad-explorer/main.go` is the *per-block explorer*. It has the same opening, then publishes one labelled series per block for the 10 most recent blocks. It also collects the timestamp gaps between neighbouring blocks and sets the average block time and TPS from them.
  - Both decode JSON-RPC hex quantities with `hexToUint64`.
- **The front proxy's routing** (`front-proxy/worker.js`, `handleRequest`).
  - The root path serves the homepage.
  - Any other path goes to the first configured service whose path is a prefix of it. The rest of the path is forwarded, or "/" when nothing is left.
  - A path no service claims gets a 404.
- **The habit tracker's scheduling rules** (`habbit/lib/habits.ts`).
  - Whether a habit is due today, by frequency: DAILY (optionally restricted to weekdays), WEEKLY, CUSTOM (every N days), or anything else.
  - The current streak of consecutive logged days, capped at 365.
- **E-mail normalisation** (`habbit/lib/auth.ts`): trim, then lower-case.

Modules and files:

| file | module | what it holds |
|---|---|---|
| `wrappers.dfy` | `Wrappers` | `Option` |
| `quantity.dfy` | `Quantity` | `strconv.ParseUint(s, 16, 64)`, `hexToUint64`, hex and decimal formatting, uint64 wrap-around |
| `chain.dfy` | `Chain` | blocks, transactions, the node as an oracle, transaction classification, the kind counts that stand for the Go `map[string]int` |
| `metrics.dfy` | `Metrics` | metric names and series, the write log, the gauge `Registry` class |
| `cycle.dfy` | `Cycle` | the opening both exporters share (chain info, head number, gas price, priority fee) |
| `exporter.dfy` | `Exporter` | the window exporter's `CollectMetrics` |
| `explorer.dfy` | `Explorer` | the per-block explorer's `CollectMetrics` |
| `proxy.dfy` | `Proxy` | `handleRequest` routing |
| `habits.dfy` | `Habits` | `isHabitDueToday`, `calcStreak` |
| `auth.dfy` | `Auth` | `normalizeEmail` |

How the exporters are specified:
- A collection cycle is a sequence of gauge writes, the *write log* (`CycleWrites(node)`).
- `CollectMetrics` updates a `Registry` whose gauge map is the old map with the log applied.
- The lemmas state what the gauges hold after a cycle, in terms of the blocks the node returned. Each uses `LastWrite`, the last value the log writes to a series.
- Go's `uint64` sums wrap modulo 2^64. The model keeps the exact sums and states the published values as those sums modulo 2^64.
- `float64` arithmetic is modelled as exact real arithmetic.

## Model

| member | source | states |
|---|---|---|
| Quantity.ParseUint16 | docker-apps/monad-explorer/exporter/main.go:281-288 | `strconv.ParseUint(s, 16, 64)` never yields more than 2^64-1 (syntax error → 0, overflow → MaxUint64) |
| Quantity.HexToUint64 | docker-apps/monad-explorer/exporter/main.go:335-341 | the decoded quantity is at most 2^64-1; length-1 input (which panics on `hexStr[2:]`) is excluded |
| Quantity.ParseQuantity | docker-apps/monad-explorer/exporter/main.go:281-288 | the strict accessors (`GetBlockNumber`, `GetGasPrice`) succeed with exactly the value `hexToUint64` gives |
| Quantity.HexEmptyIsZero | docker-apps/monad-explorer/exporter/main.go:335-341 | "" and "0x" decode to 0 |
| Quantity.HexNonHexBodyIsZero | docker-apps/monad-explorer/main.go:332-338 | a non-hex character met before any overflow makes the whole quantity 0 (the parse error is dropped) |
| Quantity.HexOverflowSaturates | docker-apps/monad-explorer/main.go:332-338 | an all-hex body worth more than 2^64-1 decodes to 2^64-1 |
| Quantity.HexWellFormedBody | docker-apps/monad-explorer/exporter/main.go:335-341 | a well-formed body in range decodes to its hexadecimal value, and the strict parse agrees |
| Quantity.FormatHex | docker-apps/monad-explorer/exporter/main.go:396 | `%x` produces lower-case hex digits with no leading zero |
| Quantity.FormatHexValue | docker-apps/monad-explorer/exporter/main.go:396 | the hex digits `%x` prints are worth the number |
| Quantity.HexRoundTrip | docker-apps/monad-explorer/exporter/main.go:335-341 | `hexToUint64("0x" + %x(n)) == n` and the strict parse gives `n`, for every uint64 `n` |
| Quantity.FormatDecimalValue | docker-apps/monad-explorer/main.go:396 | `%d` prints decimal digits worth the number |
| Quantity.FormatDecimalInjective | docker-apps/monad-explorer/main.go:396 | distinct numbers get distinct decimal labels |
| Quantity.AddWrap | docker-apps/monad-explorer/exporter/main.go:436-437 | wrapping after each uint64 addition equals wrapping the exact sum once |
| Chain.Classify | docker-apps/monad-explorer/exporter/main.go:468-481 | an empty or 0 type is legacy, 1 is eip2930, 2 is eip1559, anything larger is unknown, each as an if-and-only-if |
| Chain.IsContractCall | docker-apps/monad-explorer/exporter/main.go:485 | a transaction is a contract call exactly when its input is longer than two characters |
| Chain.TxGasPrice | docker-apps/monad-explorer/exporter/main.go:453-456 | the price is `gasPrice`, or `maxFeePerGas` when `gasPrice` is 0; it is at most 2^64-1 |
| Chain.KindCountsTotal | docker-apps/monad-explorer/main.go:467-481 | every transaction has exactly one kind: the four kind counts add up to the transaction count |
| Chain.CallsPlusTransfers | docker-apps/monad-explorer/exporter/main.go:484-489 | every transaction is counted once, as a call or as a transfer |
| Chain.AddressesBound | docker-apps/monad-explorer/exporter/main.go:462-466 | a block has at most two distinct addresses per transaction |
| Chain.AddressesMembers | docker-apps/monad-explorer/exporter/main.go:462-466 | the address set holds exactly each sender and each non-empty recipient |
| Chain.QuantityAnswer | docker-apps/monad-explorer/exporter/main.go:281-288 | a quantity call succeeds exactly when the node answers and the answer parses, and then yields `hexToUint64` of it |
| Chain.BlockAt | docker-apps/monad-explorer/exporter/main.go:395 | `currentBlock - uint64(i)` is a uint64, and is `head - i` when no wrap occurs |
| Chain.BlockAtDistinct | docker-apps/monad-explorer/main.go:387 | the block numbers a cycle asks for are distinct |
| Chain.IncrementCounts | docker-apps/monad-explorer/exporter/main.go:482 | `txTypeCountTotal[txType]++` raises that kind by one, leaves the others, and marks the key present |
| Metrics.Registry.Set | docker-apps/monad-explorer/exporter/main.go:422 | `Set` maps the series to the value and leaves every other series alone; the history gains that one write, and the gauges stay the initial ones with the history applied |
| Cycle.CycleOutcome | docker-apps/monad-explorer/exporter/main.go:350-377 | the cycle gets past its opening exactly when chain id, client version, block number and gas price all succeed |
| Cycle.Head | docker-apps/monad-explorer/exporter/main.go:365-369 | the head block number is `hexToUint64` of the node's answer |
| Cycle.CollectHead | docker-apps/monad-explorer/exporter/main.go:364-382 | block number, then gas price, each returning early on failure; the writes are `HeadWrites` and the outcome is `CycleOutcome` |
| Cycle.CollectOpening | docker-apps/monad-explorer/exporter/main.go:349-382 | the whole opening: its writes are `OpeningWrites`, its outcome `CycleOutcome`, and on success it returns the head |
| Cycle.OpeningWritesByOutcome | docker-apps/monad-explorer/exporter/main.go:350-382 | an early return keeps only the writes before the failed call; a successful opening writes, in order, chain info, the head number, the gas price in wei and in gwei (wei/10^9), then the priority fee when that optional call succeeds |
| Cycle.OpeningWritesCollected | docker-apps/monad-explorer/exporter/main.go:349-382 | a successful opening's writes are chain info, then the head number, then the price writes |
| Cycle.PublishPrices | docker-apps/monad-explorer/exporter/main.go:376-382 | the wei and gwei gauges are set from the price, and the priority-fee gauge only when that call succeeds |
| Cycle.OpeningUntouched | docker-apps/monad-explorer/main.go:347-379 | the opening writes only its five metrics |
| Cycle.AbortedOpening | docker-apps/monad-explorer/main.go:347-379 | a failed opening changes only what was set before the failed call |
| Exporter.ScanTransaction | docker-apps/monad-explorer/exporter/main.go:451-489 | one transaction: the wrapped price and value sums, the kind, the call/transfer count and the addresses follow the exact fold |
| Exporter.FoldTx | docker-apps/monad-explorer/exporter/main.go:451-482 | folding one transaction counts one more price and one more of its kind, never lowers the price and value sums, and leaves the block-level sums and counts alone |
| Exporter.WindowTotals | docker-apps/monad-explorer/exporter/main.go:394-496 | over the fetched blocks of the window, calls plus transfers and the number of counted prices both equal the transaction count |
| Exporter.ScanTransactions | docker-apps/monad-explorer/exporter/main.go:447-495 | the inner loop leaves the wrapped accumulators of the exact fold, the block's call and transfer counts and its address set |
| Exporter.PublishCurrentBlock | docker-apps/monad-explorer/exporter/main.go:420-433 | the current-block gauges, with the utilisation only when the gas limit is non-zero |
| Exporter.PublishCurrentStats | docker-apps/monad-explorer/exporter/main.go:422-425 | gas used, gas limit, size and transaction count are written to the current-block gauges, in that order |
| Exporter.ScanBlock | docker-apps/monad-explorer/exporter/main.go:413-495 | one fetched block adds its gas sums, transactions and per-block counts to the window accumulators, wrapped |
| Exporter.ScanStep | docker-apps/monad-explorer/exporter/main.go:394-496 | one loop iteration: a failed fetch is skipped; only the head block writes gauges; the accumulators advance to the next window prefix |
| Exporter.ScanWindow | docker-apps/monad-explorer/exporter/main.go:394-496 | the window loop: accumulators equal the wrapped exact totals of the 5 blocks; the writes are the head block's |
| Exporter.PublishAggregates | docker-apps/monad-explorer/exporter/main.go:498-515 | the aggregate gauges are written in order, with utilisation and price guarded |
| Exporter.PublishKinds | docker-apps/monad-explorer/exporter/main.go:517-520 | one series per kind present in the map |
| Exporter.PublishKind | docker-apps/monad-explorer/exporter/main.go:520 | a kind's series is set to its count when the kind is a key of the map, and nothing is written otherwise |
| Exporter.PublishBlockTime | docker-apps/monad-explorer/exporter/main.go:522-573 | block time from the oldest and head timestamps, and TPS from it |
| Exporter.CollectMetrics | docker-apps/monad-explorer/exporter/main.go:343-576 | the cycle: the registry's gauges are the old gauges with `CycleWrites` applied; the outcome is `CycleOutcome` |
| Exporter.FoldTxsCounts | docker-apps/monad-explorer/exporter/main.go:451-490 | the transaction fold counts each transaction's price and kind once |
| Exporter.WindowConservation | docker-apps/monad-explorer/exporter/main.go:436-494 | over the window, calls plus transfers, the kind total and the price count all equal the transaction count; addresses are at most twice that |
| Exporter.GuardedAverages | docker-apps/monad-explorer/exporter/main.go:499-508 | average tx/block is txs/5; utilisation is written iff the wrapped gas-limit sum is non-zero; price average is written iff the window has a transaction, and is the wrapped price sum over the count |
| Exporter.AggregateCounts | docker-apps/monad-explorer/exporter/main.go:510-515 | the address average and the call, transfer and value totals the aggregate writes leave |
| Exporter.WindowCountGauges | docker-apps/monad-explorer/exporter/main.go:510-515 | after a cycle: address average is the distinct-address sum over 5 (at most 2·txs/5); calls and transfers add up to the window's transactions |
| Exporter.HeadBlockGauges | docker-apps/monad-explorer/exporter/main.go:420-433 | after a cycle, when the head block was fetched the current-block gauges hold its decoded gas used, gas limit, size, transaction count and timestamp, and the utilisation is used/limit·100 iff the gas limit is non-zero; when it was not fetched none of the six is written |
| Exporter.HeadBlockGauge | docker-apps/monad-explorer/exporter/main.go:394-433 | a current-block gauge ends the cycle as the head block's own writes left it, and unwritten when the head block was not fetched |
| Exporter.KindGauges | docker-apps/monad-explorer/exporter/main.go:517-520 | after a cycle, a kind's series holds its count in the window when it occurs and is not written otherwise |
| Exporter.AbsentKindKept | docker-apps/monad-explorer/exporter/main.go:517-520 | a kind absent from this window keeps its earlier value (the stale-series behaviour of the Go code) |
| Exporter.BlockTimeGauges | docker-apps/monad-explorer/exporter/main.go:524-573 | block time is written iff both timestamps were fetched and the head's is later, as their difference over 4; TPS is written exactly then, as (txs/5)/block time |
| Exporter.AbortedCycle | docker-apps/monad-explorer/exporter/main.go:350-377 | a cycle that returns early changes only what it set before the failed call |
| Explorer.TallyTransaction | docker-apps/monad-explorer/main.go:444-489 | one transaction of the inner loop, as the step of `Tally` |
| Explorer.TallyTransactions | docker-apps/monad-explorer/main.go:437-489 | the inner loop computes `Tally` of the block's transactions |
| Explorer.Tally | docker-apps/monad-explorer/main.go:437-489 | the inner loop's locals after the block's transactions; what they hold is stated by `TallyCounts`, `TallyKinds`, `TallyPriceSum`, `TallyValueSum`, `TallyBounds` and `TallyAttained` |
| Explorer.TallyPriceSum | docker-apps/monad-explorer/main.go:458 | the price sum is the exact sum of the prices modulo 2^64 |
| Explorer.TallyValueSum | docker-apps/monad-explorer/main.go:459 | the value sum is the exact sum of the values modulo 2^64 |
| Explorer.TallyCounts | docker-apps/monad-explorer/main.go:462-488 | calls and transfers split the transactions; the address set is the addresses touched (at most two per transaction); every transaction gets a kind |
| Explorer.TallyKinds | docker-apps/monad-explorer/main.go:467-481 | the kind map counts the block's transactions of each kind |
| Explorer.TallyBounds | docker-apps/monad-explorer/main.go:451-456 | the maximum and minimum bound every price of the block |
| Explorer.TallyAttained | docker-apps/monad-explorer/main.go:451-456 | the maximum and the minimum are prices of the block's transactions |
| Explorer.AvgPriceWithinExtremes | docker-apps/monad-explorer/main.go:492 | the published average price is at most the maximum, and at least the minimum while the price sum fits in 64 bits |
| Explorer.BlockLabelDecimal | docker-apps/monad-explorer/main.go:396 | a block's label is the decimal form of the block number it asks for |
| Explorer.PublishHeader | docker-apps/monad-explorer/main.go:405-418 | a block's own series, then the last timestamp for the head block |
| Explorer.PublishStats | docker-apps/monad-explorer/main.go:405-408 | gas used, gas limit, size and transaction count are written under the block's label, in that order |
| Explorer.PublishTallyPrices | docker-apps/monad-explorer/main.go:492-494 | average (wrapped sum over the count, integer division), maximum and minimum price under the block's label |
| Explorer.PublishTallyCounts | docker-apps/monad-explorer/main.go:495-498 | calls, transfers, distinct addresses and wrapped value under the block's label |
| Explorer.PublishKinds | docker-apps/monad-explorer/main.go:501-503 | one series per kind present in the block's map, each under the block's label |
| Explorer.PublishKind | docker-apps/monad-explorer/main.go:502 | a kind's series under the block's label is set to its count when the kind is a key of the map, and nothing is written otherwise |
| Explorer.PublishTally | docker-apps/monad-explorer/main.go:491-503 | the transaction series of a block with transactions |
| Explorer.BlockTimeGap | docker-apps/monad-explorer/main.go:420-432 | a gap is appended exactly when the newer block's header is fetched and its timestamp is later |
| Explorer.ScanStep | docker-apps/monad-explorer/main.go:386-505 | one iteration: its writes, the running transaction total and the gaps so far |
| Explorer.ScanBlocks | docker-apps/monad-explorer/main.go:386-505 | the block loop over the 10 most recent blocks |
| Explorer.AverageBlockTime | docker-apps/monad-explorer/main.go:508-513 | the summing loop gives the mean of the recorded gaps |
| Explorer.PublishBlockTime | docker-apps/monad-explorer/main.go:507-522 | block time when some gap was recorded, and TPS when it is positive |
| Explorer.CollectMetrics | docker-apps/monad-explorer/main.go:340-525 | the cycle: the registry's gauges are the old gauges with `CycleWrites` applied; the outcome is `CycleOutcome` |
| Explorer.IterationsLabelled | docker-apps/monad-explorer/main.go:396-503 | every iteration writes under its own block's label, and the labels are distinct |
| Explorer.PerBlockSeries | docker-apps/monad-explorer/main.go:386-505 | after a cycle, a per-block series is decided by the iteration whose block number it carries |
| Explorer.OtherBlockSeries | docker-apps/monad-explorer/main.go:386-505 | a per-block series carrying none of the ten block numbers is not written |
| Explorer.FetchedBlockSeries | docker-apps/monad-explorer/main.go:386-505 | a fetched block's series end the cycle as its own iteration left them |
| Explorer.SkippedBlockSeries | docker-apps/monad-explorer/main.go:390-394 | this cycle writes no per-block series under the number of a block the node did not return |
| Explorer.SkippedBlockKept | docker-apps/monad-explorer/main.go:390-394 | such a series keeps whatever value an earlier cycle gave it, and stays absent if it had none |
| Explorer.BlockGauges | docker-apps/monad-explorer/main.go:405-408 | after a cycle, each fetched block's gas used, gas limit, size and transaction count are published under its number |
| Explorer.BlockUtilizationGauge | docker-apps/monad-explorer/main.go:410-413 | a fetched block's utilisation is published iff its gas limit is non-zero, as used/limit·100 |
| Explorer.BlockTxGauges | docker-apps/monad-explorer/main.go:491-498 | a block with transactions publishes the wrapped price sum over the count (within the extremes), max, min, calls and transfers (summing to its transactions), distinct addresses and wrapped value |
| Explorer.EmptyBlockTxGauges | docker-apps/monad-explorer/main.go:437 | a fetched block without transactions publishes none of the transaction series |
| Explorer.BlockKindGauges | docker-apps/monad-explorer/main.go:500-503 | a block's kind series holds its count of that kind when there is one and is not written otherwise; the counts add up to the block's transactions |
| Explorer.LastTimestampGauge | docker-apps/monad-explorer/main.go:415-418 | the last-block timestamp holds the head block's timestamp when it was fetched, and is unwritten otherwise |
| Explorer.BlockTimesPositive | docker-apps/monad-explorer/main.go:427-430 | every recorded gap is positive |
| Explorer.BlockTimeGauges | docker-apps/monad-explorer/main.go:507-522 | block time is the mean gap, written iff some gap was recorded; TPS is then always written, as (txs/10)/block time |
| Explorer.BlockTimesMonotone | docker-apps/monad-explorer/main.go:420-432 | the gaps only accumulate: those of the first m iterations begin those of any later iteration |
| Explorer.BusyWindowNoGaps | docker-apps/monad-explorer/main.go:420-432 | when the header-only fetch fails for every block with transactions, a window of such blocks records no gap |
| Explorer.BusyCycleNoBlockTime | docker-apps/monad-explorer/main.go:420-432 | as written: a cycle whose ten blocks were all fetched and all carry transactions writes neither block time nor TPS |
| Explorer.IntendedCycleBlockTime | docker-apps/monad-explorer/main.go:420-432 | as intended: with the header fetch answering, a cycle whose head is later than the block before it writes both block time and TPS |
| Explorer.AbortedCycle | docker-apps/monad-explorer/main.go:347-379 | a cycle that returns early changes only what it set before the failed call |
| Proxy.FirstMatch | front-proxy/worker.js:222-228 | the index of the first service, in configuration order, whose path is a prefix; none when no service matches |
| Proxy.Remainder | front-proxy/worker.js:225 | the remainder is never empty: the rest of the path after the service path, or "/" |
| Proxy.RouteOf | front-proxy/worker.js:207-233 | homepage iff the path is "/" or ""; 404 iff no service path is a prefix; otherwise the first prefix service with the remainder |
| Proxy.HandleRequest | front-proxy/worker.js:207-233 | the handler's loop with `break` decides exactly `RouteOf` |
| Proxy.FirstPrefixWins | front-proxy/worker.js:222-228 | a non-root path goes to the earliest service whose path is its prefix |
| Proxy.ConfiguredRoutes | front-proxy/worker.js:9-26 | with the shipped configuration, "/vpsx" reaches vps with "x" (prefix, not segment, matching), "/vps" forwards "/", "/s3/bucket" forwards "/bucket", "/grafana" is 404 |
| Habits.LoggedOn | habbit/lib/habits.ts:7 | `already` holds iff some log falls on today's date |
| Habits.LatestMs | habbit/lib/habits.ts:21 | the log the newest-first sort puts first has the latest time |
| Habits.Interval | habbit/lib/habits.ts:24 | an absent or zero `everyXDays` counts as an interval of 1 |
| Habits.IsDueToday | habbit/lib/habits.ts:3-28 | a daily or weekly habit logged today is not due; a custom habit with no logs is due; any other frequency is due |
| Habits.DailyAndWeeklyDue | habbit/lib/habits.ts:9-18 | a restricted daily habit is due iff today is one of its weekdays and unlogged; an unrestricted daily or a weekly habit iff unlogged today |
| Habits.CustomDue | habbit/lib/habits.ts:20-25 | a custom habit is due with no logs, and otherwise iff every log lies at least the interval in whole days in the past |
| Habits.OtherFrequencyDue | habbit/lib/habits.ts:27 | any other frequency is always due |
| Habits.LoggingNowClearsDue | habbit/lib/habits.ts:3-28 | logging now makes a daily, weekly, or positive-interval custom habit not due |
| Habits.DueIgnoresOrder | habbit/lib/habits.ts:21 | the answer depends only on which logs exist, so the sort's reordering cannot change it |
| Habits.Streak | habbit/lib/habits.ts:30-40 | the streak is at most 365, zero iff today is unlogged, covers logged days only, and stops at the first unlogged day |
| Habits.CalcStreak | habbit/lib/habits.ts:30-40 | the counting loop with `break` returns `Streak` of the logged days |
| Habits.StreakUnique | habbit/lib/habits.ts:33-38 | the streak is the one length whose days are all logged and whose next day (below the cap) is not |
| Habits.StreakIgnoresOrder | habbit/lib/habits.ts:31 | the streak depends only on the set of logged days |
| Auth.Trim | habbit/lib/auth.ts:24 | `trim()` returns the infix of the string between an all-white-space prefix and an all-white-space suffix, with no ECMAScript white space left at either end |
| Auth.ToLower | habbit/lib/auth.ts:24 | `toLowerCase()` keeps the length and maps each character |
| Auth.NormalizeEmail | habbit/lib/auth.ts:23-25 | the normalised address is no longer than the input and has no upper-case letter |
| Auth.ToLowerTrimmed | habbit/lib/auth.ts:24 | lower-casing a string with no white space at its ends leaves none there |
| Auth.NormalizedShape | habbit/lib/auth.ts:23-25 | a normalised address has no leading or trailing white space, no upper-case letter, and is no longer than the input |
| Auth.NormalizedInfix | habbit/lib/auth.ts:23-25 | the normalised address is the lower-cased infix of the input left once leading and trailing white space are cut off |
| Auth.NormalizeFixedPoint | habbit/lib/auth.ts:23-25 | a trimmed lower-case address is its own normal form |
| Auth.NormalizeIdempotent | habbit/lib/auth.ts:23-25 | normalising twice is normalising once |

## Left out

- JSON-RPC transport and JSON decoding are not modelled. The node is an oracle (`Chain.Node`): one optional answer per call and one optional block per block number. A failed request, a JSON error and a rate-limit response are all "no answer".
- Prometheus itself is not modelled: registration, the HTTP `/metrics` endpoint and label cardinality. A gauge is a map entry and `Set` overwrites it.
- The scheduler, the `time.Sleep` rate-limit delays and the logging are left out. So are the collection-time and failure metrics, which read the clock.
- `float64` arithmetic is exact real arithmetic. Rounding of large uint64 values converted to float64 is therefore not modelled.
- The gwei gauge is modelled as the wei value over 10^9 in exact arithmetic.
- Chain.NodeDecodable: a hex field one character long makes `hexStr[2:]` panic in Go. The model requires every field the cycle decodes not to be one character long, so the panic path is left out.
- Go map iteration order over the kind counts is not modelled. The kinds are written in a fixed order; the keys are distinct, so the final gauges are the same for every order.
- The uint64 wrap of `int` counters (transaction, call, transfer and address counts) is not modelled. They are unbounded naturals, since no cycle can come near 2^63 transactions.
- Habits.IsDueToday: the in-place `logs.sort` that also reorders the caller's array is modelled on values. `LatestMs` picks the element the sort puts first, and `DueIgnoresOrder` shows that the order does not matter to the answer. The reordering visible to the caller is not captured.
- Dates and time zones are not modelled. An `Instant` carries its epoch milliseconds and its local calendar-day number; `getDay` is derived from the day number and `toDateString` equality is day equality. The two clock reads of `isHabitDueToday` are one `now` parameter, and `calcStreak`'s clock is a `today` parameter.
- An absent `daysOfWeek` is modelled as the empty sequence, which the source treats the same way.
- Auth.ToLower: only ASCII letters are lower-cased. Unicode case mapping outside ASCII is not modelled.
- The rest of `worker.js` is not part of this model: `generateHomepage`, building the target URL, forwarding the request with `fetch`, and the 500 error response. The route decision is modelled; what is done with it is not.
- `docker-apps/nomad-dashboard/exporter/monad_exporter.py`, `front-proxy/build.js`, the habit tracker's API routes and pages, `lib/email.ts` and `lib/verify.ts` are not part of this model.
- Explorer.AvgPriceWithinExtremes: the lower bound (average ≥ minimum) is stated only when the exact price sum fits in 64 bits. A wrapped sum can fall below the count times the minimum.

## Findings

| source | as written | input that shows it | evidently intended | confidence | as-written member | corrected member |
|---|---|---|---|---|---|---|
| docker-apps/monad-explorer/main.go:420-432 | the newer block is fetched with `GetBlock(prevBlockHex, false)`, whose answer lists transaction hashes as strings, and is decoded into `Block` whose `Transactions` is `[]Transaction` (main.go:43), so `json.Unmarshal` (main.go:299) fails for every newer block that has transactions and no gap is recorded | ten fetched blocks, all with transactions, with timestamps that advance | the gap is recorded whenever the newer block is returned and is later, whatever its transactions | not executed | Explorer.BusyCycleNoBlockTime | Explorer.IntendedCycleBlockTime |

The node's header answer (`Chain.Node.header`) is otherwise unconstrained, so the rest of the model covers the intended behaviour as well as the written one. `Explorer.HeaderFailsWhenBusy` states the written decoding and `Explorer.HeaderAnswers` the intended one.
