# uview-miner-stats, modelled in Dafny

`uview-miner-stats` attributes the coinbase outputs of a block range of a
Zcash-style chain to configured miners. Each miner is given as a unified
full viewing key. At each height `h` of the range `[start, tip]`, the key
derives one external transparent address, at non-hardened index `h`. A
miner is credited with a block when that block's coinbase outputs pay the
derived address a positive value.

The program keeps a persistent cache of the coinbase outputs of every block
it has seen. Before computing, it refreshes that cache from a node's
JSON-RPC interface. It then writes a report:

- each miner's matched blocks, value and block details;
- the number of distinct mined blocks;
- the total value;
- what is left unmatched.

This project models the core of `src/main.rs` in these modules:

- `Wrappers`: `Option` and `Result`.
- `Blocks`:
  - the cached block and coinbase output types;
  - `coinbase_outputs`;
  - the coinbase total, and the value paid to one address;
  - the inclusive height range;
  - `shorten_key`.
- `Refresh`: the cache refresh of `main`.
  - The class `BlockCache` holds the cache's fields, which the method
    `RefreshCache` updates in place.
  - `RefreshCache` is proved against the function `RefreshPlan`. The lemmas
    state the failure cases, the range being filled, the all-or-nothing
    merge, and when the cache is saved.
- `Statistics`: `compute_statistics`.
  - The method `ComputeStatistics` keeps the source's nested loops: miners
    outside (`ScanAll`), heights inside (`MinerPass`), outputs innermost
    (`SumMatching`).
  - It is proved equal to the function `Report`, which folds the same
    computation over the miners.
- `StatisticsProps`: what a report promises.
  - Per-miner details that agree with the counts, with strictly increasing
    heights.
  - Count bounds.
  - Max-not-sum deduplication of the matched value.
  - Value bounds.
  - The exact conditions for, and order of, fatal errors.
  - Independence from the order of the configured miners.
- `Scenario`: a worked three-block example, proved.

The node and the key library are not code that can be modelled here, so
they are parameters:

- `Refresh.Rpc` holds the two node calls as functions (`getblockhash`, and
  `getblock` with verbosity 2). `None` stands for any transport, HTTP or
  RPC error.
- `Statistics.Deriver` holds two functions: whether a key decodes, and the
  encoded address a key derives at an index (`None` when
  `generate_transparent_address` fails).

A miner's `label` is called `name` in the model, because `label` is a Dafny
keyword.

A height of the range is skipped only when it is not cached or when it
fails the non-hardened index check (`h < 2^31`). A failing
`generate_transparent_address` aborts the whole computation (`?` at
src/main.rs:355), and `Statistics.Probe` models it that way.

## Model

| member | source | states |
|---|---|---|
| Blocks.AddressesOf | src/main.rs:292 | an output with no address list contributes the empty list, otherwise its own list |
| Blocks.CoinbaseOutputs | src/main.rs:284-297 | a block without transactions has no coinbase outputs; otherwise one output per output of the first transaction, in order, with its value and its addresses (empty when absent) |
| Blocks.MatchedValueBounds | src/main.rs:358-363 | with non-negative output values, the value paid to an address lies between 0 and the block's coinbase total, and is 0 for an address no output lists |
| Blocks.Heights | src/main.rs:323 | the range `start..=tip` has `tip - start + 1` heights (none when `tip < start`), the `i`-th being `start + i` |
| Blocks.HeightsRange | src/main.rs:323 | a height is in the range exactly when `start <= h <= tip`, and the range is strictly increasing |
| Blocks.ShortenKey | src/main.rs:487-493 | a key of at most 16 characters is kept; a longer one becomes its first 8 characters, an ellipsis and its last 8 (17 characters, never longer than the key) |
| Refresh.FetchBlock | src/main.rs:211-221 | fetching succeeds exactly when both node calls do; the block is stored under the requested height with the returned hash and the `coinbase_outputs` of the returned block; a failure is an RPC error that names `getblockhash` exactly when the hash lookup failed |
| Refresh.Missing | src/main.rs:39-44 | the missing heights are exactly the heights of the range with no cached block; there are none exactly when every height is cached |
| Refresh.FetchAll | src/main.rs:48-52 | the batch fetch succeeds exactly when every missing height can be fetched, returns each height's block in order, and otherwise returns the error of a failing height |
| Refresh.InsertAll | src/main.rs:52-54 | the merge loop keeps every old key, adds each batch block's height, and the last block of the batch is the one stored under its height |
| Refresh.InsertAllKeys | src/main.rs:52-54 | after the merge loop, every key is an old key or the height of a block of the batch |
| Refresh.InsertAllKeepsOthers | src/main.rs:52-54 | the merge loop leaves every height that no block of the batch has unchanged |
| Refresh.InsertAllStores | src/main.rs:52-54 | a block of the batch that no later block overwrites is stored under its height |
| Refresh.InsertFresh | src/main.rs:52-54 | inserting blocks of strictly increasing, uncached heights keeps every old entry, stores the `i`-th block under the `i`-th height, and adds nothing else |
| Refresh.MergeBatch | src/main.rs:48-54 | merging the fetched blocks keeps every old entry, stores each missing height's fetched block, and adds nothing else |
| Refresh.MissingIncreasing | src/main.rs:39-44 | the missing heights keep the range's strictly increasing order |
| Refresh.RefreshPlan | src/main.rs:32-60 | a refresh fails only with a range error or an RPC error; on success the recorded tip is `tip` and no cached height is lost; a refresh that does not save leaves the cache as it was |
| Refresh.RefreshFails | src/main.rs:32-52 | a tip below the start height fails with that error; a refresh fails exactly then or when some uncached height of the range cannot be fetched |
| Refresh.RefreshFillsRange | src/main.rs:39-58 | after a successful refresh every height of the range is cached; old entries are unchanged; each missing height holds its fetched block; nothing else is added; the recorded tip is `tip` |
| Refresh.RefreshSaves | src/main.rs:45-60 | the cache is saved exactly when some height was missing or the recorded tip differs from `tip`; an unsaved cache is unchanged |
| Refresh.RefreshIdempotent | src/main.rs:32-60 | refreshing a just-refreshed cache against the same tip fetches nothing, changes nothing and saves nothing |
| Refresh.BlockCache.constructor | src/main.rs:152-162 | the cache of a first run has no recorded tip and no blocks |
| Refresh.BlockCache.InsertBatch | src/main.rs:52-54 | the merge loop's new block map is the batch inserted in order into the old one; the recorded tip is unchanged |
| Refresh.RefreshCache | src/main.rs:32-60 | on failure the cache is untouched (all-or-nothing merge) and the error is the plan's; on success the cache becomes the planned state and the result says whether to save |
| Blocks.CoinbaseTotal | src/main.rs:329 | with non-negative output values, a block's coinbase total is non-negative |
| Blocks.MatchedValue | src/main.rs:358-363 | an address that no output lists is paid nothing |
| Statistics.Probe | src/main.rs:345-363 | a height is skipped when uncached or at least `2^31`; it fails, with that height's derivation error, exactly when derivation fails there; it is credited exactly when the outputs pay the derived address a positive value, and the credit carries the height, the block's hash, the address and that value |
| Statistics.Hits | src/main.rs:345-378 | a failing pass fails with a derivation error at a height of the range |
| Statistics.MinerHits | src/main.rs:340-341 | a key that does not decode fails with its shortened key; any other failure is a derivation error at a height of the range |
| Statistics.Summary | src/main.rs:379-386 | a summary carries the miner's label, and its count equals both its number of details and the number of credits |
| Statistics.MatchedSet | src/main.rs:367 | the matched set contains every height credited by any miner's pass |
| Statistics.MergeMax | src/main.rs:368-371 | recording a miner's credits keeps the old heights and adds exactly the credited ones |
| Statistics.BlockTotals | src/main.rs:368-371 | the per-height totals are kept for exactly the matched heights |
| Statistics.SumOver | src/main.rs:393-399 | a sum of non-negative per-height values is non-negative |
| Statistics.SaturatingSub | src/main.rs:394 | `a.saturating_sub(b)` is at most `a`, adds up to at least `a` with `b`, and is exactly `a - b` when `b <= a` |
| Statistics.Assemble | src/main.rs:393-429 | the report carries the range, the mined-block count is the size of the matched set, the total value is the matched value plus the unmatched value, mined and unmatched counts add up to the range when the matched set fits in it, and there is one aggregate row per summary |
| Statistics.Report | src/main.rs:318-430 | the computation fails only with a key decoding or derivation error; a report carries the range and one aggregate row and one summary per configured miner |
| Statistics.Details | src/main.rs:372-376 | one detail per credited height |
| Statistics.Summaries | src/main.rs:379-386 | one summary per miner |
| Statistics.Aggregates | src/main.rs:414-423 | one aggregate row per miner summary |
| Statistics.ScanMiners | src/main.rs:339-385 | a successful scan makes one pass per configured miner |
| Statistics.CoinbaseTotals | src/main.rs:325-333 | the coinbase totals hold exactly the cached heights of the range, each with its block's coinbase total |
| Statistics.ScanFailure | src/main.rs:339-355 | a failing miner after successful ones makes the whole miner loop fail with its error |
| Statistics.SumMatching | src/main.rs:358-363 | the innermost loop computes the value of the outputs listing the derived address |
| Statistics.MinerPass | src/main.rs:340-384 | a miner's pass fails exactly as its key decoding or derivation does; otherwise it returns the miner's summary and extends the matched set and per-height maxima by its credits |
| Statistics.ScanAll | src/main.rs:335-387 | the miner loop fails exactly as the scan does, with its error; otherwise it returns the miners' summaries, the matched set and the per-height maxima of their passes |
| Statistics.ComputeStatistics | src/main.rs:318-430 | the imperative computation returns exactly the report (or the error) that `Report` defines |
| StatisticsProps.HitHeightsMembers | src/main.rs:367 | a height is matched by a pass exactly when one of its credits is at that height |
| StatisticsProps.HitsSound | src/main.rs:345-376 | every credit of a pass is a height of the range whose probe credits exactly it, and credits come in strictly increasing height order |
| StatisticsProps.HitsComplete | src/main.rs:345-376 | every height of the range whose probe credits the miner appears among the pass's credits |
| StatisticsProps.HitsFail | src/main.rs:346-355 | a pass fails exactly when derivation fails at a cached height below `2^31` |
| StatisticsProps.ScanFacts | src/main.rs:339-385 | the scan succeeds exactly when every miner's pass does, and holds each miner's own pass at its position |
| StatisticsProps.SummariesAt | src/main.rs:377-384 | the `i`-th summary is the `i`-th miner's |
| StatisticsProps.MatchedSetMembers | src/main.rs:367 | a height is matched exactly when some miner is credited with it |
| StatisticsProps.MergeMaxFacts | src/main.rs:368-371 | recording a miner's credits keeps every old height, adds exactly its heights, never lowers a value, keeps each value at least every credit, and each value is an old one or a credit's |
| StatisticsProps.MergeMaxSource | src/main.rs:368-371 | a recorded value is the one already there or the value of a credit at that height |
| StatisticsProps.BlockTotalsCovers | src/main.rs:366-371 | the per-height totals hold exactly the matched heights, each at least every credit at that height |
| StatisticsProps.BlockTotalsSource | src/main.rs:368-371 | each per-height total is the value of some miner's credit at that height |
| StatisticsProps.BlockTotalsMax | src/main.rs:366-371 | each per-height total is the maximum of the credits at that height |
| StatisticsProps.SumOverAddLe | src/main.rs:393-403 | pointwise bounds on per-height values carry over to their sums over the range |
| StatisticsProps.SumOverUpdate | src/main.rs:368-371 | changing one height's value changes the sum over the range by the difference |
| StatisticsProps.MergeMaxSum | src/main.rs:368-371 | one miner's credits raise the sum of the maxima by at most the miner's total |
| StatisticsProps.MergeMaxSumFresh | src/main.rs:368-371 | a miner whose credits are at fresh heights raises that sum by exactly its total |
| StatisticsProps.BlockTotalsSumLe | src/main.rs:393 | the matched value is at most the sum of the miners' totals |
| StatisticsProps.BlockTotalsSumDisjoint | src/main.rs:393 | with no height credited to two miners, the matched value is the sum of the miners' totals |
| StatisticsProps.BlockTotalsSum | src/main.rs:366-393 | max-not-sum, on the passes: both of the above |
| StatisticsProps.DetailsAt | src/main.rs:371-375 | the `k`-th detail is the `k`-th credit's height, hash and address |
| StatisticsProps.TotalValueAtLeastCount | src/main.rs:364-366 | a miner's total is at least its count, each credit being positive |
| StatisticsProps.HitHeightsCount | src/main.rs:364-367 | a miner's count equals the number of distinct heights it matched |
| StatisticsProps.SummaryHeights | src/main.rs:367-375 | the heights in a miner's details are the heights it matched |
| StatisticsProps.SummariesFold | src/main.rs:367-393 | the heights in all details are the matched set, and the summaries' totals sum to the passes' totals |
| StatisticsProps.ReportOfPasses | src/main.rs:318-430 | a successful report is assembled from every miner's successful pass over the range |
| StatisticsProps.SummaryFacts | src/main.rs:339-384 | a summary carries the miner's label; its count equals its number of details, its total is at least its count, and its details are strictly increasing; each detail is a height attributed to the key, with that block's hash and the derived address; every attributed height is listed |
| StatisticsProps.MinerDetails | src/main.rs:339-423 | the same, for the `i`-th miner of a report; its aggregate row repeats its label, count and total |
| StatisticsProps.ElementsCard | src/main.rs:394 | a range has at least as many heights as distinct heights |
| StatisticsProps.MatchedSetCard | src/main.rs:394-412 | the matched set is no larger than the range and no smaller than any miner's count |
| StatisticsProps.MinedHeightsMembers | src/main.rs:412 | a height is in some miner's details exactly when one summary lists it |
| StatisticsProps.MinedHeightsAttributed | src/main.rs:345-412 | a height appears in some miner's details exactly when it is attributed to some configured key |
| StatisticsProps.MinedBlocksBounds | src/main.rs:323-412 | the mined-block count is the number of distinct detailed heights, at most the range's size; the unmatched count is the rest of the range (never saturating); no miner's count exceeds the mined-block count |
| StatisticsProps.HitsFirstError | src/main.rs:345-355 | a failing pass reports the first height of the range at which derivation failed |
| StatisticsProps.ScanFirstError | src/main.rs:339-355 | a failing scan reports the first failing miner's error |
| StatisticsProps.StatisticsFails | src/main.rs:339-355 | the computation fails exactly when some key does not decode, or some key's derivation fails at a cached height of the range below `2^31` |
| StatisticsProps.StatisticsFirstError | src/main.rs:339-355 | the error is the first failing miner's: its shortened key when decoding fails, else the first failing height |
| StatisticsProps.PassesSound | src/main.rs:345-376 | every miner's credits lie in the range, are positive and strictly increasing |
| StatisticsProps.SummariesHeights | src/main.rs:367-384 | the heights in the `i`-th summary's details are those the `i`-th pass matched |
| StatisticsProps.MatchedValueDedup | src/main.rs:366-403 | the matched value (total less unmatched) is at most the sum of the miners' totals, and equal to it when no height is in two miners' details |
| StatisticsProps.SplitAtHeight | src/main.rs:393-399 | at each height, the maximum credit plus the unmatched coinbase total is non-negative and within the block's coinbase total |
| StatisticsProps.TotalValueBounded | src/main.rs:325-403 | with non-negative outputs, `0 <= unmatched value <= total value`, and the total value is at most the sum of the coinbase totals of the cached blocks of the range |
| StatisticsProps.CoveredMatched | src/main.rs:367 | a height matched by a set of passes is matched by any list that makes all of them |
| StatisticsProps.SamePassesBelow | src/main.rs:368-371 | each per-height total is at most that of any list that makes all of the same passes |
| StatisticsProps.SameMatched | src/main.rs:367 | lists making the same passes match the same heights |
| StatisticsProps.SameTotals | src/main.rs:368-371 | lists making the same passes record the same per-height totals |
| StatisticsProps.SameMinersScan | src/main.rs:339-385 | configurations listing the same miners succeed or fail alike, and then make the same passes |
| StatisticsProps.SameMinersSummaries | src/main.rs:339-387 | configurations listing the same miners, both succeeding, match the same heights, record the same maxima and give each miner the same summary |
| StatisticsProps.StatisticsOrderIndependent | src/main.rs:339-412 | reordering or repeating configured miners changes neither success nor the mined-block count, total value or unmatched summary; a miner's summary does not depend on its position |
| Scenario.ExampleProbes | src/main.rs:345-363 | in the example, only the middle height pays the derived address |
| Scenario.ExampleHits | src/main.rs:345-376 | in the example, the miner is credited with height 101 only |
| Scenario.ExampleCredits | src/main.rs:366-371 | in the example, the matched set is `{101}` and its total is 5 coins |
| Scenario.ExampleUnmatched | src/main.rs:325-333 | in the example, the unmatched coinbase totals are 1.5 coins at heights 100 and 102 |
| Scenario.ExampleSums | src/main.rs:393-403 | in the example, the matched value is 500000000 and the unmatched value 300000000 |
| Scenario.ExampleScan | src/main.rs:339-384 | in the example, the one miner's summary is one block worth 500000000 at height 101 |
| Scenario.ExampleAssemble | src/main.rs:393-429 | in the example, the report is one mined block, 800000000 in total, two unmatched blocks worth 300000000 |
| Scenario.ExampleReport | src/main.rs:318-430 | the whole computation on the example gives that report |

## Left out

- The command line, configuration loading (`MinerStatsConfig::from_file`),
  and the cache's `load`/`save` and the report's `write`: file I/O and JSON.
  `save` is modelled only as the boolean "save now" (`Refreshed.saved`, the
  result of `Refresh.RefreshCache`). The cache loaded from disk is any
  `BlockCache` state.
- `NodeRpcClient`, the HTTP client and its JSON-RPC handling (including
  `getblockcount`): network I/O. The tip height is a parameter.
- `Refresh.FetchAll`: does not model the `rayon` parallel iterator; it
  fetches sequentially and reports the first failure in height order. The
  parallel collect reports some failing height's error; which one is not
  specified.
- Key decoding (`UnifiedKeyStore::new_from_ufvk`), address derivation and
  address encoding: foreign library code. They are the abstract `Deriver`.
- Floating point: `zats_to_wec`, `percent_share_blocks`, the share
  percentages (including the second per-miner loop at lines 389-391) and
  the `*_wec` fields. These are left out of every report type.
- `print_table` and the progress messages: console output.
- Statistics.Report: does not model the `u32` fields and `as u32` casts or
  the `i64` sums. Integers are unbounded, so a count above `2^32 - 1` or a
  sum outside the `i64` range, both of which would wrap or panic in the
  source, is not captured.
- Statistics.SumOver: sums the hash maps' values in height order, where the
  source sums in hash-map iteration order. With unbounded integers the
  order does not change the result.
- Refresh.FetchBlock: a failed node call becomes an `RpcError` that names
  the call. The source's message carries the HTTP status, the parse failure
  or the node's error code and message instead, and for the last two does
  not name the method. Every such failure is one `None` of `Refresh.Rpc`.
- Blocks.ShortenKey: works on characters, where the source slices bytes.
  The two agree on ASCII keys (encoded viewing keys are ASCII). A non-ASCII
  key whose byte 8 or byte `len - 8` falls inside a character would make
  the source panic, and that is not captured.
