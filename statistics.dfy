/** `compute_statistics` (src/main.rs:318-430): a fold over the heights of
    the range and the configured miners that attributes coinbase outputs to
    miners by the address each miner's key derives for the height.

    The source accumulates `i64` sums (lines 329, 361, 366, 393, 399, 403)
    with no overflow check; the model's sums are unbounded integers. */
module Statistics {
  import opened Wrappers
  import opened Blocks

  /** Derivation indices must fit the non-hardened range, `[0, 2^31)`. */
  const NON_HARDENED_LIMIT: nat := 0x8000_0000

  /** A configured miner: its encoded viewing key and its display label. */
  datatype MinerEntry = MinerEntry(key: string, name: string)

  /** The key handling the program delegates to a foreign library: whether a
      key decodes, and the encoded external transparent address a key
      derives at an index (`None` when derivation fails). */
  datatype Deriver = Deriver(decodes: string -> bool, derive: (string, nat) -> Option<string>)

  datatype MinerBlockDetail = MinerBlockDetail(blockHeight: nat, blockHash: string, payoutAddress: string)

  datatype MinerSummary = MinerSummary(
    name: string,
    matchedBlocks: nat,
    totalValueZat: int,
    detailedBlocks: seq<MinerBlockDetail>)

  /** A row of the persisted report: a miner summary without its details. */
  datatype MinerAggregate = MinerAggregate(name: string, matchedBlocks: nat, totalValueZat: int)

  datatype UnmatchedSummary = UnmatchedSummary(blocks: nat, totalValueZat: int)

  datatype MinerStatsReport = MinerStatsReport(
    startHeight: nat,
    endHeight: nat,
    totalMinedBlocks: nat,
    totalValueZat: int,
    miners: seq<MinerAggregate>,
    detailedMiners: seq<MinerSummary>,
    unmatched: UnmatchedSummary)

  /** One height a miner is credited with: the block's hash, the derived
      address and the value of the outputs paying it. */
  datatype Hit = Hit(height: nat, hash: string, address: string, value: int)

  /** What one miner's inner loop does at height `h`: skip an uncached height
      or one beyond the non-hardened range, fail when derivation fails, and
      credit the miner when the outputs paying the derived address carry a
      positive value. */
  function Probe(d: Deriver, key: string, blocks: map<nat, CachedBlock>, h: nat): (r: Result<Option<Hit>, Error>)
    ensures r.Err? <==> h in blocks && h < NON_HARDENED_LIMIT && d.derive(key, h).None?
    ensures r.Err? ==> r.error == DerivationError(h)
    ensures r.Ok? && r.value.Some? <==>
              && h in blocks && h < NON_HARDENED_LIMIT && d.derive(key, h).Some?
              && MatchedValue(blocks[h].outputs, d.derive(key, h).value) > 0
    ensures r.Ok? && r.value.Some? ==>
              r.value.value == Hit(h, blocks[h].hash, d.derive(key, h).value,
                                   MatchedValue(blocks[h].outputs, d.derive(key, h).value))
  {
    if h !in blocks || h >= NON_HARDENED_LIMIT then Ok(None)
    else
      match d.derive(key, h)
      case None => Err(DerivationError(h))
      case Some(address) =>
        var v := MatchedValue(blocks[h].outputs, address);
        if v > 0 then Ok(Some(Hit(h, blocks[h].hash, address, v))) else Ok(None)
  }

  /** The heights of `hs` credited to the miner with key `key`, in order, or
      the first derivation failure. */
  function Hits(d: Deriver, key: string, blocks: map<nat, CachedBlock>, hs: seq<nat>): (r: Result<seq<Hit>, Error>)
    ensures r.Err? ==> r.error.DerivationError? && r.error.height in hs
  {
    if hs == [] then Ok([])
    else
      var prev :- Hits(d, key, blocks, hs[..|hs| - 1]);
      var probe :- Probe(d, key, blocks, hs[|hs| - 1]);
      match probe
      case None => Ok(prev)
      case Some(x) => Ok(prev + [x])
  }

  /** One miner's pass: its key must decode first. */
  function MinerHits(d: Deriver, miner: MinerEntry, blocks: map<nat, CachedBlock>, hs: seq<nat>): (r: Result<seq<Hit>, Error>)
    ensures !d.decodes(miner.key) ==> r == Err(KeyDecodeError(ShortenKey(miner.key)))
    ensures r.Err? ==> r.error.KeyDecodeError? || (r.error.DerivationError? && r.error.height in hs)
  {
    if !d.decodes(miner.key) then Err(KeyDecodeError(ShortenKey(miner.key)))
    else Hits(d, miner.key, blocks, hs)
  }

  /** All miners' passes in configuration order, or the first failure. */
  function ScanMiners(d: Deriver, miners: seq<MinerEntry>, blocks: map<nat, CachedBlock>, hs: seq<nat>)
    : (r: Result<seq<seq<Hit>>, Error>)
    ensures r.Ok? ==> |r.value| == |miners|
    ensures r.Err? ==> r.error.KeyDecodeError? || r.error.DerivationError?
  {
    if miners == [] then Ok([])
    else
      var prev :- ScanMiners(d, miners[..|miners| - 1], blocks, hs);
      var hits :- MinerHits(d, miners[|miners| - 1], blocks, hs);
      Ok(prev + [hits])
  }

  function TotalValue(hits: seq<Hit>): int
  {
    if hits == [] then 0 else TotalValue(hits[..|hits| - 1]) + hits[|hits| - 1].value
  }

  function Details(hits: seq<Hit>): (r: seq<MinerBlockDetail>)
    ensures |r| == |hits|
  {
    if hits == [] then []
    else
      var x := hits[|hits| - 1];
      Details(hits[..|hits| - 1]) + [MinerBlockDetail(x.height, x.hash, x.address)]
  }

  function HitHeights(hits: seq<Hit>): set<nat>
  {
    if hits == [] then {} else HitHeights(hits[..|hits| - 1]) + {hits[|hits| - 1].height}
  }

  function Summary(miner: MinerEntry, hits: seq<Hit>): (r: MinerSummary)
    ensures r.name == miner.name && r.matchedBlocks == |r.detailedBlocks| == |hits|
  {
    MinerSummary(miner.name, |hits|, TotalValue(hits), Details(hits))
  }

  function Summaries(miners: seq<MinerEntry>, hitLists: seq<seq<Hit>>): (r: seq<MinerSummary>)
    requires |miners| == |hitLists|
    ensures |r| == |miners|
  {
    if miners == [] then []
    else
      Summaries(miners[..|miners| - 1], hitLists[..|hitLists| - 1])
      + [Summary(miners[|miners| - 1], hitLists[|hitLists| - 1])]
  }

  function Aggregate(s: MinerSummary): MinerAggregate
  {
    MinerAggregate(s.name, s.matchedBlocks, s.totalValueZat)
  }

  function Aggregates(summaries: seq<MinerSummary>): (r: seq<MinerAggregate>)
    ensures |r| == |summaries|
  {
    seq(|summaries|, i requires 0 <= i < |summaries| => Aggregate(summaries[i]))
  }

  /** The global set of matched heights after some miners' passes. */
  function MatchedSet(hitLists: seq<seq<Hit>>): (r: set<nat>)
    ensures forall i :: 0 <= i < |hitLists| ==> HitHeights(hitLists[i]) <= r
  {
    if hitLists == [] then {}
    else MatchedSet(hitLists[..|hitLists| - 1]) + HitHeights(hitLists[|hitLists| - 1])
  }

  function Max(a: int, b: int): int
  {
    if a < b then b else a
  }

  /** Recording one miner's credits in the per-height totals: a height seen
      before keeps the larger of the two values. */
  function MergeMax(totals: map<nat, int>, hits: seq<Hit>): (r: map<nat, int>)
    ensures r.Keys == totals.Keys + HitHeights(hits)
  {
    if hits == [] then totals
    else
      var t := MergeMax(totals, hits[..|hits| - 1]);
      var x := hits[|hits| - 1];
      t[x.height := if x.height in t then Max(t[x.height], x.value) else x.value]
  }

  /** `block_totals` after some miners' passes. */
  function BlockTotals(hitLists: seq<seq<Hit>>): (r: map<nat, int>)
    ensures r.Keys == MatchedSet(hitLists)
  {
    if hitLists == [] then map[]
    else MergeMax(BlockTotals(hitLists[..|hitLists| - 1]), hitLists[|hitLists| - 1])
  }

  /** `coinbase_totals`: the coinbase total of each cached height of `hs`. */
  function CoinbaseTotals(blocks: map<nat, CachedBlock>, hs: seq<nat>): (r: map<nat, int>)
    ensures forall h :: h in r <==> h in hs && h in blocks
    ensures forall h :: h in r ==> r[h] == CoinbaseTotal(blocks[h].outputs)
  {
    map h | h in hs && h in blocks :: CoinbaseTotal(blocks[h].outputs)
  }

  /** The values of `m` at the heights of `hs`, summed (a height absent from
      `m` adds nothing).  Over a range of distinct heights that holds every
      key of `m` this is the sum of `m`'s values, which the source takes in
      hash-map order. */
  function SumOver(hs: seq<nat>, m: map<nat, int>): (r: int)
    ensures (forall h :: h in m ==> 0 <= m[h]) ==> 0 <= r
  {
    if hs == [] then 0
    else SumOver(hs[..|hs| - 1], m) + (if hs[|hs| - 1] in m then m[hs[|hs| - 1]] else 0)
  }

  /** `u32::saturating_sub`. */
  function SaturatingSub(a: nat, b: nat): (r: nat)
    ensures r <= a && a <= r + b
    ensures b <= a ==> r + b == a
  {
    if a < b then 0 else a - b
  }

  /** The report built once every miner's pass is done: the matched value
      is the sum of the per-height maxima, the unmatched value the sum of the
      coinbase totals of the cached heights nobody matched. */
  function Assemble(start: nat, tip: nat, hs: seq<nat>, coinbaseTotals: map<nat, int>,
                    summaries: seq<MinerSummary>, matched: set<nat>, blockTotals: map<nat, int>)
    : (r: MinerStatsReport)
    ensures r.startHeight == start && r.endHeight == tip
    ensures r.totalMinedBlocks == |matched|
    ensures r.totalValueZat == SumOver(hs, blockTotals) + r.unmatched.totalValueZat
    ensures |matched| <= |hs| ==> r.totalMinedBlocks + r.unmatched.blocks == |hs|
    ensures r.detailedMiners == summaries && |r.miners| == |summaries|
  {
    var matchedValue := SumOver(hs, blockTotals);
    var unmatchedValue := SumOver(hs, coinbaseTotals - matched);
    MinerStatsReport(
      start, tip, |matched|, matchedValue + unmatchedValue,
      Aggregates(summaries), summaries,
      UnmatchedSummary(SaturatingSub(|hs|, |matched|), unmatchedValue))
  }

  /** The report `compute_statistics` returns for the miners, the cached
      blocks and the range `[start, tip]`. */
  function Report(d: Deriver, miners: seq<MinerEntry>, blocks: map<nat, CachedBlock>, start: nat, tip: nat)
    : (r: Result<MinerStatsReport, Error>)
    ensures r.Err? ==> r.error.KeyDecodeError? || r.error.DerivationError?
    ensures r.Ok? ==> r.value.startHeight == start && r.value.endHeight == tip
    ensures r.Ok? ==> |r.value.miners| == |miners| && |r.value.detailedMiners| == |miners|
  {
    var hs := Heights(start, tip);
    var hitLists :- ScanMiners(d, miners, blocks, hs);
    Ok(Assemble(start, tip, hs, CoinbaseTotals(blocks, hs),
                Summaries(miners, hitLists), MatchedSet(hitLists), BlockTotals(hitLists)))
  }

  /** A failing height stops a miner's pass with its error. */
  lemma {:induction false} HitsErrPrefix(d: Deriver, key: string, blocks: map<nat, CachedBlock>, hs: seq<nat>, j: nat)
    requires j <= |hs|
    requires Hits(d, key, blocks, hs[..j]).Err?
    ensures Hits(d, key, blocks, hs) == Hits(d, key, blocks, hs[..j])
    decreases |hs| - j
  {
    if j < |hs| {
      assert hs[..j + 1][..j] == hs[..j];
      HitsErrPrefix(d, key, blocks, hs, j + 1);
    } else {
      assert hs[..j] == hs;
    }
  }

  /** A failing miner stops the whole computation with its error. */
  lemma {:induction false} ScanErrPrefix(d: Deriver, miners: seq<MinerEntry>, blocks: map<nat, CachedBlock>, hs: seq<nat>, i: nat)
    requires i <= |miners|
    requires ScanMiners(d, miners[..i], blocks, hs).Err?
    ensures ScanMiners(d, miners, blocks, hs) == ScanMiners(d, miners[..i], blocks, hs)
    decreases |miners| - i
  {
    if i < |miners| {
      assert miners[..i + 1][..i] == miners[..i];
      ScanErrPrefix(d, miners, blocks, hs, i + 1);
    } else {
      assert miners[..i] == miners;
    }
  }

  /** One more height of a miner's pass. */
  lemma HitsStep(d: Deriver, key: string, blocks: map<nat, CachedBlock>, hs: seq<nat>, j: nat)
    requires j < |hs|
    ensures Hits(d, key, blocks, hs[..j + 1]) ==
      match Hits(d, key, blocks, hs[..j])
      case Err(e) => Err(e)
      case Ok(prev) =>
        match Probe(d, key, blocks, hs[j])
        case Err(e) => Err(e)
        case Ok(None) => Ok(prev)
        case Ok(Some(x)) => Ok(prev + [x])
  {
    assert hs[..j + 1][..j] == hs[..j];
  }

  /** One more credited height, as the accumulators of a miner's pass
      record it. */
  lemma CreditStep(totals: map<nat, int>, hits: seq<Hit>, x: Hit)
    ensures |hits + [x]| == |hits| + 1
    ensures TotalValue(hits + [x]) == TotalValue(hits) + x.value
    ensures Details(hits + [x]) == Details(hits) + [MinerBlockDetail(x.height, x.hash, x.address)]
    ensures HitHeights(hits + [x]) == HitHeights(hits) + {x.height}
    ensures var t := MergeMax(totals, hits);
      MergeMax(totals, hits + [x]) == t[x.height := if x.height in t then Max(t[x.height], x.value) else x.value]
  {
    assert (hits + [x])[..|hits|] == hits;
  }

  /** The innermost loop of `compute_statistics`: the value of the outputs
      whose address list contains `address`. */
  method SumMatching(outputs: seq<CoinbaseOutput>, address: string) returns (matchedValue: int)
    ensures matchedValue == MatchedValue(outputs, address)
  {
    matchedValue := 0;
    var k := 0;
    while k < |outputs|
      invariant 0 <= k <= |outputs|
      invariant matchedValue == MatchedValue(outputs[..k], address)
    {
      assert outputs[..k + 1][..k] == outputs[..k];
      if address in outputs[k].addresses {
        matchedValue := matchedValue + outputs[k].valueZat;
      }
      k := k + 1;
    }
    assert outputs[..k] == outputs;
  }

  /** The body of `compute_statistics`'s miner loop: decode the key, then
      walk the heights, crediting the miner, the matched set and the
      per-height maximum; fail at the first derivation failure. */
  method MinerPass(d: Deriver, miner: MinerEntry, blocks: map<nat, CachedBlock>, heights: seq<nat>,
                   matchedIn: set<nat>, totalsIn: map<nat, int>)
    returns (r: Result<MinerSummary, Error>, matchedBlocks: set<nat>, blockTotals: map<nat, int>)
    ensures MinerHits(d, miner, blocks, heights).Err? ==> r == Err(MinerHits(d, miner, blocks, heights).error)
    ensures MinerHits(d, miner, blocks, heights).Ok? ==>
              var hits := MinerHits(d, miner, blocks, heights).value;
              && r == Ok(Summary(miner, hits))
              && matchedBlocks == matchedIn + HitHeights(hits)
              && blockTotals == MergeMax(totalsIn, hits)
  {
    matchedBlocks, blockTotals := matchedIn, totalsIn;
    if !d.decodes(miner.key) {
      return Err(KeyDecodeError(ShortenKey(miner.key))), matchedBlocks, blockTotals;
    }
    var count: nat := 0;
    var totalValue := 0;
    var details: seq<MinerBlockDetail> := [];
    ghost var hits: seq<Hit> := [];

    var j := 0;
    while j < |heights|
      invariant 0 <= j <= |heights|
      invariant Hits(d, miner.key, blocks, heights[..j]) == Ok(hits)
      invariant count == |hits| && totalValue == TotalValue(hits) && details == Details(hits)
      invariant matchedBlocks == matchedIn + HitHeights(hits)
      invariant blockTotals == MergeMax(totalsIn, hits)
    {
      var height := heights[j];
      HitsStep(d, miner.key, blocks, heights, j);
      if height in blocks && height < NON_HARDENED_LIMIT {
        var block := blocks[height];
        var derived := d.derive(miner.key, height);
        if derived.None? {
          r := Err(DerivationError(height));
          HitsErrPrefix(d, miner.key, blocks, heights, j + 1);
          return r, matchedBlocks, blockTotals;
        }
        var encoded := derived.value;
        var matchedValue := SumMatching(block.outputs, encoded);
        if matchedValue > 0 {
          CreditStep(totalsIn, hits, Hit(height, block.hash, encoded, matchedValue));
          count := count + 1;
          totalValue := totalValue + matchedValue;
          matchedBlocks := matchedBlocks + {height};
          if height in blockTotals {
            blockTotals := blockTotals[height := Max(blockTotals[height], matchedValue)];
          } else {
            blockTotals := blockTotals[height := matchedValue];
          }
          details := details + [MinerBlockDetail(height, block.hash, encoded)];
          hits := hits + [Hit(height, block.hash, encoded, matchedValue)];
        }
      }
      j := j + 1;
    }
    assert heights[..j] == heights;
    r := Ok(MinerSummary(miner.name, count, totalValue, details));
  }

  /** One more miner's pass extends the scan. */
  lemma ScanStep(d: Deriver, miners: seq<MinerEntry>, blocks: map<nat, CachedBlock>, hs: seq<nat>,
                 i: nat, done: seq<seq<Hit>>, hits: seq<Hit>)
    requires i < |miners|
    requires ScanMiners(d, miners[..i], blocks, hs) == Ok(done)
    requires MinerHits(d, miners[i], blocks, hs) == Ok(hits)
    ensures ScanMiners(d, miners[..i + 1], blocks, hs) == Ok(done + [hits])
  {
    assert miners[..i + 1][..i] == miners[..i];
  }

  /** One more miner's pass, as the outer loop of `compute_statistics`
      records it in the summaries, the matched set and the block totals. */
  lemma FoldStep(miners: seq<MinerEntry>, i: nat, done: seq<seq<Hit>>, hits: seq<Hit>)
    requires i < |miners| && |done| == i
    ensures Summaries(miners[..i + 1], done + [hits]) == Summaries(miners[..i], done) + [Summary(miners[i], hits)]
    ensures MatchedSet(done + [hits]) == MatchedSet(done) + HitHeights(hits)
    ensures BlockTotals(done + [hits]) == MergeMax(BlockTotals(done), hits)
  {
    assert miners[..i + 1][..i] == miners[..i];
    assert (done + [hits])[..i] == done;
  }

  /** A miner whose pass fails, after successful ones, makes the whole scan
      fail with its error. */
  lemma ScanFailure(d: Deriver, miners: seq<MinerEntry>, blocks: map<nat, CachedBlock>, hs: seq<nat>,
                    i: nat, done: seq<seq<Hit>>)
    requires i < |miners|
    requires ScanMiners(d, miners[..i], blocks, hs) == Ok(done)
    requires MinerHits(d, miners[i], blocks, hs).Err?
    ensures ScanMiners(d, miners, blocks, hs) == Err(MinerHits(d, miners[i], blocks, hs).error)
  {
    assert miners[..i + 1][..i] == miners[..i];
    ScanErrPrefix(d, miners, blocks, hs, i + 1);
  }

  /** A scan in which every miner's pass succeeds makes the report out of
      those passes. */
  lemma ScanSuccess(d: Deriver, miners: seq<MinerEntry>, blocks: map<nat, CachedBlock>, start: nat, tip: nat,
                    done: seq<seq<Hit>>)
    requires ScanMiners(d, miners, blocks, Heights(start, tip)) == Ok(done)
    ensures |done| == |miners|
    ensures var hs := Heights(start, tip);
      Report(d, miners, blocks, start, tip)
      == Ok(Assemble(start, tip, hs, CoinbaseTotals(blocks, hs), Summaries(miners, done), MatchedSet(done), BlockTotals(done)))
  {
  }

  /** The miner loop of `compute_statistics`: for each miner in order,
      decode its key and run its pass over the range, collecting the
      summaries, the matched set and the per-height maxima; stop at the first
      failure. */
  method ScanAll(d: Deriver, miners: seq<MinerEntry>, blocks: map<nat, CachedBlock>, heights: seq<nat>)
    returns (r: Result<seq<MinerSummary>, Error>, matchedBlocks: set<nat>, blockTotals: map<nat, int>)
    ensures ScanMiners(d, miners, blocks, heights).Err? ==> r == Err(ScanMiners(d, miners, blocks, heights).error)
    ensures ScanMiners(d, miners, blocks, heights).Ok? ==>
              var done := ScanMiners(d, miners, blocks, heights).value;
              && r == Ok(Summaries(miners, done))
              && matchedBlocks == MatchedSet(done)
              && blockTotals == BlockTotals(done)
  {
    var perMiner: seq<MinerSummary> := [];
    matchedBlocks, blockTotals := {}, map[];
    ghost var done: seq<seq<Hit>> := [];

    var i := 0;
    while i < |miners|
      invariant 0 <= i <= |miners|
      invariant ScanMiners(d, miners[..i], blocks, heights) == Ok(done)
      invariant perMiner == Summaries(miners[..i], done)
      invariant matchedBlocks == MatchedSet(done)
      invariant blockTotals == BlockTotals(done)
    {
      var summary;
      summary, matchedBlocks, blockTotals := MinerPass(d, miners[i], blocks, heights, matchedBlocks, blockTotals);
      if summary.Err? {
        ScanFailure(d, miners, blocks, heights, i, done);
        return Err(summary.error), matchedBlocks, blockTotals;
      }
      ghost var hits := MinerHits(d, miners[i], blocks, heights).value;
      ScanStep(d, miners, blocks, heights, i, done, hits);
      FoldStep(miners, i, done, hits);
      perMiner := perMiner + [summary.value];
      done := done + [hits];
      i := i + 1;
    }
    assert miners[..i] == miners;
    r := Ok(perMiner);
  }

  /** `compute_statistics`: the coinbase totals of the range, the miner
      loop, then the matched and unmatched totals. */
  method ComputeStatistics(d: Deriver, miners: seq<MinerEntry>, blocks: map<nat, CachedBlock>, start: nat, tip: nat)
    returns (r: Result<MinerStatsReport, Error>)
    ensures r == Report(d, miners, blocks, start, tip)
  {
    var heights := Heights(start, tip);
    var coinbaseTotals := CoinbaseTotals(blocks, heights);
    var perMiner, matchedBlocks, blockTotals := ScanAll(d, miners, blocks, heights);
    if perMiner.Err? {
      return Err(perMiner.error);
    }
    ScanSuccess(d, miners, blocks, start, tip, ScanMiners(d, miners, blocks, heights).value);
    r := Ok(Assemble(start, tip, heights, coinbaseTotals, perMiner.value, matchedBlocks, blockTotals));
  }
}
