/** What `compute_statistics` promises about its report: which heights each
    miner is credited with, how the counts bound each other, the max-not-sum
    treatment of heights several miners match, when the computation fails,
    and that the order of the miners does not matter. */
module StatisticsProps {
  import opened Wrappers
  import opened Blocks
  import opened Statistics

  // ---------------------------------------------------------------------
  // One miner's pass

  /** Height `h` of `[start, tip]` is credited to the miner with key `key`:
      its block is cached, `h` is a non-hardened index, the key derives an
      address at `h`, and the outputs paying that address carry a positive
      value. */
  ghost predicate Attributed(d: Deriver, key: string, blocks: map<nat, CachedBlock>, start: nat, tip: nat, h: nat)
  {
    && start <= h <= tip
    && h in blocks
    && h < NON_HARDENED_LIMIT
    && d.derive(key, h).Some?
    && MatchedValue(blocks[h].outputs, d.derive(key, h).value) > 0
  }

  /** A detail records an attributed height with its block's hash and the
      derived address. */
  ghost predicate DetailValid(d: Deriver, key: string, blocks: map<nat, CachedBlock>, start: nat, tip: nat,
                              det: MinerBlockDetail)
  {
    && Attributed(d, key, blocks, start, tip, det.blockHeight)
    && det.blockHash == blocks[det.blockHeight].hash
    && d.derive(key, det.blockHeight) == Some(det.payoutAddress)
  }

  lemma {:induction false} HitHeightsMembers(hits: seq<Hit>)
    ensures forall h :: h in HitHeights(hits) <==> exists k :: 0 <= k < |hits| && hits[k].height == h
  {
    if hits != [] {
      var prefix := hits[..|hits| - 1];
      HitHeightsMembers(prefix);
      forall h | h in HitHeights(hits) ensures exists k :: 0 <= k < |hits| && hits[k].height == h {
        if h != hits[|hits| - 1].height {
          assert h in HitHeights(prefix);
          var k :| 0 <= k < |prefix| && prefix[k].height == h;
          assert hits[k].height == h;
        }
      }
      forall h | exists k :: 0 <= k < |hits| && hits[k].height == h ensures h in HitHeights(hits) {
        var k :| 0 <= k < |hits| && hits[k].height == h;
        if k < |prefix| { assert prefix[k].height == h; }
      }
    }
  }

  /** Every height a pass credits is a height of the range that `Probe`
      credits, and a pass over strictly increasing heights credits them in
      strictly increasing order. */
  lemma {:induction false} HitsSound(d: Deriver, key: string, blocks: map<nat, CachedBlock>, hs: seq<nat>)
    requires StrictlyIncreasing(hs)
    requires Hits(d, key, blocks, hs).Ok?
    ensures var hits := Hits(d, key, blocks, hs).value;
      && (forall k :: 0 <= k < |hits| ==>
            hits[k].height in hs && Probe(d, key, blocks, hits[k].height) == Ok(Some(hits[k])))
      && (forall a, b :: 0 <= a < b < |hits| ==> hits[a].height < hits[b].height)
  {
    if hs != [] {
      var prefix := hs[..|hs| - 1];
      var last := hs[|hs| - 1];
      assert StrictlyIncreasing(prefix);
      HitsSound(d, key, blocks, prefix);
      var prev := Hits(d, key, blocks, prefix).value;
      forall k | 0 <= k < |prev| ensures prev[k].height < last && prev[k].height in hs {
        var m :| 0 <= m < |prefix| && prefix[m] == prev[k].height;
        assert hs[m] == prefix[m];
      }
    }
  }

  /** A pass that succeeds credits every height of the range that `Probe`
      credits. */
  lemma {:induction false} HitsComplete(d: Deriver, key: string, blocks: map<nat, CachedBlock>, hs: seq<nat>, h: nat)
    requires Hits(d, key, blocks, hs).Ok?
    requires h in hs
    ensures Probe(d, key, blocks, h).Ok?
    ensures Probe(d, key, blocks, h).value.Some? ==>
              exists k :: 0 <= k < |Hits(d, key, blocks, hs).value| && Hits(d, key, blocks, hs).value[k].height == h
  {
    var prefix := hs[..|hs| - 1];
    var hits := Hits(d, key, blocks, hs).value;
    if h != hs[|hs| - 1] {
      var m :| 0 <= m < |hs| && hs[m] == h;
      assert prefix[m] == h;
      HitsComplete(d, key, blocks, prefix, h);
      if Probe(d, key, blocks, h).value.Some? {
        var prev := Hits(d, key, blocks, prefix).value;
        var k :| 0 <= k < |prev| && prev[k].height == h;
        assert hits[k] == prev[k];
      }
    } else if Probe(d, key, blocks, h).value.Some? {
      assert hits[|hits| - 1].height == h;
    }
  }

  /** A miner's pass fails exactly when derivation fails at a cached
      non-hardened height of the range. */
  lemma {:induction false} HitsFail(d: Deriver, key: string, blocks: map<nat, CachedBlock>, hs: seq<nat>)
    ensures Hits(d, key, blocks, hs).Err? <==>
              exists h :: h in hs && h in blocks && h < NON_HARDENED_LIMIT && d.derive(key, h).None?
  {
    if hs != [] {
      var prefix := hs[..|hs| - 1];
      HitsFail(d, key, blocks, prefix);
      forall h | h in hs ensures h in prefix || h == hs[|hs| - 1] {
        var m :| 0 <= m < |hs| && hs[m] == h;
        if m < |prefix| { assert prefix[m] == h; }
      }
    }
  }

  // ---------------------------------------------------------------------
  // All miners' passes

  /** The scan succeeds exactly when every miner's pass does, and then holds
      each miner's own pass at the miner's position. */
  lemma {:induction false} ScanFacts(d: Deriver, miners: seq<MinerEntry>, blocks: map<nat, CachedBlock>, hs: seq<nat>)
    ensures ScanMiners(d, miners, blocks, hs).Ok? <==>
              forall i :: 0 <= i < |miners| ==> MinerHits(d, miners[i], blocks, hs).Ok?
    ensures ScanMiners(d, miners, blocks, hs).Ok? ==>
              forall i :: 0 <= i < |miners| ==>
                ScanMiners(d, miners, blocks, hs).value[i] == MinerHits(d, miners[i], blocks, hs).value
  {
    if miners != [] {
      var prefix := miners[..|miners| - 1];
      ScanFacts(d, prefix, blocks, hs);
      assert forall i :: 0 <= i < |prefix| ==> prefix[i] == miners[i];
    }
  }

  lemma {:induction false} SummariesAt(miners: seq<MinerEntry>, hitLists: seq<seq<Hit>>)
    requires |miners| == |hitLists|
    ensures forall i :: 0 <= i < |miners| ==> Summaries(miners, hitLists)[i] == Summary(miners[i], hitLists[i])
  {
    if miners != [] {
      SummariesAt(miners[..|miners| - 1], hitLists[..|hitLists| - 1]);
    }
  }

  lemma {:induction false} MatchedSetMembers(hitLists: seq<seq<Hit>>)
    ensures forall h :: h in MatchedSet(hitLists) <==>
              exists i :: 0 <= i < |hitLists| && h in HitHeights(hitLists[i])
  {
    if hitLists != [] {
      var prefix := hitLists[..|hitLists| - 1];
      MatchedSetMembers(prefix);
      forall h | h in MatchedSet(hitLists) ensures exists i :: 0 <= i < |hitLists| && h in HitHeights(hitLists[i]) {
        if h !in HitHeights(hitLists[|hitLists| - 1]) {
          assert h in MatchedSet(prefix);
          var i :| 0 <= i < |prefix| && h in HitHeights(prefix[i]);
          assert hitLists[i] == prefix[i];
        }
      }
      forall h | exists i :: 0 <= i < |hitLists| && h in HitHeights(hitLists[i]) ensures h in MatchedSet(hitLists) {
        var i :| 0 <= i < |hitLists| && h in HitHeights(hitLists[i]);
        if i < |prefix| { assert hitLists[i] == prefix[i]; }
      }
    }
  }

  // ---------------------------------------------------------------------
  // Per-height maxima

  /** Recording a miner's credits keeps every height already recorded, at a
      value no smaller, and records each credited height at no less than the
      credit; every recorded value is an old one or one of the credits. */
  lemma {:induction false} MergeMaxFacts(totals: map<nat, int>, hits: seq<Hit>)
    ensures var m := MergeMax(totals, hits);
      && (forall h :: h in m <==> h in totals || h in HitHeights(hits))
      && (forall h :: h in totals ==> totals[h] <= m[h])
      && (forall k :: 0 <= k < |hits| ==> hits[k].height in m && hits[k].value <= m[hits[k].height])
      && (forall h :: h in m ==>
            (h in totals && m[h] == totals[h]) ||
            exists k :: 0 <= k < |hits| && hits[k].height == h && hits[k].value == m[h])
  {
    if hits != [] {
      var prefix := hits[..|hits| - 1];
      var x := hits[|hits| - 1];
      MergeMaxFacts(totals, prefix);
      var t := MergeMax(totals, prefix);
      var m := MergeMax(totals, hits);
      forall k | 0 <= k < |hits| ensures hits[k].height in m && hits[k].value <= m[hits[k].height] {
        if k < |prefix| { assert hits[k] == prefix[k]; }
      }
      forall h | h in m ensures (h in totals && m[h] == totals[h]) ||
                                exists k :: 0 <= k < |hits| && hits[k].height == h && hits[k].value == m[h]
      {
        var fromTotals, k := MergeMaxSource(totals, hits, h);
      }
    }
  }

  /** Where a recorded maximum comes from: the value already recorded, or
      one of the new credits at that height. */
  lemma {:induction false} MergeMaxSource(totals: map<nat, int>, hits: seq<Hit>, h: nat)
    returns (fromTotals: bool, k: nat)
    requires h in MergeMax(totals, hits)
    ensures fromTotals ==> h in totals && MergeMax(totals, hits)[h] == totals[h]
    ensures !fromTotals ==> k < |hits| && hits[k].height == h && hits[k].value == MergeMax(totals, hits)[h]
  {
    if hits == [] {
      return true, 0;
    }
    var prefix := hits[..|hits| - 1];
    var x := hits[|hits| - 1];
    var t := MergeMax(totals, prefix);
    if h != x.height || (h in t && t[h] >= x.value) {
      fromTotals, k := MergeMaxSource(totals, prefix, h);
    } else {
      fromTotals, k := false, |hits| - 1;
    }
  }

  /** `block_totals` records exactly the matched heights, each at least
      every credit at that height. */
  lemma {:induction false} BlockTotalsCovers(hitLists: seq<seq<Hit>>)
    ensures var bt := BlockTotals(hitLists);
      && (forall h :: h in bt <==> h in MatchedSet(hitLists))
      && (forall i, k :: 0 <= i < |hitLists| && 0 <= k < |hitLists[i]| ==>
            hitLists[i][k].height in bt && hitLists[i][k].value <= bt[hitLists[i][k].height])
  {
    if hitLists != [] {
      var prefix := hitLists[..|hitLists| - 1];
      var last := hitLists[|hitLists| - 1];
      BlockTotalsCovers(prefix);
      var t := BlockTotals(prefix);
      MergeMaxFacts(t, last);
      var bt := BlockTotals(hitLists);
      forall i, k | 0 <= i < |hitLists| && 0 <= k < |hitLists[i]|
        ensures hitLists[i][k].height in bt && hitLists[i][k].value <= bt[hitLists[i][k].height]
      {
        if i < |prefix| { assert hitLists[i] == prefix[i]; }
      }
    }
  }

  /** Each recorded maximum is the value of some credit at that height. */
  lemma {:induction false} BlockTotalsSource(hitLists: seq<seq<Hit>>, h: nat) returns (i: nat, k: nat)
    requires h in BlockTotals(hitLists)
    ensures i < |hitLists| && k < |hitLists[i]|
    ensures hitLists[i][k].height == h && hitLists[i][k].value == BlockTotals(hitLists)[h]
  {
    var prefix := hitLists[..|hitLists| - 1];
    var fromTotals;
    fromTotals, k := MergeMaxSource(BlockTotals(prefix), hitLists[|hitLists| - 1], h);
    if fromTotals {
      i, k := BlockTotalsSource(prefix, h);
      assert hitLists[i] == prefix[i];
    } else {
      i := |hitLists| - 1;
    }
  }

  /** `block_totals` records exactly the matched heights, each at the
      largest value any miner was credited with there: at least every
      credit, and equal to one of them. */
  lemma BlockTotalsMax(hitLists: seq<seq<Hit>>)
    ensures var bt := BlockTotals(hitLists);
      && (forall h :: h in bt <==> h in MatchedSet(hitLists))
      && (forall i, k :: 0 <= i < |hitLists| && 0 <= k < |hitLists[i]| ==>
            hitLists[i][k].height in bt && hitLists[i][k].value <= bt[hitLists[i][k].height])
      && (forall h :: h in bt ==>
            exists i, k :: 0 <= i < |hitLists| && 0 <= k < |hitLists[i]| &&
              hitLists[i][k].height == h && hitLists[i][k].value == bt[h])
  {
    BlockTotalsCovers(hitLists);
    var bt := BlockTotals(hitLists);
    forall h | h in bt
      ensures exists i, k :: 0 <= i < |hitLists| && 0 <= k < |hitLists[i]| &&
                hitLists[i][k].height == h && hitLists[i][k].value == bt[h]
    {
      var i, k := BlockTotalsSource(hitLists, h);
    }
  }

  // ---------------------------------------------------------------------
  // Sums over the range

  function Get(m: map<nat, int>, h: nat): int
  {
    if h in m then m[h] else 0
  }

  /** Pointwise bounds carry over to sums over the range. */
  lemma {:induction false} SumOverAddLe(hs: seq<nat>, a: map<nat, int>, b: map<nat, int>, c: map<nat, int>)
    requires forall h :: h in hs ==> Get(a, h) + Get(b, h) <= Get(c, h)
    ensures SumOver(hs, a) + SumOver(hs, b) <= SumOver(hs, c)
  {
    if hs != [] {
      SumOverAddLe(hs[..|hs| - 1], a, b, c);
      assert hs[|hs| - 1] in hs;
    }
  }

  lemma {:induction false} SumOverEq(hs: seq<nat>, a: map<nat, int>, b: map<nat, int>)
    requires forall h :: h in hs ==> Get(a, h) == Get(b, h)
    ensures SumOver(hs, a) == SumOver(hs, b)
  {
    if hs != [] {
      SumOverEq(hs[..|hs| - 1], a, b);
      assert hs[|hs| - 1] in hs;
    }
  }

  lemma {:induction false} SumOverEmpty(hs: seq<nat>)
    ensures SumOver(hs, map[]) == 0
  {
    if hs != [] {
      SumOverEmpty(hs[..|hs| - 1]);
    }
  }

  /** Changing the value at one height of a range of distinct heights
      changes the sum by the difference. */
  lemma {:induction false} SumOverUpdate(hs: seq<nat>, m: map<nat, int>, k: nat, v: int)
    requires StrictlyIncreasing(hs)
    requires k in hs
    ensures SumOver(hs, m[k := v]) == SumOver(hs, m) - Get(m, k) + v
  {
    var prefix := hs[..|hs| - 1];
    assert StrictlyIncreasing(prefix);
    if hs[|hs| - 1] == k {
      forall h | h in prefix ensures Get(m[k := v], h) == Get(m, h) {
        var i :| 0 <= i < |prefix| && prefix[i] == h;
      }
      SumOverEq(prefix, m[k := v], m);
    } else {
      var i :| 0 <= i < |hs| && hs[i] == k;
      assert prefix[i] == k;
      SumOverUpdate(prefix, m, k, v);
    }
  }

  /** Recording non-negative credits keeps every recorded value
      non-negative. */
  lemma MergeMaxNonNegative(totals: map<nat, int>, hits: seq<Hit>)
    requires forall h :: h in totals ==> totals[h] >= 0
    requires forall k :: 0 <= k < |hits| ==> hits[k].value >= 0
    ensures forall h :: h in MergeMax(totals, hits) ==> MergeMax(totals, hits)[h] >= 0
  {
    MergeMaxFacts(totals, hits);
  }

  /** Recording one miner's positive credits at heights of the range adds
      at most the miner's total to the sum of the per-height maxima. */
  lemma {:induction false} MergeMaxSum(hs: seq<nat>, totals: map<nat, int>, hits: seq<Hit>)
    requires StrictlyIncreasing(hs)
    requires forall h :: h in totals ==> totals[h] >= 0
    requires forall k :: 0 <= k < |hits| ==> hits[k].height in hs && hits[k].value > 0
    ensures SumOver(hs, MergeMax(totals, hits)) <= SumOver(hs, totals) + TotalValue(hits)
  {
    if hits != [] {
      var prefix := hits[..|hits| - 1];
      var x := hits[|hits| - 1];
      assert forall k :: 0 <= k < |prefix| ==> prefix[k] == hits[k];
      MergeMaxSum(hs, totals, prefix);
      MergeMaxNonNegative(totals, prefix);
      var t := MergeMax(totals, prefix);
      var v := if x.height in t then Max(t[x.height], x.value) else x.value;
      SumOverUpdate(hs, t, x.height, v);
    }
  }

  /** ... and exactly the miner's total when the miner credits distinct
      heights nobody credited before. */
  lemma {:induction false} MergeMaxSumFresh(hs: seq<nat>, totals: map<nat, int>, hits: seq<Hit>)
    requires StrictlyIncreasing(hs)
    requires forall k :: 0 <= k < |hits| ==> hits[k].height in hs && hits[k].height !in totals
    requires forall a, b :: 0 <= a < b < |hits| ==> hits[a].height < hits[b].height
    ensures SumOver(hs, MergeMax(totals, hits)) == SumOver(hs, totals) + TotalValue(hits)
  {
    if hits != [] {
      var prefix := hits[..|hits| - 1];
      var x := hits[|hits| - 1];
      assert forall k :: 0 <= k < |prefix| ==> prefix[k] == hits[k];
      MergeMaxSumFresh(hs, totals, prefix);
      MergeMaxFacts(totals, prefix);
      HitHeightsMembers(prefix);
      var t := MergeMax(totals, prefix);
      assert x.height !in t;
      SumOverUpdate(hs, t, x.height, x.value);
    }
  }

  /** The sum of all miners' own totals. */
  function SumHitTotals(hitLists: seq<seq<Hit>>): int
  {
    if hitLists == [] then 0
    else SumHitTotals(hitLists[..|hitLists| - 1]) + TotalValue(hitLists[|hitLists| - 1])
  }

  lemma BlockTotalsPositive(hitLists: seq<seq<Hit>>)
    requires forall i, k :: 0 <= i < |hitLists| && 0 <= k < |hitLists[i]| ==> hitLists[i][k].value > 0
    ensures forall h :: h in BlockTotals(hitLists) ==> BlockTotals(hitLists)[h] > 0
  {
    forall h | h in BlockTotals(hitLists) ensures BlockTotals(hitLists)[h] > 0 {
      var i, k := BlockTotalsSource(hitLists, h);
    }
  }

  /** The sum of the per-height maxima is at most the sum of the miners'
      own totals. */
  lemma {:induction false} BlockTotalsSumLe(hs: seq<nat>, hitLists: seq<seq<Hit>>)
    requires StrictlyIncreasing(hs)
    requires forall i, k :: 0 <= i < |hitLists| && 0 <= k < |hitLists[i]| ==>
               hitLists[i][k].height in hs && hitLists[i][k].value > 0
    ensures SumOver(hs, BlockTotals(hitLists)) <= SumHitTotals(hitLists)
  {
    if hitLists == [] {
      SumOverEmpty(hs);
    } else {
      var prefix := hitLists[..|hitLists| - 1];
      var last := hitLists[|hitLists| - 1];
      assert forall i :: 0 <= i < |prefix| ==> prefix[i] == hitLists[i];
      BlockTotalsSumLe(hs, prefix);
      BlockTotalsPositive(prefix);
      MergeMaxSum(hs, BlockTotals(prefix), last);
    }
  }

  /** A later miner's credits are at heights no earlier miner was credited
      with, when no height is credited to two miners. */
  lemma FreshCredits(prefix: seq<seq<Hit>>, last: seq<Hit>)
    requires forall i :: 0 <= i < |prefix| ==> HitHeights(prefix[i]) !! HitHeights(last)
    ensures forall k :: 0 <= k < |last| ==> last[k].height !in BlockTotals(prefix)
  {
    BlockTotalsCovers(prefix);
    MatchedSetMembers(prefix);
    HitHeightsMembers(last);
    forall k | 0 <= k < |last| ensures last[k].height !in BlockTotals(prefix) {
      assert last[k].height in HitHeights(last);
    }
  }

  /** When no height is credited to two miners, the sum of the per-height
      maxima is exactly the sum of the miners' own totals. */
  lemma {:induction false} BlockTotalsSumDisjoint(hs: seq<nat>, hitLists: seq<seq<Hit>>)
    requires StrictlyIncreasing(hs)
    requires forall i, k :: 0 <= i < |hitLists| && 0 <= k < |hitLists[i]| ==> hitLists[i][k].height in hs
    requires forall i, a, b :: 0 <= i < |hitLists| && 0 <= a < b < |hitLists[i]| ==>
               hitLists[i][a].height < hitLists[i][b].height
    requires forall i, j :: 0 <= i < j < |hitLists| ==> HitHeights(hitLists[i]) !! HitHeights(hitLists[j])
    ensures SumOver(hs, BlockTotals(hitLists)) == SumHitTotals(hitLists)
  {
    if hitLists == [] {
      SumOverEmpty(hs);
    } else {
      var prefix := hitLists[..|hitLists| - 1];
      var last := hitLists[|hitLists| - 1];
      assert forall i :: 0 <= i < |prefix| ==> prefix[i] == hitLists[i];
      BlockTotalsSumDisjoint(hs, prefix);
      FreshCredits(prefix, last);
      MergeMaxSumFresh(hs, BlockTotals(prefix), last);
    }
  }

  /** Max-not-sum: the sum of the per-height maxima is at most the sum of
      the miners' own totals, and equal to it when no height is credited to
      two miners. */
  lemma BlockTotalsSum(hs: seq<nat>, hitLists: seq<seq<Hit>>)
    requires StrictlyIncreasing(hs)
    requires forall i, k :: 0 <= i < |hitLists| && 0 <= k < |hitLists[i]| ==>
               hitLists[i][k].height in hs && hitLists[i][k].value > 0
    ensures SumOver(hs, BlockTotals(hitLists)) <= SumHitTotals(hitLists)
    ensures (forall i, a, b :: 0 <= i < |hitLists| && 0 <= a < b < |hitLists[i]| ==>
               hitLists[i][a].height < hitLists[i][b].height) &&
            (forall i, j :: 0 <= i < j < |hitLists| ==> HitHeights(hitLists[i]) !! HitHeights(hitLists[j])) ==>
              SumOver(hs, BlockTotals(hitLists)) == SumHitTotals(hitLists)
  {
    BlockTotalsSumLe(hs, hitLists);
    if (forall i, a, b :: 0 <= i < |hitLists| && 0 <= a < b < |hitLists[i]| ==>
          hitLists[i][a].height < hitLists[i][b].height) &&
       (forall i, j :: 0 <= i < j < |hitLists| ==> HitHeights(hitLists[i]) !! HitHeights(hitLists[j])) {
      BlockTotalsSumDisjoint(hs, hitLists);
    }
  }

  // ---------------------------------------------------------------------
  // From the passes to the report

  lemma {:induction false} DetailsAt(hits: seq<Hit>)
    ensures forall k :: 0 <= k < |hits| ==>
              Details(hits)[k] == MinerBlockDetail(hits[k].height, hits[k].hash, hits[k].address)
  {
    if hits != [] {
      DetailsAt(hits[..|hits| - 1]);
    }
  }

  /** Positive credits add up to at least one per credited height. */
  lemma {:induction false} TotalValueAtLeastCount(hits: seq<Hit>)
    requires forall k :: 0 <= k < |hits| ==> hits[k].value > 0
    ensures TotalValue(hits) >= |hits|
  {
    if hits != [] {
      TotalValueAtLeastCount(hits[..|hits| - 1]);
    }
  }

  /** Credits at strictly increasing heights credit as many heights as
      there are credits. */
  lemma {:induction false} HitHeightsCount(hits: seq<Hit>)
    requires forall a, b :: 0 <= a < b < |hits| ==> hits[a].height < hits[b].height
    ensures |HitHeights(hits)| == |hits|
  {
    if hits != [] {
      var prefix := hits[..|hits| - 1];
      HitHeightsCount(prefix);
      HitHeightsMembers(prefix);
      assert hits[|hits| - 1].height !in HitHeights(prefix);
    }
  }

  /** The heights listed in a miner's details. */
  ghost function DetailHeights(s: MinerSummary): set<nat>
  {
    set k | 0 <= k < |s.detailedBlocks| :: s.detailedBlocks[k].blockHeight
  }

  /** The heights listed in any miner's details. */
  ghost function MinedHeights(summaries: seq<MinerSummary>): set<nat>
  {
    if summaries == [] then {}
    else MinedHeights(summaries[..|summaries| - 1]) + DetailHeights(summaries[|summaries| - 1])
  }

  /** The sum of the miners' own totals in a report. */
  function SumMinerTotals(summaries: seq<MinerSummary>): int
  {
    if summaries == [] then 0
    else SumMinerTotals(summaries[..|summaries| - 1]) + summaries[|summaries| - 1].totalValueZat
  }

  lemma SummaryHeights(miner: MinerEntry, hits: seq<Hit>)
    ensures DetailHeights(Summary(miner, hits)) == HitHeights(hits)
  {
    DetailsAt(hits);
    HitHeightsMembers(hits);
    var s := Summary(miner, hits);
    forall h | h in HitHeights(hits) ensures h in DetailHeights(s) {
      var k :| 0 <= k < |hits| && hits[k].height == h;
      assert s.detailedBlocks[k].blockHeight == h;
    }
  }

  lemma {:induction false} SummariesFold(miners: seq<MinerEntry>, hitLists: seq<seq<Hit>>)
    requires |miners| == |hitLists|
    ensures MinedHeights(Summaries(miners, hitLists)) == MatchedSet(hitLists)
    ensures SumMinerTotals(Summaries(miners, hitLists)) == SumHitTotals(hitLists)
  {
    if miners != [] {
      var ss := Summaries(miners, hitLists);
      SummariesFold(miners[..|miners| - 1], hitLists[..|hitLists| - 1]);
      SummaryHeights(miners[|miners| - 1], hitLists[|hitLists| - 1]);
      assert ss[..|ss| - 1] == Summaries(miners[..|miners| - 1], hitLists[..|hitLists| - 1]);
    }
  }

  /** A successful report is assembled from every miner's own pass over the
      range, each a pass whose key decoded. */
  lemma ReportOfPasses(d: Deriver, miners: seq<MinerEntry>, blocks: map<nat, CachedBlock>, start: nat, tip: nat)
    requires Report(d, miners, blocks, start, tip).Ok?
    ensures var hs := Heights(start, tip);
      && ScanMiners(d, miners, blocks, hs).Ok?
      && var hitLists := ScanMiners(d, miners, blocks, hs).value;
      && Report(d, miners, blocks, start, tip).value ==
           Assemble(start, tip, hs, CoinbaseTotals(blocks, hs),
                    Summaries(miners, hitLists), MatchedSet(hitLists), BlockTotals(hitLists))
      && (forall i :: 0 <= i < |miners| ==>
            d.decodes(miners[i].key) && Hits(d, miners[i].key, blocks, hs) == Ok(hitLists[i]))
  {
    ScanFacts(d, miners, blocks, Heights(start, tip));
  }

  /** What one miner's summary says about its pass over the range. */
  lemma SummaryFacts(d: Deriver, miner: MinerEntry, blocks: map<nat, CachedBlock>, start: nat, tip: nat, hits: seq<Hit>)
    requires Hits(d, miner.key, blocks, Heights(start, tip)) == Ok(hits)
    ensures var s := Summary(miner, hits);
      && s.name == miner.name
      && s.matchedBlocks == |s.detailedBlocks|
      && s.totalValueZat >= s.matchedBlocks
      && (forall a, b :: 0 <= a < b < |s.detailedBlocks| ==>
            s.detailedBlocks[a].blockHeight < s.detailedBlocks[b].blockHeight)
      && (forall k :: 0 <= k < |s.detailedBlocks| ==>
            DetailValid(d, miner.key, blocks, start, tip, s.detailedBlocks[k]))
      && (forall h :: Attributed(d, miner.key, blocks, start, tip, h) ==>
            exists k :: 0 <= k < |s.detailedBlocks| && s.detailedBlocks[k].blockHeight == h)
  {
    var hs := Heights(start, tip);
    HeightsRange(start, tip);
    HitsSound(d, miner.key, blocks, hs);
    DetailsAt(hits);
    TotalValueAtLeastCount(hits);
    var s := Summary(miner, hits);
    forall h | Attributed(d, miner.key, blocks, start, tip, h)
      ensures exists k :: 0 <= k < |s.detailedBlocks| && s.detailedBlocks[k].blockHeight == h
    {
      HitsComplete(d, miner.key, blocks, hs, h);
      var k :| 0 <= k < |hits| && hits[k].height == h;
      assert s.detailedBlocks[k].blockHeight == h;
    }
  }

  /** Everything a report says about one miner: its label, its details in
      strictly increasing height order, each one an attributed height with
      its block's hash and the derived address, every attributed height
      listed, a count equal to the number of details, and a total of at
      least one zatoshi per matched block. */
  lemma MinerDetails(d: Deriver, miners: seq<MinerEntry>, blocks: map<nat, CachedBlock>, start: nat, tip: nat, i: nat)
    requires Report(d, miners, blocks, start, tip).Ok?
    requires i < |miners|
    ensures var rep := Report(d, miners, blocks, start, tip).value;
      && |rep.detailedMiners| == |miners| == |rep.miners|
      && var s := rep.detailedMiners[i];
      && s.name == miners[i].name
      && rep.miners[i] == MinerAggregate(s.name, s.matchedBlocks, s.totalValueZat)
      && s.matchedBlocks == |s.detailedBlocks|
      && s.totalValueZat >= s.matchedBlocks
      && (forall a, b :: 0 <= a < b < |s.detailedBlocks| ==>
            s.detailedBlocks[a].blockHeight < s.detailedBlocks[b].blockHeight)
      && (forall k :: 0 <= k < |s.detailedBlocks| ==>
            DetailValid(d, miners[i].key, blocks, start, tip, s.detailedBlocks[k]))
      && (forall h :: Attributed(d, miners[i].key, blocks, start, tip, h) ==>
            exists k :: 0 <= k < |s.detailedBlocks| && s.detailedBlocks[k].blockHeight == h)
  {
    var hs := Heights(start, tip);
    ReportOfPasses(d, miners, blocks, start, tip);
    var hitLists := ScanMiners(d, miners, blocks, hs).value;
    SummariesAt(miners, hitLists);
    SummaryFacts(d, miners[i], blocks, start, tip, hitLists[i]);
  }

  // ---------------------------------------------------------------------
  // Counts

  lemma SubsetCard(a: set<nat>, b: set<nat>)
    requires a <= b
    ensures |a| <= |b|
  {
    assert b == a + (b - a);
  }

  /** The heights a sequence lists. */
  ghost function Elements(hs: seq<nat>): set<nat>
  {
    if hs == [] then {} else Elements(hs[..|hs| - 1]) + {hs[|hs| - 1]}
  }

  lemma {:induction false} ElementsCard(hs: seq<nat>)
    ensures forall h :: h in Elements(hs) <==> h in hs
    ensures |Elements(hs)| <= |hs|
  {
    if hs != [] {
      var prefix := hs[..|hs| - 1];
      ElementsCard(prefix);
      assert hs == prefix + [hs[|hs| - 1]];
    }
  }

  /** However many miners credit a height, it is counted once, so the
      mined-block count is bounded by the heights scanned, and by below by
      any one miner's count. */
  lemma MatchedSetCard(hitLists: seq<seq<Hit>>, hs: seq<nat>)
    requires forall i, k :: 0 <= i < |hitLists| && 0 <= k < |hitLists[i]| ==> hitLists[i][k].height in hs
    requires forall i, a, b :: 0 <= i < |hitLists| && 0 <= a < b < |hitLists[i]| ==>
      hitLists[i][a].height < hitLists[i][b].height
    ensures |MatchedSet(hitLists)| <= |hs|
    ensures forall i :: 0 <= i < |hitLists| ==> |hitLists[i]| <= |MatchedSet(hitLists)|
  {
    MatchedSetMembers(hitLists);
    ElementsCard(hs);
    forall h | h in MatchedSet(hitLists) ensures h in Elements(hs) {
      var i :| 0 <= i < |hitLists| && h in HitHeights(hitLists[i]);
      HitHeightsMembers(hitLists[i]);
    }
    SubsetCard(MatchedSet(hitLists), Elements(hs));
    forall i | 0 <= i < |hitLists| ensures |hitLists[i]| <= |MatchedSet(hitLists)| {
      HitHeightsCount(hitLists[i]);
      SubsetCard(HitHeights(hitLists[i]), MatchedSet(hitLists));
    }
  }

  lemma {:induction false} MinedHeightsMembers(summaries: seq<MinerSummary>)
    ensures forall h :: h in MinedHeights(summaries) <==>
      exists i :: 0 <= i < |summaries| && h in DetailHeights(summaries[i])
  {
    if summaries != [] {
      var prefix := summaries[..|summaries| - 1];
      MinedHeightsMembers(prefix);
      forall h | h in MinedHeights(summaries)
        ensures exists i :: 0 <= i < |summaries| && h in DetailHeights(summaries[i])
      {
        if h in MinedHeights(prefix) {
          var i :| 0 <= i < |prefix| && h in DetailHeights(prefix[i]);
          assert summaries[i] == prefix[i];
        }
      }
      forall h | exists i :: 0 <= i < |summaries| && h in DetailHeights(summaries[i])
        ensures h in MinedHeights(summaries)
      {
        var i :| 0 <= i < |summaries| && h in DetailHeights(summaries[i]);
        if i < |prefix| {
          assert summaries[i] == prefix[i];
        }
      }
    }
  }

  /** A height is listed in some miner's details exactly when it is
      attributed to that miner's key. */
  lemma MinedHeightsAttributed(d: Deriver, miners: seq<MinerEntry>, blocks: map<nat, CachedBlock>, start: nat, tip: nat)
    requires Report(d, miners, blocks, start, tip).Ok?
    ensures var rep := Report(d, miners, blocks, start, tip).value;
      forall h :: h in MinedHeights(rep.detailedMiners) <==>
        exists i :: 0 <= i < |miners| && Attributed(d, miners[i].key, blocks, start, tip, h)
  {
    var rep := Report(d, miners, blocks, start, tip).value;
    var ss := rep.detailedMiners;
    MinedHeightsMembers(ss);
    forall h | h in MinedHeights(ss)
      ensures exists i :: 0 <= i < |miners| && Attributed(d, miners[i].key, blocks, start, tip, h)
    {
      var i :| 0 <= i < |ss| && h in DetailHeights(ss[i]);
      MinerDetails(d, miners, blocks, start, tip, i);
      var k :| 0 <= k < |ss[i].detailedBlocks| && ss[i].detailedBlocks[k].blockHeight == h;
      assert DetailValid(d, miners[i].key, blocks, start, tip, ss[i].detailedBlocks[k]);
    }
    forall h | exists i :: 0 <= i < |miners| && Attributed(d, miners[i].key, blocks, start, tip, h)
      ensures h in MinedHeights(ss)
    {
      var i :| 0 <= i < |miners| && Attributed(d, miners[i].key, blocks, start, tip, h);
      MinerDetails(d, miners, blocks, start, tip, i);
      var k :| 0 <= k < |ss[i].detailedBlocks| && ss[i].detailedBlocks[k].blockHeight == h;
      assert h in DetailHeights(ss[i]);
    }
  }

  /** The counts of a report bound each other: the mined-block count is the
      number of distinct heights listed in any miner's details; it is at
      most the number of heights in the range, the unmatched count is the
      rest of the range (the saturating subtraction never saturates), and no
      miner matched more blocks than were mined in total. */
  lemma MinedBlocksBounds(d: Deriver, miners: seq<MinerEntry>, blocks: map<nat, CachedBlock>, start: nat, tip: nat)
    requires Report(d, miners, blocks, start, tip).Ok?
    ensures var rep := Report(d, miners, blocks, start, tip).value;
      && rep.totalMinedBlocks == |MinedHeights(rep.detailedMiners)|
      && rep.totalMinedBlocks <= |Heights(start, tip)|
      && rep.unmatched.blocks == |Heights(start, tip)| - rep.totalMinedBlocks
      && (forall i :: 0 <= i < |rep.detailedMiners| ==> rep.detailedMiners[i].matchedBlocks <= rep.totalMinedBlocks)
  {
    var hs := Heights(start, tip);
    HeightsRange(start, tip);
    ReportOfPasses(d, miners, blocks, start, tip);
    var hitLists := ScanMiners(d, miners, blocks, hs).value;
    SummariesFold(miners, hitLists);
    SummariesAt(miners, hitLists);
    forall i | 0 <= i < |hitLists| ensures
      && (forall k :: 0 <= k < |hitLists[i]| ==> hitLists[i][k].height in hs)
      && (forall a, b :: 0 <= a < b < |hitLists[i]| ==> hitLists[i][a].height < hitLists[i][b].height)
    {
      HitsSound(d, miners[i].key, blocks, hs);
    }
    MatchedSetCard(hitLists, hs);
  }

  // ---------------------------------------------------------------------
  // Fatal errors

  /** A failing pass reports the derivation failure at the first failing
      height of the range. */
  lemma {:induction false} HitsFirstError(d: Deriver, key: string, blocks: map<nat, CachedBlock>, hs: seq<nat>)
    requires Hits(d, key, blocks, hs).Err?
    ensures exists m :: (0 <= m < |hs| && hs[m] in blocks && hs[m] < NON_HARDENED_LIMIT && d.derive(key, hs[m]).None?
      && Hits(d, key, blocks, hs).error == DerivationError(hs[m])
      && forall n :: 0 <= n < m && hs[n] in blocks && hs[n] < NON_HARDENED_LIMIT ==> d.derive(key, hs[n]).Some?)
  {
    var prefix := hs[..|hs| - 1];
    if Hits(d, key, blocks, prefix).Err? {
      HitsFirstError(d, key, blocks, prefix);
      var m :| 0 <= m < |prefix| && prefix[m] in blocks && prefix[m] < NON_HARDENED_LIMIT && d.derive(key, prefix[m]).None?
        && Hits(d, key, blocks, prefix).error == DerivationError(prefix[m])
        && forall n :: 0 <= n < m && prefix[n] in blocks && prefix[n] < NON_HARDENED_LIMIT ==> d.derive(key, prefix[n]).Some?;
      assert hs[m] == prefix[m];
      assert forall n :: 0 <= n < m ==> hs[n] == prefix[n];
    } else {
      HitsFail(d, key, blocks, prefix);
      var m := |hs| - 1;
      forall n | 0 <= n < m && hs[n] in blocks && hs[n] < NON_HARDENED_LIMIT ensures d.derive(key, hs[n]).Some? {
        assert hs[n] in prefix;
      }
    }
  }

  /** A failing scan reports the failure of the first failing miner, in
      configuration order. */
  lemma {:induction false} ScanFirstError(d: Deriver, miners: seq<MinerEntry>, blocks: map<nat, CachedBlock>, hs: seq<nat>)
    requires ScanMiners(d, miners, blocks, hs).Err?
    ensures exists i :: (0 <= i < |miners|
      && (forall j :: 0 <= j < i ==> MinerHits(d, miners[j], blocks, hs).Ok?)
      && MinerHits(d, miners[i], blocks, hs) == Err(ScanMiners(d, miners, blocks, hs).error))
  {
    var prefix := miners[..|miners| - 1];
    if ScanMiners(d, prefix, blocks, hs).Err? {
      ScanFirstError(d, prefix, blocks, hs);
      var i :| 0 <= i < |prefix|
        && (forall j :: 0 <= j < i ==> MinerHits(d, prefix[j], blocks, hs).Ok?)
        && MinerHits(d, prefix[i], blocks, hs) == Err(ScanMiners(d, prefix, blocks, hs).error);
      assert forall j :: 0 <= j <= i ==> miners[j] == prefix[j];
    } else {
      ScanFacts(d, prefix, blocks, hs);
      assert forall j :: 0 <= j < |prefix| ==> miners[j] == prefix[j];
    }
  }

  /** `compute_statistics` fails exactly when some configured key does not
      decode or some key's derivation fails at a cached non-hardened height
      of the range. */
  lemma StatisticsFails(d: Deriver, miners: seq<MinerEntry>, blocks: map<nat, CachedBlock>, start: nat, tip: nat)
    ensures Report(d, miners, blocks, start, tip).Err? <==>
      exists i :: 0 <= i < |miners| &&
        (!d.decodes(miners[i].key) ||
         exists h :: start <= h <= tip && h in blocks && h < NON_HARDENED_LIMIT && d.derive(miners[i].key, h).None?)
  {
    var hs := Heights(start, tip);
    HeightsRange(start, tip);
    ScanFacts(d, miners, blocks, hs);
    forall i | 0 <= i < |miners| ensures MinerHits(d, miners[i], blocks, hs).Err? <==>
      (!d.decodes(miners[i].key) ||
       exists h :: start <= h <= tip && h in blocks && h < NON_HARDENED_LIMIT && d.derive(miners[i].key, h).None?)
    {
      HitsFail(d, miners[i].key, blocks, hs);
    }
  }

  /** The error reported is that of the first failing miner in
      configuration order: its shortened key when the key does not decode,
      otherwise the first height of the range at which its derivation
      failed. */
  lemma StatisticsFirstError(d: Deriver, miners: seq<MinerEntry>, blocks: map<nat, CachedBlock>, start: nat, tip: nat)
    requires Report(d, miners, blocks, start, tip).Err?
    ensures exists i :: (0 <= i < |miners|
        && (forall j :: 0 <= j < i ==> MinerHits(d, miners[j], blocks, Heights(start, tip)).Ok?)
        && var e := Report(d, miners, blocks, start, tip).error;
        if !d.decodes(miners[i].key) then e == KeyDecodeError(ShortenKey(miners[i].key))
        else exists h :: (start <= h <= tip && h in blocks && h < NON_HARDENED_LIMIT && d.derive(miners[i].key, h).None?
          && e == DerivationError(h)
          && forall g :: start <= g < h && g in blocks && g < NON_HARDENED_LIMIT ==> d.derive(miners[i].key, g).Some?))
  {
    var hs := Heights(start, tip);
    ScanFirstError(d, miners, blocks, hs);
    var i :| 0 <= i < |miners|
      && (forall j :: 0 <= j < i ==> MinerHits(d, miners[j], blocks, hs).Ok?)
      && MinerHits(d, miners[i], blocks, hs) == Err(ScanMiners(d, miners, blocks, hs).error);
    if d.decodes(miners[i].key) {
      HitsFirstError(d, miners[i].key, blocks, hs);
      var m :| 0 <= m < |hs| && hs[m] in blocks && hs[m] < NON_HARDENED_LIMIT && d.derive(miners[i].key, hs[m]).None?
        && Hits(d, miners[i].key, blocks, hs).error == DerivationError(hs[m])
        && forall n :: 0 <= n < m && hs[n] in blocks && hs[n] < NON_HARDENED_LIMIT ==> d.derive(miners[i].key, hs[n]).Some?;
      forall g | start <= g < hs[m] && g in blocks && g < NON_HARDENED_LIMIT ensures d.derive(miners[i].key, g).Some? {
        assert hs[g - start] == g;
      }
    }
  }

  // ---------------------------------------------------------------------
  // Values

  /** Every miner's credits lie in the range, are positive, and come in
      strictly increasing height order. */
  lemma PassesSound(d: Deriver, miners: seq<MinerEntry>, blocks: map<nat, CachedBlock>, hs: seq<nat>, hitLists: seq<seq<Hit>>)
    requires StrictlyIncreasing(hs)
    requires |hitLists| == |miners|
    requires forall i :: 0 <= i < |miners| ==> Hits(d, miners[i].key, blocks, hs) == Ok(hitLists[i])
    ensures forall i, k :: 0 <= i < |hitLists| && 0 <= k < |hitLists[i]| ==>
      hitLists[i][k].height in hs && hitLists[i][k].value > 0
    ensures forall i, a, b :: 0 <= i < |hitLists| && 0 <= a < b < |hitLists[i]| ==>
      hitLists[i][a].height < hitLists[i][b].height
  {
    forall i | 0 <= i < |hitLists| ensures
      && (forall k :: 0 <= k < |hitLists[i]| ==> hitLists[i][k].height in hs && hitLists[i][k].value > 0)
      && (forall a, b :: 0 <= a < b < |hitLists[i]| ==> hitLists[i][a].height < hitLists[i][b].height)
    {
      HitsSound(d, miners[i].key, blocks, hs);
    }
  }

  lemma SummariesHeights(miners: seq<MinerEntry>, hitLists: seq<seq<Hit>>)
    requires |miners| == |hitLists|
    ensures forall i :: 0 <= i < |miners| ==> DetailHeights(Summaries(miners, hitLists)[i]) == HitHeights(hitLists[i])
  {
    SummariesAt(miners, hitLists);
    forall i | 0 <= i < |miners| ensures DetailHeights(Summaries(miners, hitLists)[i]) == HitHeights(hitLists[i]) {
      SummaryHeights(miners[i], hitLists[i]);
    }
  }

  /** Max-not-sum, on the report: the matched value (the total less the
      unmatched value) never exceeds the sum of the miners' own totals, and
      equals it when no height appears in two miners' details. */
  lemma MatchedValueDedup(d: Deriver, miners: seq<MinerEntry>, blocks: map<nat, CachedBlock>, start: nat, tip: nat)
    requires Report(d, miners, blocks, start, tip).Ok?
    ensures var rep := Report(d, miners, blocks, start, tip).value;
      && rep.totalValueZat - rep.unmatched.totalValueZat <= SumMinerTotals(rep.detailedMiners)
      && ((forall i, j :: 0 <= i < j < |rep.detailedMiners| ==>
             DetailHeights(rep.detailedMiners[i]) !! DetailHeights(rep.detailedMiners[j])) ==>
          rep.totalValueZat - rep.unmatched.totalValueZat == SumMinerTotals(rep.detailedMiners))
  {
    var hs := Heights(start, tip);
    HeightsRange(start, tip);
    ReportOfPasses(d, miners, blocks, start, tip);
    var hitLists := ScanMiners(d, miners, blocks, hs).value;
    SummariesFold(miners, hitLists);
    SummariesHeights(miners, hitLists);
    PassesSound(d, miners, blocks, hs, hitLists);
    BlockTotalsSum(hs, hitLists);
  }

  /** Height by height, the maximum credited and the unmatched coinbase
      total together stay within the coinbase total, when every credit is
      the matched value of a cached block of the range. */
  lemma SplitAtHeight(blocks: map<nat, CachedBlock>, hs: seq<nat>, hitLists: seq<seq<Hit>>, h: nat)
    requires forall h, k :: h in blocks && 0 <= k < |blocks[h].outputs| ==> blocks[h].outputs[k].valueZat >= 0
    requires forall i, k :: 0 <= i < |hitLists| && 0 <= k < |hitLists[i]| ==>
      var x := hitLists[i][k];
      x.height in hs && x.height in blocks && x.value == MatchedValue(blocks[x.height].outputs, x.address)
    requires h in hs
    ensures var ct, bt := CoinbaseTotals(blocks, hs), BlockTotals(hitLists);
      && 0 <= Get(bt, h)
      && 0 <= Get(ct - MatchedSet(hitLists), h)
      && Get(bt, h) + Get(ct - MatchedSet(hitLists), h) <= Get(ct, h)
  {
    var bt := BlockTotals(hitLists);
    BlockTotalsCovers(hitLists);
    if h in blocks {
      MatchedValueBounds(blocks[h].outputs, "");
    }
    if h in bt {
      var i, k := BlockTotalsSource(hitLists, h);
      MatchedValueBounds(blocks[h].outputs, hitLists[i][k].address);
    }
  }

  /** With no negative output values, the unmatched value is not negative
      and the total never exceeds the sum of the coinbase totals of the
      cached blocks of the range: a height's matched value is one of its
      outputs' partial sums, and a matched height adds nothing unmatched. */
  lemma TotalValueBounded(d: Deriver, miners: seq<MinerEntry>, blocks: map<nat, CachedBlock>, start: nat, tip: nat)
    requires Report(d, miners, blocks, start, tip).Ok?
    requires forall h, k :: h in blocks && 0 <= k < |blocks[h].outputs| ==> blocks[h].outputs[k].valueZat >= 0
    ensures var rep := Report(d, miners, blocks, start, tip).value;
      && 0 <= rep.unmatched.totalValueZat <= rep.totalValueZat
      && rep.totalValueZat <= SumOver(Heights(start, tip), CoinbaseTotals(blocks, Heights(start, tip)))
  {
    var hs := Heights(start, tip);
    HeightsRange(start, tip);
    ReportOfPasses(d, miners, blocks, start, tip);
    var hitLists := ScanMiners(d, miners, blocks, hs).value;
    var ct := CoinbaseTotals(blocks, hs);
    var unmatched := ct - MatchedSet(hitLists);
    var bt := BlockTotals(hitLists);
    forall i | 0 <= i < |hitLists| ensures forall k :: 0 <= k < |hitLists[i]| ==>
      var x := hitLists[i][k];
      x.height in hs && x.height in blocks && x.value == MatchedValue(blocks[x.height].outputs, x.address)
    {
      HitsSound(d, miners[i].key, blocks, hs);
    }
    forall h | h in hs ensures 0 <= Get(bt, h) && 0 <= Get(unmatched, h) && Get(bt, h) + Get(unmatched, h) <= Get(ct, h) {
      SplitAtHeight(blocks, hs, hitLists, h);
    }
    SumOverEmpty(hs);
    SumOverAddLe(hs, bt, unmatched, ct);
    SumOverAddLe(hs, map[], unmatched, unmatched);
    SumOverAddLe(hs, map[], map[], unmatched);
    SumOverAddLe(hs, map[], map[], bt);
  }

  // ---------------------------------------------------------------------
  // Configuration order

  /** Every pass of `a` is also one of `b`'s. */
  ghost predicate Covers(a: seq<seq<Hit>>, b: seq<seq<Hit>>)
  {
    forall i :: 0 <= i < |a| ==> exists j :: 0 <= j < |b| && b[j] == a[i]
  }

  /** The heights matched by the passes of `a` are matched by `b`'s
      passes too when `b` makes every pass `a` makes. */
  lemma CoveredMatched(a: seq<seq<Hit>>, b: seq<seq<Hit>>, h: nat)
    requires Covers(a, b)
    requires h in MatchedSet(a)
    ensures h in MatchedSet(b)
  {
    MatchedSetMembers(a);
    var i :| 0 <= i < |a| && h in HitHeights(a[i]);
    var j :| 0 <= j < |b| && b[j] == a[i];
    MatchedSetMembers(b);
  }

  /** One direction of the comparison of the per-height maxima: each of
      the first's is at most the second's. */
  lemma SamePassesBelow(hitLists: seq<seq<Hit>>, hitLists2: seq<seq<Hit>>, h: nat)
    requires Covers(hitLists, hitLists2)
    requires h in BlockTotals(hitLists)
    ensures h in BlockTotals(hitLists2) && BlockTotals(hitLists)[h] <= BlockTotals(hitLists2)[h]
  {
    BlockTotalsCovers(hitLists2);
    var i, k := BlockTotalsSource(hitLists, h);
    var j :| 0 <= j < |hitLists2| && hitLists2[j] == hitLists[i];
    assert hitLists2[j][k] == hitLists[i][k];
  }

  lemma SameMatched(hitLists: seq<seq<Hit>>, hitLists2: seq<seq<Hit>>)
    requires Covers(hitLists, hitLists2) && Covers(hitLists2, hitLists)
    ensures MatchedSet(hitLists) == MatchedSet(hitLists2)
  {
    forall h | h in MatchedSet(hitLists) ensures h in MatchedSet(hitLists2) {
      CoveredMatched(hitLists, hitLists2, h);
    }
    forall h | h in MatchedSet(hitLists2) ensures h in MatchedSet(hitLists) {
      CoveredMatched(hitLists2, hitLists, h);
    }
  }

  lemma SameTotals(hitLists: seq<seq<Hit>>, hitLists2: seq<seq<Hit>>)
    requires Covers(hitLists, hitLists2) && Covers(hitLists2, hitLists)
    ensures BlockTotals(hitLists) == BlockTotals(hitLists2)
  {
    var bt, bt2 := BlockTotals(hitLists), BlockTotals(hitLists2);
    forall h | h in bt ensures h in bt2 && bt[h] == bt2[h] {
      SamePassesBelow(hitLists, hitLists2, h);
      SamePassesBelow(hitLists2, hitLists, h);
    }
    forall h | h in bt2 ensures h in bt {
      SamePassesBelow(hitLists2, hitLists, h);
    }
    MapsEqual(bt, bt2);
  }

  lemma MapsEqual(m: map<nat, int>, m2: map<nat, int>)
    requires forall h :: h in m ==> h in m2 && m[h] == m2[h]
    requires forall h :: h in m2 ==> h in m
    ensures m == m2
  {
  }

  /** Listing the same miners, in any order and with any repetition, gives
      a scan that succeeds or fails alike, and then makes the same passes. */
  lemma SameMinersScan(d: Deriver, miners: seq<MinerEntry>, miners2: seq<MinerEntry>,
                       blocks: map<nat, CachedBlock>, hs: seq<nat>)
    requires forall m :: m in miners <==> m in miners2
    ensures ScanMiners(d, miners, blocks, hs).Ok? <==> ScanMiners(d, miners2, blocks, hs).Ok?
    ensures ScanMiners(d, miners, blocks, hs).Ok? ==>
      Covers(ScanMiners(d, miners, blocks, hs).value, ScanMiners(d, miners2, blocks, hs).value)
  {
    ScanFacts(d, miners, blocks, hs);
    ScanFacts(d, miners2, blocks, hs);
    if ScanMiners(d, miners, blocks, hs).Ok? {
      forall j | 0 <= j < |miners2| ensures MinerHits(d, miners2[j], blocks, hs).Ok? {
        assert miners2[j] in miners;
        var i :| 0 <= i < |miners| && miners[i] == miners2[j];
      }
      var hitLists, hitLists2 := ScanMiners(d, miners, blocks, hs).value, ScanMiners(d, miners2, blocks, hs).value;
      forall i | 0 <= i < |hitLists| ensures exists j :: 0 <= j < |hitLists2| && hitLists2[j] == hitLists[i] {
        assert miners[i] in miners2;
        var j :| 0 <= j < |miners2| && miners2[j] == miners[i];
      }
    }
    if ScanMiners(d, miners2, blocks, hs).Ok? {
      forall i | 0 <= i < |miners| ensures MinerHits(d, miners[i], blocks, hs).Ok? {
        assert miners[i] in miners2;
        var j :| 0 <= j < |miners2| && miners2[j] == miners[i];
      }
    }
  }

  /** Reordering or repeating miners in the configuration changes neither
      whether the computation fails nor the report's totals, and a miner's
      own summary does not depend on where it is listed. */
  lemma StatisticsOrderIndependent(d: Deriver, miners: seq<MinerEntry>, miners2: seq<MinerEntry>,
                                   blocks: map<nat, CachedBlock>, start: nat, tip: nat)
    requires forall m :: m in miners <==> m in miners2
    ensures Report(d, miners, blocks, start, tip).Ok? <==> Report(d, miners2, blocks, start, tip).Ok?
    ensures Report(d, miners, blocks, start, tip).Ok? ==>
      var rep, rep2 := Report(d, miners, blocks, start, tip).value, Report(d, miners2, blocks, start, tip).value;
      && rep.totalMinedBlocks == rep2.totalMinedBlocks
      && rep.totalValueZat == rep2.totalValueZat
      && rep.unmatched == rep2.unmatched
      && forall i, j :: 0 <= i < |miners| && 0 <= j < |miners2| && miners[i] == miners2[j] ==>
           rep.detailedMiners[i] == rep2.detailedMiners[j]
  {
    var hs := Heights(start, tip);
    SameMinersScan(d, miners, miners2, blocks, hs);
    SameMinersScan(d, miners2, miners, blocks, hs);
    if ScanMiners(d, miners, blocks, hs).Ok? {
      SameMinersSummaries(d, miners, miners2, blocks, hs);
      ScanSuccess(d, miners, blocks, start, tip, ScanMiners(d, miners, blocks, hs).value);
      ScanSuccess(d, miners2, blocks, start, tip, ScanMiners(d, miners2, blocks, hs).value);
    }
  }

  /** Configurations listing the same miners, both of whose scans succeed,
      match the same heights, record the same maxima and give each miner the
      same summary. */
  lemma SameMinersSummaries(d: Deriver, miners: seq<MinerEntry>, miners2: seq<MinerEntry>,
                            blocks: map<nat, CachedBlock>, hs: seq<nat>)
    requires forall m :: m in miners <==> m in miners2
    requires ScanMiners(d, miners, blocks, hs).Ok? && ScanMiners(d, miners2, blocks, hs).Ok?
    ensures var hitLists, hitLists2 := ScanMiners(d, miners, blocks, hs).value, ScanMiners(d, miners2, blocks, hs).value;
      && MatchedSet(hitLists) == MatchedSet(hitLists2)
      && BlockTotals(hitLists) == BlockTotals(hitLists2)
      && forall i, j :: 0 <= i < |miners| && 0 <= j < |miners2| && miners[i] == miners2[j] ==>
           Summaries(miners, hitLists)[i] == Summaries(miners2, hitLists2)[j]
  {
    var hitLists, hitLists2 := ScanMiners(d, miners, blocks, hs).value, ScanMiners(d, miners2, blocks, hs).value;
    SameMinersScan(d, miners, miners2, blocks, hs);
    SameMinersScan(d, miners2, miners, blocks, hs);
    SameMatched(hitLists, hitLists2);
    SameTotals(hitLists, hitLists2);
    ScanFacts(d, miners, blocks, hs);
    ScanFacts(d, miners2, blocks, hs);
    SummariesAt(miners, hitLists);
    SummariesAt(miners2, hitLists2);
  }
}
