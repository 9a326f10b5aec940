/** A worked example: three cached blocks, one miner credited with the
    middle one, the other two paying a pool address nobody is configured
    with. */
module Scenario {
  import opened Wrappers
  import opened Blocks
  import opened Statistics
  import opened StatisticsProps

  function ExampleBlocks(): map<nat, CachedBlock>
  {
    map[100 := CachedBlock(100, "h100", [CoinbaseOutput(150000000, ["t1Pool"])]),
        101 := CachedBlock(101, "h101", [CoinbaseOutput(500000000, ["t1Miner"]), CoinbaseOutput(0, [])]),
        102 := CachedBlock(102, "h102", [CoinbaseOutput(150000000, ["t1Pool"])])]
  }

  /** The miner's key decodes and derives the same address at every
      height. */
  function ExampleDeriver(): Deriver
  {
    Deriver(key => true, (key, h) => Some("t1Miner"))
  }

  function ExampleHit(): Hit
  {
    Hit(101, "h101", "t1Miner", 500000000)
  }

  lemma ExampleProbes()
    ensures Probe(ExampleDeriver(), "uview1", ExampleBlocks(), 100) == Ok(None)
    ensures Probe(ExampleDeriver(), "uview1", ExampleBlocks(), 101) == Ok(Some(ExampleHit()))
    ensures Probe(ExampleDeriver(), "uview1", ExampleBlocks(), 102) == Ok(None)
  {
    var blocks := ExampleBlocks();
    assert blocks[100].outputs[..0] == [];
    assert blocks[101].outputs[..1][..0] == [];
    assert blocks[102].outputs[..0] == [];
  }

  lemma ExampleHits()
    ensures Hits(ExampleDeriver(), "uview1", ExampleBlocks(), [100, 101, 102]) == Ok([ExampleHit()])
  {
    var d, blocks := ExampleDeriver(), ExampleBlocks();
    ExampleProbes();
    assert [100, 101, 102][..2] == [100, 101];
    assert [100, 101][..1] == [100];
    assert [100][..0] == [];
    assert Hits(d, "uview1", blocks, [100]) == Ok([]);
    assert [] + [ExampleHit()] == [ExampleHit()];
    assert Hits(d, "uview1", blocks, [100, 101]) == Ok([ExampleHit()]);
  }

  lemma SumOverThree(a: nat, b: nat, c: nat, m: map<nat, int>)
    ensures SumOver([a, b, c], m) == Get(m, a) + Get(m, b) + Get(m, c)
  {
    assert [a, b, c][..2] == [a, b];
    assert [a, b][..1] == [a];
    assert [a][..0] == [];
    assert SumOver([a], m) == Get(m, a);
    assert SumOver([a, b], m) == Get(m, a) + Get(m, b);
  }

  lemma ExampleCredits()
    ensures BlockTotals([[ExampleHit()]]) == map[101 := 500000000]
    ensures MatchedSet([[ExampleHit()]]) == {101}
  {
    var hits := [ExampleHit()];
    var lists: seq<seq<Hit>> := [hits];
    assert lists[..0] == [];
    assert hits[..0] == [];
    assert BlockTotals(lists[..0]) == map[];
    assert MergeMax(map[], hits) == map[101 := 500000000];
  }

  lemma ExampleUnmatched()
    ensures var ct := CoinbaseTotals(ExampleBlocks(), [100, 101, 102]) - {101};
      Get(ct, 100) == 150000000 && Get(ct, 101) == 0 && Get(ct, 102) == 150000000
  {
    var blocks := ExampleBlocks();
    assert blocks[100].outputs[..0] == [];
    assert blocks[102].outputs[..0] == [];
    assert CoinbaseTotal(blocks[100].outputs) == 150000000;
    assert CoinbaseTotal(blocks[102].outputs) == 150000000;
  }

  lemma ExampleSums()
    ensures SumOver([100, 101, 102], BlockTotals([[ExampleHit()]])) == 500000000
    ensures SumOver([100, 101, 102], CoinbaseTotals(ExampleBlocks(), [100, 101, 102]) - MatchedSet([[ExampleHit()]])) == 300000000
  {
    ExampleCredits();
    ExampleUnmatched();
    SumOverThree(100, 101, 102, map[101 := 500000000]);
    SumOverThree(100, 101, 102, CoinbaseTotals(ExampleBlocks(), [100, 101, 102]) - {101});
  }

  lemma ExampleScan()
    ensures ScanMiners(ExampleDeriver(), [MinerEntry("uview1", "alpha")], ExampleBlocks(), [100, 101, 102]) ==
      Ok([[ExampleHit()]])
    ensures Summaries([MinerEntry("uview1", "alpha")], [[ExampleHit()]]) ==
      [MinerSummary("alpha", 1, 500000000, [MinerBlockDetail(101, "h101", "t1Miner")])]
  {
    var miners := [MinerEntry("uview1", "alpha")];
    var hits := [ExampleHit()];
    var lists: seq<seq<Hit>> := [hits];
    ExampleHits();
    assert miners[..0] == [];
    assert lists[..0] == [];
    assert hits[..0] == [];
    assert ScanMiners(ExampleDeriver(), miners[..0], ExampleBlocks(), [100, 101, 102]) == Ok([]);
    assert MinerHits(ExampleDeriver(), miners[0], ExampleBlocks(), [100, 101, 102]) == Ok(hits);
    assert [] + lists == lists;
    assert Summary(miners[0], hits) == MinerSummary("alpha", 1, 500000000, [MinerBlockDetail(101, "h101", "t1Miner")]);
    assert Summaries(miners[..0], lists[..0]) == [];
  }

  /** The report for the example: one block mined, by the one miner,
      worth 5 coins, and two unmatched blocks worth 1.5 coins each. */
  lemma ExampleReport()
    ensures Report(ExampleDeriver(), [MinerEntry("uview1", "alpha")], ExampleBlocks(), 100, 102) ==
      Ok(MinerStatsReport(100, 102, 1, 800000000,
                          [MinerAggregate("alpha", 1, 500000000)],
                          [MinerSummary("alpha", 1, 500000000, [MinerBlockDetail(101, "h101", "t1Miner")])],
                          UnmatchedSummary(2, 300000000)))
  {
    var hs := Heights(100, 102);
    assert hs == [100, 101, 102];
    ExampleScan();
    ExampleAssemble();
  }

  lemma ExampleAssemble()
    ensures Assemble(100, 102, [100, 101, 102], CoinbaseTotals(ExampleBlocks(), [100, 101, 102]),
                     [MinerSummary("alpha", 1, 500000000, [MinerBlockDetail(101, "h101", "t1Miner")])],
                     MatchedSet([[ExampleHit()]]), BlockTotals([[ExampleHit()]])) ==
      MinerStatsReport(100, 102, 1, 800000000,
                       [MinerAggregate("alpha", 1, 500000000)],
                       [MinerSummary("alpha", 1, 500000000, [MinerBlockDetail(101, "h101", "t1Miner")])],
                       UnmatchedSummary(2, 300000000))
  {
    ExampleSums();
    ExampleCredits();
    var summaries := [MinerSummary("alpha", 1, 500000000, [MinerBlockDetail(101, "h101", "t1Miner")])];
    assert Aggregates(summaries) == [MinerAggregate("alpha", 1, 500000000)];
  }
}
