/** The cache refresh of `main` (src/main.rs:31-60): plan the inclusive
    height range, find the heights the cache lacks, fetch all of them, and
    merge the batch only when every fetch succeeded. */
module Refresh {
  import opened Wrappers
  import opened Blocks

  /** The two node calls `fetch_block` makes, as abstract functions: a
      height to its block hash, a hash to the verbose block.  `None` stands
      for any transport, HTTP, JSON-RPC or missing-result failure. */
  datatype Rpc = Rpc(getBlockHash: nat -> Option<string>, getBlock: string -> Option<BlockResult>)

  /** `NodeRpcClient::fetch_block`: resolve the hash, fetch the block, and
      keep the coinbase outputs under the requested height. */
  function FetchBlock(rpc: Rpc, height: nat): (r: Result<CachedBlock, Error>)
    ensures r.Ok? <==> rpc.getBlockHash(height).Some? && rpc.getBlock(rpc.getBlockHash(height).value).Some?
    ensures r.Ok? ==> r.value.height == height && r.value.hash == rpc.getBlockHash(height).value
    ensures r.Ok? ==> r.value.outputs == CoinbaseOutputs(rpc.getBlock(rpc.getBlockHash(height).value).value)
    ensures r.Err? ==> r.error.RpcError?
    ensures r.Err? ==> (r.error.rpcMethod == "getblockhash" <==> rpc.getBlockHash(height).None?)
  {
    match rpc.getBlockHash(height)
    case None => Err(RpcError("getblockhash"))
    case Some(hash) =>
      match rpc.getBlock(hash)
      case None => Err(RpcError("getblock"))
      case Some(block) => Ok(CachedBlock(height, hash, CoinbaseOutputs(block)))
  }

  /** The heights of `hs` that have no cached block, in the order of `hs`. */
  function Missing(hs: seq<nat>, blocks: map<nat, CachedBlock>): (missing: seq<nat>)
    ensures forall h :: h in missing <==> h in hs && h !in blocks
    ensures missing == [] <==> forall h :: h in hs ==> h in blocks
    ensures |missing| <= |hs|
  {
    if hs == [] then []
    else
      var rest := Missing(hs[..|hs| - 1], blocks);
      var h := hs[|hs| - 1];
      if h in blocks then rest else rest + [h]
  }

  /** The parallel fetch, as a map to `Result` that fails as a whole: the
      blocks of all `heights` in order, or the error of the first failing
      height. */
  function FetchAll(rpc: Rpc, heights: seq<nat>): (r: Result<seq<CachedBlock>, Error>)
    ensures r.Ok? <==> forall h :: h in heights ==> FetchBlock(rpc, h).Ok?
    ensures r.Ok? ==> |r.value| == |heights|
    ensures r.Ok? ==> forall i :: 0 <= i < |heights| ==> r.value[i] == FetchBlock(rpc, heights[i]).value
    ensures r.Err? ==> exists h :: h in heights && FetchBlock(rpc, h) == Err(r.error)
  {
    if heights == [] then Ok([])
    else
      var prefix := heights[..|heights| - 1];
      var h := heights[|heights| - 1];
      match FetchAll(rpc, prefix)
      case Err(e) => Err(e)
      case Ok(blocks) =>
        match FetchBlock(rpc, h)
        case Err(e) => Err(e)
        case Ok(b) => Ok(blocks + [b])
  }

  /** Inserting a batch of blocks, each under its own height, later ones
      overwriting earlier ones. */
  function InsertAll(blocks: map<nat, CachedBlock>, batch: seq<CachedBlock>): (r: map<nat, CachedBlock>)
    ensures blocks.Keys <= r.Keys
    ensures forall i :: 0 <= i < |batch| ==> batch[i].height in r
    ensures batch != [] ==> r[batch[|batch| - 1].height] == batch[|batch| - 1]
  {
    if batch == [] then blocks
    else
      var b := batch[|batch| - 1];
      InsertAll(blocks, batch[..|batch| - 1])[b.height := b]
  }

  /** Inserting a batch adds exactly the batch's heights. */
  lemma {:induction false} InsertAllKeys(blocks: map<nat, CachedBlock>, batch: seq<CachedBlock>)
    ensures forall h :: h in InsertAll(blocks, batch) <==>
              h in blocks || exists i :: 0 <= i < |batch| && batch[i].height == h
  {
    if batch != [] {
      var prefix := batch[..|batch| - 1];
      InsertAllKeys(blocks, prefix);
      forall h | h in InsertAll(blocks, batch) && h !in blocks
        ensures exists i :: 0 <= i < |batch| && batch[i].height == h
      {
        if h != batch[|batch| - 1].height {
          var i :| 0 <= i < |prefix| && prefix[i].height == h;
          assert batch[i].height == h;
        }
      }
      forall h | exists i :: 0 <= i < |batch| && batch[i].height == h
        ensures h in InsertAll(blocks, batch)
      {
        var i :| 0 <= i < |batch| && batch[i].height == h;
        if i < |prefix| {
          assert prefix[i].height == h;
        }
      }
    }
  }

  /** Inserting a batch keeps every entry whose height it does not carry. */
  lemma {:induction false} InsertAllKeepsOthers(blocks: map<nat, CachedBlock>, batch: seq<CachedBlock>, h: nat)
    requires h in blocks
    requires forall i :: 0 <= i < |batch| ==> batch[i].height != h
    ensures h in InsertAll(blocks, batch) && InsertAll(blocks, batch)[h] == blocks[h]
  {
    if batch != [] {
      InsertAllKeepsOthers(blocks, batch[..|batch| - 1], h);
    }
  }

  /** Inserting a batch stores each block that no later block of the batch
      overwrites. */
  lemma {:induction false} InsertAllStores(blocks: map<nat, CachedBlock>, batch: seq<CachedBlock>, i: nat)
    requires i < |batch|
    requires forall j :: i < j < |batch| ==> batch[j].height != batch[i].height
    ensures batch[i].height in InsertAll(blocks, batch)
    ensures InsertAll(blocks, batch)[batch[i].height] == batch[i]
  {
    if i < |batch| - 1 {
      var prefix := batch[..|batch| - 1];
      InsertAllStores(blocks, prefix, i);
    }
  }

  /** The value of a `BlockCache`: the last tip seen and the cached blocks. */
  datatype CacheState = CacheState(lastTip: Option<nat>, blocks: map<nat, CachedBlock>)

  /** What a refresh produces: the new cache and whether it is written out. */
  datatype Refreshed = Refreshed(state: CacheState, saved: bool)

  /** The refresh of `main`, as a function of the cache it starts from. */
  function RefreshPlan(state: CacheState, start: nat, tip: nat, rpc: Rpc): (r: Result<Refreshed, Error>)
    ensures r.Err? ==> r.error.RangeError? || r.error.RpcError?
    ensures r.Ok? ==> r.value.state.lastTip == Some(tip) && state.blocks.Keys <= r.value.state.blocks.Keys
    ensures r.Ok? && !r.value.saved ==> r.value.state == state
  {
    if tip < start then Err(RangeError(tip, start))
    else
      var missing := Missing(Heights(start, tip), state.blocks);
      if missing != [] then
        match FetchAll(rpc, missing)
        case Err(e) => Err(e)
        case Ok(fetched) => Ok(Refreshed(CacheState(Some(tip), InsertAll(state.blocks, fetched)), true))
      else if state.lastTip != Some(tip) then
        Ok(Refreshed(CacheState(Some(tip), state.blocks), true))
      else
        Ok(Refreshed(state, false))
  }

  /** A tip below the start height fails, and so does a batch in which any
      missing height cannot be fetched; nothing else fails. */
  lemma RefreshFails(state: CacheState, start: nat, tip: nat, rpc: Rpc)
    ensures tip < start ==> RefreshPlan(state, start, tip, rpc) == Err(RangeError(tip, start))
    ensures RefreshPlan(state, start, tip, rpc).Err? <==>
              tip < start ||
              exists h :: start <= h <= tip && h !in state.blocks && FetchBlock(rpc, h).Err?
  {
    HeightsRange(start, tip);
  }

  /** A successful refresh caches every height of `[start, tip]`, leaves the
      blocks it already had untouched, caches the fetched block for each
      height it lacked, adds nothing else, and records `tip` as the last tip. */
  lemma RefreshFillsRange(state: CacheState, start: nat, tip: nat, rpc: Rpc)
    requires RefreshPlan(state, start, tip, rpc).Ok?
    ensures var s := RefreshPlan(state, start, tip, rpc).value.state;
      && s.lastTip == Some(tip)
      && (forall h :: h in s.blocks <==> h in state.blocks || start <= h <= tip)
      && (forall h :: h in state.blocks ==> s.blocks[h] == state.blocks[h])
      && (forall h :: start <= h <= tip && h !in state.blocks ==>
            FetchBlock(rpc, h).Ok? && s.blocks[h] == FetchBlock(rpc, h).value)
  {
    HeightsRange(start, tip);
    var missing := Missing(Heights(start, tip), state.blocks);
    if missing != [] {
      MissingIncreasing(Heights(start, tip), state.blocks);
      MergeBatch(state.blocks, missing, rpc);
    }
  }

  /** Inserting blocks whose heights are strictly increasing and uncached:
      the old entries stay, the `i`-th height gets the `i`-th block, and
      nothing else is added. */
  lemma {:induction false} InsertFresh(blocks: map<nat, CachedBlock>, batch: seq<CachedBlock>, heights: seq<nat>)
    requires |batch| == |heights|
    requires forall i :: 0 <= i < |batch| ==> batch[i].height == heights[i]
    requires StrictlyIncreasing(heights)
    requires forall h :: h in heights ==> h !in blocks
    ensures var m := InsertAll(blocks, batch);
      && (forall h :: h in m <==> h in blocks || h in heights)
      && (forall h :: h in blocks ==> m[h] == blocks[h])
      && (forall i :: 0 <= i < |batch| ==> m[heights[i]] == batch[i])
  {
    var m := InsertAll(blocks, batch);
    InsertAllKeys(blocks, batch);
    forall h ensures h in m <==> h in blocks || h in heights {
      if h in heights {
        var i :| 0 <= i < |heights| && heights[i] == h;
        assert batch[i].height == h;
      }
    }
    forall h | h in blocks ensures m[h] == blocks[h] {
      InsertAllKeepsOthers(blocks, batch, h);
    }
    forall i | 0 <= i < |batch| ensures m[heights[i]] == batch[i] {
      forall j | i < j < |batch| ensures batch[j].height != batch[i].height {
        assert heights[i] < heights[j];
      }
      InsertAllStores(blocks, batch, i);
    }
  }

  /** Merging the fetched blocks of strictly increasing heights none of
      which is cached: the old entries stay, each fetched height gets its
      block, and nothing else is added. */
  lemma MergeBatch(blocks: map<nat, CachedBlock>, missing: seq<nat>, rpc: Rpc)
    requires StrictlyIncreasing(missing)
    requires forall h :: h in missing ==> h !in blocks
    requires FetchAll(rpc, missing).Ok?
    ensures var m := InsertAll(blocks, FetchAll(rpc, missing).value);
      && (forall h :: h in m <==> h in blocks || h in missing)
      && (forall h :: h in blocks ==> m[h] == blocks[h])
      && (forall h :: h in missing ==> m[h] == FetchBlock(rpc, h).value)
  {
    var fetched := FetchAll(rpc, missing).value;
    InsertFresh(blocks, fetched, missing);
    forall h | h in missing ensures InsertAll(blocks, fetched)[h] == FetchBlock(rpc, h).value {
      var i :| 0 <= i < |missing| && missing[i] == h;
    }
  }

  /** `Missing` keeps the order of a strictly increasing range. */
  lemma {:induction false} MissingIncreasing(hs: seq<nat>, blocks: map<nat, CachedBlock>)
    requires StrictlyIncreasing(hs)
    ensures StrictlyIncreasing(Missing(hs, blocks))
    ensures forall h :: h in Missing(hs, blocks) ==> h <= hs[|hs| - 1]
  {
    if hs != [] {
      var prefix := hs[..|hs| - 1];
      var last := hs[|hs| - 1];
      assert StrictlyIncreasing(prefix);
      MissingIncreasing(prefix, blocks);
      var rest := Missing(prefix, blocks);
      forall h | h in rest ensures h < last {
        var k :| 0 <= k < |prefix| && prefix[k] == h;
      }
      if last !in blocks {
        var m := rest + [last];
        forall i, j | 0 <= i < j < |m| ensures m[i] < m[j] {
          if j == |m| - 1 { assert m[i] in rest; }
        }
      }
    }
  }

  /** The cache is written out exactly when some height was missing or the
      recorded tip differs from `tip`; an up-to-date cache is not rewritten. */
  lemma RefreshSaves(state: CacheState, start: nat, tip: nat, rpc: Rpc)
    requires RefreshPlan(state, start, tip, rpc).Ok?
    ensures RefreshPlan(state, start, tip, rpc).value.saved <==>
              state.lastTip != Some(tip) || exists h :: start <= h <= tip && h !in state.blocks
    ensures !RefreshPlan(state, start, tip, rpc).value.saved ==>
              RefreshPlan(state, start, tip, rpc).value.state == state
  {
    HeightsRange(start, tip);
    var missing := Missing(Heights(start, tip), state.blocks);
    if missing != [] {
      assert missing[0] in missing;
    }
  }

  /** Refreshing again against the same tip fetches nothing, changes nothing
      and writes nothing. */
  lemma RefreshIdempotent(state: CacheState, start: nat, tip: nat, rpc: Rpc)
    requires RefreshPlan(state, start, tip, rpc).Ok?
    ensures var s := RefreshPlan(state, start, tip, rpc).value.state;
      RefreshPlan(s, start, tip, rpc) == Ok(Refreshed(s, false))
  {
    var s := RefreshPlan(state, start, tip, rpc).value.state;
    RefreshFillsRange(state, start, tip, rpc);
    HeightsRange(start, tip);
    assert forall h :: h in Heights(start, tip) ==> h in s.blocks;
  }

  /** The persistent block cache, loaded once and updated in place. */
  class BlockCache {
    var lastTip: Option<nat>
    var blocks: map<nat, CachedBlock>

    /** `BlockCache::default()`, the cache of a first run. */
    constructor ()
      ensures lastTip == None && blocks == map[]
    {
      lastTip := None;
      blocks := map[];
    }

    function State(): CacheState
      reads this
    {
      CacheState(lastTip, blocks)
    }

    /** The merge loop of `main`: insert each fetched block under its own
        height. */
    method InsertBatch(batch: seq<CachedBlock>)
      modifies this
      ensures blocks == InsertAll(old(blocks), batch)
      ensures lastTip == old(lastTip)
    {
      var i := 0;
      while i < |batch|
        invariant 0 <= i <= |batch|
        invariant blocks == InsertAll(old(blocks), batch[..i])
        invariant lastTip == old(lastTip)
      {
        assert batch[..i + 1][..i] == batch[..i];
        blocks := blocks[batch[i].height := batch[i]];
        i := i + 1;
      }
      assert batch[..i] == batch;
    }
  }

  /** The refresh of `main` on the cache object: fails on a low tip, fetches
      the missing heights as one batch, inserts them only when all arrived,
      then records the tip.  Returns whether the cache is to be saved. */
  method RefreshCache(cache: BlockCache, start: nat, tip: nat, rpc: Rpc) returns (r: Result<bool, Error>)
    modifies cache
    ensures RefreshPlan(old(cache.State()), start, tip, rpc).Err? ==>
              r == Err(RefreshPlan(old(cache.State()), start, tip, rpc).error) &&
              cache.blocks == old(cache.blocks) && cache.lastTip == old(cache.lastTip)
    ensures RefreshPlan(old(cache.State()), start, tip, rpc).Ok? ==>
              r == Ok(RefreshPlan(old(cache.State()), start, tip, rpc).value.saved) &&
              cache.State() == RefreshPlan(old(cache.State()), start, tip, rpc).value.state
  {
    if tip < start {
      return Err(RangeError(tip, start));
    }
    var heights := Heights(start, tip);
    var missing := Missing(heights, cache.blocks);
    if missing != [] {
      var fetched := FetchAll(rpc, missing);
      if fetched.Err? {
        return Err(fetched.error);
      }
      cache.InsertBatch(fetched.value);
      cache.lastTip := Some(tip);
      r := Ok(true);
    } else if cache.lastTip != Some(tip) {
      cache.lastTip := Some(tip);
      r := Ok(true);
    } else {
      r := Ok(false);
    }
  }
}
