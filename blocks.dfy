/** The data model shared by the cache refresh and the statistics engine:
    cached blocks and their coinbase outputs, the node's verbose block
    shape, the error taxonomy, and the small pure helpers of `src/main.rs`. */
module Blocks {
  import opened Wrappers

  /** A coinbase output: its value in zatoshis and the addresses its script
      pays to (empty for a non-standard script).  The source stores the value
      as an `i64` and sums such values with no overflow check; the model uses
      unbounded integers. */
  datatype CoinbaseOutput = CoinbaseOutput(valueZat: int, addresses: seq<string>)

  /** A block as kept in the cache: its height, hash and the outputs of its
      first (coinbase) transaction. */
  datatype CachedBlock = CachedBlock(height: nat, hash: string, outputs: seq<CoinbaseOutput>)

  /** The part of a `getblock` (verbosity 2) answer that the program reads. */
  datatype ScriptPubKey = ScriptPubKey(addresses: Option<seq<string>>)
  datatype BlockVout = BlockVout(valueZat: int, scriptPubKey: ScriptPubKey)
  datatype BlockTx = BlockTx(vout: seq<BlockVout>)
  datatype BlockResult = BlockResult(hash: string, height: nat, tx: seq<BlockTx>)

  /** Everything that can make a run fail.  `RpcError` names the RPC method
      that failed; `KeyDecodeError` carries the shortened key. */
  datatype Error =
    | RangeError(tip: nat, start: nat)
    | RpcError(rpcMethod: string)
    | KeyDecodeError(keyFragment: string)
    | DerivationError(height: nat)

  /** The addresses of an output, an absent list read as empty. */
  function AddressesOf(vout: BlockVout): (r: seq<string>)
    ensures vout.scriptPubKey.addresses.None? ==> r == []
    ensures vout.scriptPubKey.addresses.Some? ==> r == vout.scriptPubKey.addresses.value
  {
    match vout.scriptPubKey.addresses
    case None => []
    case Some(addrs) => addrs
  }

  /** `BlockResult::coinbase_outputs`: the outputs of the first transaction,
      in order; no outputs at all when the block has no transaction. */
  function CoinbaseOutputs(b: BlockResult): (r: seq<CoinbaseOutput>)
    ensures b.tx == [] ==> r == []
    ensures b.tx != [] ==> |r| == |b.tx[0].vout|
    ensures b.tx != [] ==> forall i :: 0 <= i < |r| ==>
              r[i].valueZat == b.tx[0].vout[i].valueZat &&
              r[i].addresses == AddressesOf(b.tx[0].vout[i])
  {
    if b.tx == [] then []
    else
      var vout := b.tx[0].vout;
      seq(|vout|, i requires 0 <= i < |vout| => CoinbaseOutput(vout[i].valueZat, AddressesOf(vout[i])))
  }

  /** The sum of the values of some outputs (the per-height coinbase total). */
  function CoinbaseTotal(outputs: seq<CoinbaseOutput>): (r: int)
    ensures (forall i :: 0 <= i < |outputs| ==> outputs[i].valueZat >= 0) ==> r >= 0
  {
    if outputs == [] then 0
    else CoinbaseTotal(outputs[..|outputs| - 1]) + outputs[|outputs| - 1].valueZat
  }

  /** The sum of the values of the outputs whose address list contains
      `address`; an output listing the address twice still counts once. */
  function MatchedValue(outputs: seq<CoinbaseOutput>, address: string): (r: int)
    ensures (forall i :: 0 <= i < |outputs| ==> address !in outputs[i].addresses) ==> r == 0
  {
    if outputs == [] then 0
    else
      MatchedValue(outputs[..|outputs| - 1], address)
      + (if address in outputs[|outputs| - 1].addresses then outputs[|outputs| - 1].valueZat else 0)
  }

  /** Matching never adds more than the non-negative outputs hold, and an
      address that no output lists matches nothing. */
  lemma {:induction false} MatchedValueBounds(outputs: seq<CoinbaseOutput>, address: string)
    requires forall i :: 0 <= i < |outputs| ==> outputs[i].valueZat >= 0
    ensures 0 <= MatchedValue(outputs, address) <= CoinbaseTotal(outputs)
    ensures (forall i :: 0 <= i < |outputs| ==> address !in outputs[i].addresses) ==>
              MatchedValue(outputs, address) == 0
  {
    if outputs != [] {
      MatchedValueBounds(outputs[..|outputs| - 1], address);
    }
  }

  /** The inclusive height range `start..=tip`, empty when `tip < start`. */
  function Heights(start: nat, tip: nat): (hs: seq<nat>)
    ensures |hs| == if tip < start then 0 else tip - start + 1
    ensures forall i :: 0 <= i < |hs| ==> hs[i] == start + i
  {
    if tip < start then [] else seq(tip - start + 1, i requires 0 <= i => start + i)
  }

  /** The range lists each height of `[start, tip]` exactly once, in
      increasing order. */
  lemma HeightsRange(start: nat, tip: nat)
    ensures forall h :: h in Heights(start, tip) <==> start <= h <= tip
    ensures StrictlyIncreasing(Heights(start, tip))
  {
    var hs := Heights(start, tip);
    forall h | start <= h <= tip ensures h in hs {
      assert hs[h - start] == h;
    }
  }

  ghost predicate StrictlyIncreasing(hs: seq<nat>) {
    forall i, j :: 0 <= i < j < |hs| ==> hs[i] < hs[j]
  }

  const ELLIPSIS: char := '\U{2026}'

  /** `shorten_key`: a key of at most 16 characters unchanged, a longer one
      as its first eight and last eight characters around an ellipsis. */
  function ShortenKey(key: string): (r: string)
    ensures |key| <= 16 ==> r == key
    ensures |key| > 16 ==> |r| == 17 && r[8] == ELLIPSIS
    ensures |key| > 16 ==> r[..8] == key[..8] && r[9..] == key[|key| - 8..]
    ensures |r| <= |key|
  {
    if |key| <= 16 then key
    else key[..8] + [ELLIPSIS] + key[|key| - 8..]
  }
}
