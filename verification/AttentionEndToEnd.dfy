/** Both ways to attend over a request's cached rows, one after the other on the same cache: through the block table,
    and by gathering the rows first and running the reference on them. */
module EndToEndAttention {
  import opened Common
  import opened PagedKernels
  import opened Softmax
  import opened PagedAttention
  import opened ReferenceAttention

  /** The reference sees packed rows only: the cache's shape makes no difference to it. */
  lemma PackedIsSame(e: real -> real, p: Problem, q: seq<real>, k: seq<real>, v: seq<real>, scale: real, index: nat)
    requires IsExp(e) && p.Valid() && |q| == p.Queries().Total() && |k| == |v| == p.g.Total()
             && index < p.Queries().Total()
    ensures var packed := Packed(p.queryTokens, p.queryHeads, p.g.rows, p.g.heads, p.g.headSize);
            && packed.Valid() && packed.Queries().Total() == p.Queries().Total() && packed.g.Total() == p.g.Total()
            && ReferenceOutput(e, packed, q, k, v, scale, index) == ReferenceOutput(e, p, q, k, v, scale, index)
  {
    var packed := Packed(p.queryTokens, p.queryHeads, p.g.rows, p.g.heads, p.g.headSize);
    var n, kvHead := Visible(p, QueryToken(p, index)), KvHead(p, QueryHead(p, index));
    assert Visible(packed, QueryToken(packed, index)) == n && KvHead(packed, QueryHead(packed, index)) == kvHead;
    assert FlatBases(packed.g, kvHead, n) == FlatBases(p.g, kvHead, n);
  }

  /** The read kernel, the reference on what it gathered, and the paged kernel on the cache itself: the two outputs are
      the same array, under any scheduling of the kernels. The reference refuses only tensors beyond 64-bit sizes. */
  method AttendBothWays(e: real -> real, p: Problem, q: seq<real>, blocks: seq<nat>, scale: real, threads: nat,
                        keyCache: array<real>, valueCache: array<real>, keys: array<real>, values: array<real>,
                        output: array<real>)
    returns (reference: Result<seq<real>>)
    requires IsExp(e) && p.Valid() && TableOk(p.g, blocks) && threads > 0
    requires |q| == output.Length == p.Queries().Total()
    requires keyCache.Length == valueCache.Length == p.g.CacheTotal() && keys.Length == values.Length == p.g.Total()
    requires keys != values && keys != keyCache && keys != valueCache && values != keyCache && values != valueCache
    requires output != keyCache && output != valueCache && output != keys && output != values
    modifies keys, values, output
    ensures reference.Ok? ==> output[..] == reference.value
    ensures reference.Err? ==> p.Queries().Total() > MAX64 || p.g.Total() > MAX64
  {
    Read(p.g, blocks, threads, keyCache, valueCache, keys, values);
    TableLeadsAll(p.g, blocks);
    PagedKernel(e, p, q, keyCache[..], valueCache[..], blocks, scale, threads, output);
    reference := ReferenceAttention.ReferenceAttention(e, q, keys[..], values[..], scale, p.queryTokens, p.queryHeads,
                                                       p.g.rows, p.g.heads, p.g.headSize);
    if reference.Ok? {
      forall i: nat | i < |q| ensures |reference.value| == |q| && output[..][i] == reference.value[i] {
        PackedIsSame(e, p, q, keys[..], values[..], scale, i);
        PagedEqualsReference(e, p, q, keyCache[..], valueCache[..], blocks, keys[..], values[..], scale, i);
      }
      assert |q| == 0 ==> |reference.value| == 0;
    }
  }
}
