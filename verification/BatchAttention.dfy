/** The batched decode kernel: one query token a request, block tables padded to one width
    (src/v2/paged_attention.cu). */
module BatchAttention {
  import opened Common
  import opened Arithmetic
  import opened KvLayouts
  import opened PagedKernels
  import opened TokenSlots
  import opened Softmax
  import opened PagedAttention

  /** `g` gives the cache; each request has its own number of tokens. */
  datatype Batch = Batch(queryHeads: nat, g: Shape, table: BatchTable)
  {
    predicate Valid() {
      queryHeads > 0 && g.Valid() && queryHeads % g.heads == 0
    }

    function Queries(): Shape { Shape(|table.lengths|, g.blocks, queryHeads, g.blockSize, g.headSize) }

    /** Request `r` on its own, as a single decode step. */
    function Single(r: nat): Problem
      requires r < |table.lengths|
    {
      Problem(1, queryHeads, g.(rows := table.lengths[r]))
    }
  }

  /** What the host has checked: every request is non-empty and its blocks exist. Folded. */
  ghost predicate Ready(b: Batch, sequences: seq<View>) {
    && b.Valid() && |sequences| == |b.table.lengths|
    && forall t {:trigger Unseal(t)} :: t == b ==> Checked(t, sequences)
  }

  ghost predicate Checked(b: Batch, sequences: seq<View>) {
    && TableIs(b.table, sequences)
    && (forall r :: 0 <= r < |sequences| ==>
          sequences[r].Valid() && sequences[r].blockSize == b.g.blockSize && sequences[r].numTokens > 0)
    && (forall r, k :: 0 <= r < |sequences| && 0 <= k < |sequences[r].blocks| ==>
          sequences[r].blocks[k] < b.g.blocks)
  }

  lemma UnfoldReady(b: Batch, sequences: seq<View>)
    requires Ready(b, sequences)
    ensures Checked(b, sequences)
  {
    assert Unseal(b);
  }

  /** A request's row of the padded table leads to its tokens, all of them within the row's own blocks. */
  lemma RowLeads(b: Batch, sequences: seq<View>, r: nat, t: nat)
    requires Ready(b, sequences) && r < |sequences| && t < b.table.lengths[r]
    ensures LeadsTo(b.Single(r).g, b.table.table, r * b.table.maxBlocks, t)
            && LeadsTo(b.Single(r).g, sequences[r].blocks, 0, t)
    ensures forall kvHead: nat :: PagedBase(b.Single(r).g, b.table.table, r * b.table.maxBlocks, kvHead, t)
                                    == PagedBase(b.Single(r).g, sequences[r].blocks, 0, kvHead, t)
  {
    UnfoldReady(b, sequences);
    TokenHasBlock(sequences[r], t);
    assert RowIs(b.table, r, sequences[r].blocks);
    assert At(r, LogicalBlock(sequences[r], t), b.table.maxBlocks)
             == r * b.table.maxBlocks + LogicalBlock(sequences[r], t);
  }

  lemma RowLeadsAll(b: Batch, sequences: seq<View>, r: nat)
    requires Ready(b, sequences) && r < |sequences|
    ensures Leads(b.Single(r).g, b.table.table, r * b.table.maxBlocks, b.table.lengths[r])
            && Leads(b.Single(r).g, sequences[r].blocks, 0, b.table.lengths[r])
    ensures forall kvHead: nat ::
              PagedBases(b.Single(r).g, b.table.table, r * b.table.maxBlocks, kvHead, b.table.lengths[r])
                == PagedBases(b.Single(r).g, sequences[r].blocks, 0, kvHead, b.table.lengths[r])
  {
    forall t: nat | t < b.table.lengths[r]
      ensures LeadsTo(b.Single(r).g, b.table.table, r * b.table.maxBlocks, t)
              && LeadsTo(b.Single(r).g, sequences[r].blocks, 0, t)
    {
      RowLeads(b, sequences, r, t);
    }
    forall kvHead: nat
      ensures PagedBases(b.Single(r).g, b.table.table, r * b.table.maxBlocks, kvHead, b.table.lengths[r])
                == PagedBases(b.Single(r).g, sequences[r].blocks, 0, kvHead, b.table.lengths[r])
    {
      SameBases(b, sequences, r, kvHead);
    }
  }

  lemma SameBases(b: Batch, sequences: seq<View>, r: nat, kvHead: nat)
    requires Ready(b, sequences) && r < |sequences|
    requires Leads(b.Single(r).g, b.table.table, r * b.table.maxBlocks, b.table.lengths[r])
             && Leads(b.Single(r).g, sequences[r].blocks, 0, b.table.lengths[r])
    ensures PagedBases(b.Single(r).g, b.table.table, r * b.table.maxBlocks, kvHead, b.table.lengths[r])
              == PagedBases(b.Single(r).g, sequences[r].blocks, 0, kvHead, b.table.lengths[r])
  {
    var n := b.table.lengths[r];
    var p, q := PagedBases(b.Single(r).g, b.table.table, r * b.table.maxBlocks, kvHead, n),
                PagedBases(b.Single(r).g, sequences[r].blocks, 0, kvHead, n);
    forall t: nat | t < n ensures p[t] == q[t] { RowLeads(b, sequences, r, t); }
  }

  // ---------------------------------------------------------------- one element of the batch

  function Request(b: Batch, index: nat): (r: nat)
    requires b.Valid() && index < b.Queries().Total()
    ensures r < |b.table.lengths|
  {
    RowBelow(b.Queries(), index);
    Row(b.Queries(), index)
  }

  /** The index within the request's own query. */
  function Within(b: Batch, index: nat): (i: nat)
    requires b.Valid() && index < b.Queries().Total()
  {
    RequestStart(b, index);
    index - Request(b, index) * (b.queryHeads * b.g.headSize)
  }

  lemma RequestStart(b: Batch, index: nat)
    requires b.Valid() && index < b.Queries().Total()
    ensures var start := Request(b, index) * (b.queryHeads * b.g.headSize);
            start <= index < start + b.queryHeads * b.g.headSize
            && start + b.queryHeads * b.g.headSize <= b.Queries().Total()
  {
    var size := b.queryHeads * b.g.headSize;
    RowIsNat(index, b.queryHeads, b.g.headSize);
    DigitsOf(index, size);
    var r := Request(b, index);
    MulOrder(r + 1, |b.table.lengths|, size);
    MulSucc(r, size);
    assert |b.table.lengths| * size == |b.table.lengths| * b.queryHeads * b.g.headSize;
  }

  /** The request's own query. */
  ghost function QueryOf(b: Batch, q: seq<real>, r: nat): (s: seq<real>)
    requires b.Valid() && r < |b.table.lengths| && |q| == b.Queries().Total()
    ensures |s| == b.Single(r).Queries().Total()
  {
    var size := b.queryHeads * b.g.headSize;
    MulOrder(r + 1, |b.table.lengths|, size);
    MulSucc(r, size);
    assert |b.table.lengths| * size == |b.table.lengths| * b.queryHeads * b.g.headSize;
    assert 1 * b.queryHeads * b.g.headSize == size;
    q[r * size..r * size + size]
  }

  /** The parts of a batch index are the request and the parts of its own index. */
  lemma WithinParts(b: Batch, index: nat)
    requires b.Valid() && index < b.Queries().Total()
    ensures var p := b.Single(Request(b, index)); var i := Within(b, index);
            && i < p.Queries().Total() && p.g.Valid()
            && i % p.g.headSize == index % b.g.headSize && 0 <= i / p.g.headSize && 0 <= index / b.g.headSize
            && (i / p.g.headSize) % b.queryHeads == (index / b.g.headSize) % b.queryHeads
            && Row(p.Queries(), i) == 0
  {
    RequestStart(b, index);
    FlatOf(index, |b.table.lengths|, b.queryHeads, b.g.headSize);
    var head, dim := (index / b.g.headSize) % b.queryHeads, index % b.g.headSize;
    var r := Request(b, index);
    assert Flat(r, head, dim, b.queryHeads, b.g.headSize)
             == r * (b.queryHeads * b.g.headSize) + Flat(0, head, dim, b.queryHeads, b.g.headSize);
    FlatParts(Within(b, index), 0, head, dim, b.queryHeads, b.g.headSize);
    RowIsNat(index, b.queryHeads, b.g.headSize);
    RowIsNat(Within(b, index), b.queryHeads, b.g.headSize);
    FlatBelow(0, head, dim, 1, b.queryHeads, b.g.headSize);
  }

  lemma SingleValid(b: Batch, sequences: seq<View>, r: nat)
    requires Ready(b, sequences) && r < |sequences|
    ensures b.Single(r).Valid() && b.Single(r).g.CacheTotal() == b.g.CacheTotal()
    ensures Leads(b.Single(r).g, sequences[r].blocks, 0, b.Single(r).g.rows)
  {
    UnfoldReady(b, sequences);
    RowLeadsAll(b, sequences, r);
  }

  /** What request `r` computes on its own, for its own query. */
  ghost function SingleOutput(e: real -> real, b: Batch, sequences: seq<View>, q: seq<real>, k: seq<real>, v: seq<real>,
                              scale: real, index: nat): real
    requires IsExp(e) && Ready(b, sequences) && |q| == b.Queries().Total() && |k| == |v| == b.g.CacheTotal()
             && index < |q|
  {
    var r := Request(b, index);
    SingleValid(b, sequences, r);
    WithinParts(b, index);
    PagedOutput(e, b.Single(r), QueryOf(b, q, r), k, v, sequences[r].blocks, 0, scale, Within(b, index))
  }

  lemma SameQuery(b: Batch, q: seq<real>, index: nat, dim: nat)
    requires b.Valid() && |q| == b.Queries().Total() && index < |q| && dim == index % b.g.headSize
    ensures dim <= Within(b, index) <= index
    ensures index - dim + b.g.headSize <= |q|
            && Within(b, index) - dim + b.g.headSize <= |QueryOf(b, q, Request(b, index))|
    ensures SameVector(q, index - dim, QueryOf(b, q, Request(b, index)), Within(b, index) - dim, b.g.headSize)
  {
    var r := Request(b, index);
    RequestStart(b, index);
    WithinParts(b, index);
    var head := (index / b.g.headSize) % b.queryHeads;
    QuotientTimes(Within(b, index), b.g.headSize);
    var p := b.Single(r);
    FlatOf(Within(b, index), 1, b.queryHeads, b.g.headSize);
    FlatBelow(0, (Within(b, index) / b.g.headSize) % b.queryHeads, b.g.headSize - 1, 1, b.queryHeads, b.g.headSize);
  }

  // ---------------------------------------------------------------- the kernel

  /** The element may be computed: the visible rows are the request's own, and the query is there. */
  lemma ElementReady(b: Batch, sequences: seq<View>, size: nat, index: nat, kvHead: nat)
    requires Ready(b, sequences) && index < size == b.Queries().Total() && kvHead < b.g.heads
    ensures var r := Request(b, index); var d := index % b.g.headSize; var n := b.table.lengths[r];
            var start := r * b.table.maxBlocks;
            && n > 0 && 0 <= d <= index && d < b.g.headSize && index - d + b.g.headSize <= size
            && Leads(b.Single(r).g, b.table.table, start, n) && Leads(b.Single(r).g, sequences[r].blocks, 0, n)
            && PagedBases(b.Single(r).g, b.table.table, start, kvHead, n)
              == PagedBases(b.Single(r).g, sequences[r].blocks, 0, kvHead, n)
            && RowsFit(PagedBases(b.Single(r).g, b.table.table, start, kvHead, n), b.g.headSize, b.g.CacheTotal())
  {
    var r := Request(b, index);
    UnfoldReady(b, sequences);
    RowLeadsAll(b, sequences, r);
    PagedRowsFit(b.Single(r).g, b.table.table, r * b.table.maxBlocks, kvHead, b.table.lengths[r]);
    QuotientTimes(index, b.g.headSize);
    DigitsOf(index, b.g.headSize);
    FlatOf(index, |b.table.lengths|, b.queryHeads, b.g.headSize);
    FlatBelow(r, (index / b.g.headSize) % b.queryHeads, b.g.headSize - 1, |b.table.lengths|, b.queryHeads,
              b.g.headSize);
  }

  function HeadOf(b: Batch, index: nat): (h: nat)
    requires b.Valid()
    ensures h < b.g.heads
  {
    RowIsNat(index, b.queryHeads, b.g.headSize);
    KvHead(Problem(0, b.queryHeads, b.g), (index / b.g.headSize) % b.queryHeads)
  }

  lemma SingleIsAttend(e: real -> real, b: Batch, sequences: seq<View>, q: seq<real>, k: seq<real>, v: seq<real>,
                       scale: real, index: nat, bases: seq<nat>)
    requires IsExp(e) && Ready(b, sequences) && |q| == b.Queries().Total() && |k| == |v| == b.g.CacheTotal()
             && index < |q|
    requires var r := Request(b, index); var d := index % b.g.headSize; var n := b.table.lengths[r];
             && n > 0 && 0 <= d <= index && d < b.g.headSize && index - d + b.g.headSize <= |q|
             && Leads(b.Single(r).g, sequences[r].blocks, 0, n)
             && bases == PagedBases(b.Single(r).g, sequences[r].blocks, 0, HeadOf(b, index), n)
             && RowsFit(bases, b.g.headSize, |k|)
    ensures bases != [] && RowsFit(bases, b.g.headSize, |v|)
    ensures index % b.g.headSize <= Within(b, index)
            && Within(b, index) - index % b.g.headSize + b.g.headSize <= |QueryOf(b, q, Request(b, index))|
    ensures SingleOutput(e, b, sequences, q, k, v, scale, index)
         == Attend(e, QueryOf(b, q, Request(b, index)), Within(b, index) - index % b.g.headSize, k, v, bases,
                   b.g.headSize, index % b.g.headSize, scale)
  {
    SingleValid(b, sequences, Request(b, index));
    WithinParts(b, index);
    QueryVectorFits(b.Single(Request(b, index)), Within(b, index));
  }

  /** The same query vector in another place, against the same rows. */
  lemma AttendSameQuery(e: real -> real, q: seq<real>, a: nat, p: seq<real>, c: nat, k: seq<real>, v: seq<real>,
                        bases: seq<nat>, headSize: nat, dim: nat, scale: real)
    requires IsExp(e) && dim < headSize && bases != [] && a + headSize <= |q| && c + headSize <= |p|
    requires RowsFit(bases, headSize, |k|) && RowsFit(bases, headSize, |v|) && SameVector(q, a, p, c, headSize)
    ensures Attend(e, q, a, k, v, bases, headSize, dim, scale) == Attend(e, p, c, k, v, bases, headSize, dim, scale)
  {
    AttendAlike(e, q, a, k, v, bases, p, c, k, v, bases, headSize, dim, scale);
  }

  /** A row of the batch is the single-request decode of its sequence. */
  lemma BatchIsSingle(e: real -> real, b: Batch, sequences: seq<View>, q: seq<real>, k: seq<real>, v: seq<real>,
                      scale: real, index: nat, bases: seq<nat>)
    requires IsExp(e) && Ready(b, sequences) && |q| == b.Queries().Total() && |k| == |v| == b.g.CacheTotal()
             && index < |q|
    requires var r := Request(b, index); var d := index % b.g.headSize; var n := b.table.lengths[r];
             && n > 0 && 0 <= d <= index && d < b.g.headSize && index - d + b.g.headSize <= |q|
             && Leads(b.Single(r).g, sequences[r].blocks, 0, n)
             && bases == PagedBases(b.Single(r).g, sequences[r].blocks, 0, HeadOf(b, index), n)
             && RowsFit(bases, b.g.headSize, |k|)
    ensures Attend(e, q, index - index % b.g.headSize, k, v, bases, b.g.headSize, index % b.g.headSize, scale)
         == SingleOutput(e, b, sequences, q, k, v, scale, index)
  {
    SingleIsAttend(e, b, sequences, q, k, v, scale, index, bases);
    OwnQuery(e, b, q, k, v, scale, index, bases);
  }

  /** The request's own query vector, against the same rows. */
  lemma OwnQuery(e: real -> real, b: Batch, q: seq<real>, k: seq<real>, v: seq<real>, scale: real, index: nat,
                 bases: seq<nat>)
    requires IsExp(e) && b.Valid() && |q| == b.Queries().Total() && index < |q|
    requires bases != [] && RowsFit(bases, b.g.headSize, |k|) && RowsFit(bases, b.g.headSize, |v|)
    ensures var r, d := Request(b, index), index % b.g.headSize;
            && 0 <= d <= index && index - d + b.g.headSize <= |q| && d <= Within(b, index)
            && Within(b, index) - d + b.g.headSize <= |QueryOf(b, q, r)|
            && Attend(e, q, index - d, k, v, bases, b.g.headSize, d, scale)
               == Attend(e, QueryOf(b, q, r), Within(b, index) - d, k, v, bases, b.g.headSize, d, scale)
  {
    var r, d := Request(b, index), index % b.g.headSize;
    SameQuery(b, q, index, d);
    AttendSameQuery(e, q, index - d, QueryOf(b, q, r), Within(b, index) - d, k, v, bases, b.g.headSize, d, scale);
  }

  method BatchElement(e: real -> real, b: Batch, ghost sequences: seq<View>, q: seq<real>, k: seq<real>, v: seq<real>,
                      scale: real, index: nat)
    returns (r: real)
    requires IsExp(e) && Ready(b, sequences) && |q| == b.Queries().Total() && |k| == |v| == b.g.CacheTotal()
             && index < |q|
    ensures r == SingleOutput(e, b, sequences, q, k, v, scale, index)
  {
    var request := Request(b, index);
    var dimension := index % b.g.headSize;
    var kvHead := HeadOf(b, index);
    var start := request * b.table.maxBlocks;
    var length := b.table.lengths[request];
    ElementReady(b, sequences, |q|, index, kvHead);
    ghost var bases := PagedBases(b.Single(request).g, b.table.table, start, kvHead, length);
    r := AttentionElement(e, q, k, v, b.Single(request).g, b.table.table, start, index - dimension, dimension, kvHead,
                          length - 1, scale);
    assert r == Attend(e, q, index - dimension, k, v, bases, b.g.headSize, dimension, scale);
    BatchIsSingle(e, b, sequences, q, k, v, scale, index, bases);
  }

  ghost predicate Computed(e: real -> real, b: Batch, sequences: seq<View>, q: seq<real>, k: seq<real>, v: seq<real>,
                           scale: real, cursor: seq<nat>, out: seq<real>)
    requires IsExp(e) && Ready(b, sequences) && |q| == |out| == b.Queries().Total() && |k| == |v| == b.g.CacheTotal()
             && |cursor| > 0
  {
    forall i: nat {:trigger out[i]} ::
      i < |out| && Done(cursor, i) ==> out[i] == SingleOutput(e, b, sequences, q, k, v, scale, i)
  }

  lemma StepComputes(e: real -> real, b: Batch, sequences: seq<View>, q: seq<real>, k: seq<real>, v: seq<real>,
                     scale: real, cursor: seq<nat>, out: seq<real>, t: nat, element: real)
    requires IsExp(e) && Ready(b, sequences) && |q| == |out| == b.Queries().Total() && |k| == |v| == b.g.CacheTotal()
             && t < |cursor|
    requires OnTrack(cursor) && cursor[t] < |out| && Computed(e, b, sequences, q, k, v, scale, cursor, out)
    requires element == SingleOutput(e, b, sequences, q, k, v, scale, cursor[t])
    ensures Computed(e, b, sequences, q, k, v, scale, cursor[t := cursor[t] + |cursor|], out[cursor[t] := element])
  {
    StepDoes(cursor, t);
  }

  /** The batch kernel, under any scheduling: each request's part of the output is what that request alone
      would compute from its own query and block table; no padding is read on the way. */
  method BatchKernel(e: real -> real, b: Batch, ghost sequences: seq<View>, q: seq<real>, k: seq<real>, v: seq<real>,
                     scale: real, threads: nat, output: array<real>)
    requires IsExp(e) && Ready(b, sequences) && |q| == output.Length == b.Queries().Total()
             && |k| == |v| == b.g.CacheTotal() && threads > 0
    modifies output
    ensures forall i: nat :: i < output.Length ==> output[i] == SingleOutput(e, b, sequences, q, k, v, scale, i)
  {
    var total := output.Length;
    var cursor: seq<nat> := Start(threads);
    StartOnTrack(threads);
    while exists t :: 0 <= t < |cursor| && cursor[t] < total
      invariant OnTrack(cursor) && Computed(e, b, sequences, q, k, v, scale, cursor, output[..])
      decreases Undone(cursor, total)
    {
      var t: nat :| t < |cursor| && cursor[t] < total;
      var index := cursor[t];
      StepShrinks(cursor, t, total);
      StepDoes(cursor, t);
      var element := BatchElement(e, b, sequences, q, k, v, scale, index);
      StepComputes(e, b, sequences, q, k, v, scale, cursor, output[..], t, element);
      output[index] := element;
      cursor := cursor[t := index + |cursor|];
    }
    FinishedIsAll(cursor, total);
    assert forall i: nat :: i < total ==> output[..][i] == output[i];
  }
}
