/** Attention over the paged cache with a one-pass softmax, and the two-pass reference it must equal
    (src/v2/paged_attention.cu, src/v2/reference_attention.cpp). Numbers are reals: rounding is not modelled. */
module PagedAttention {
  import opened Common
  import opened Arithmetic
  import opened KvLayouts
  import opened PagedKernels
  import opened Softmax

  // ---------------------------------------------------------------- one output element, as defined

  /** Inner product of two vectors of length `n` inside larger arrays. */
  function Dot(q: seq<real>, qBase: nat, k: seq<real>, kBase: nat, n: nat): real
    requires qBase + n <= |q| && kBase + n <= |k|
  {
    if n == 0 then 0.0 else Dot(q, qBase, k, kBase, n - 1) + q[qBase + n - 1] * k[kBase + n - 1]
  }

  /** The rows that the first bases point to lie within the array. */
  ghost predicate RowsFit(bases: seq<nat>, headSize: nat, size: nat) {
    forall t :: 0 <= t < |bases| ==> bases[t] + headSize <= size
  }

  function Scores(q: seq<real>, qBase: nat, k: seq<real>, bases: seq<nat>, headSize: nat, scale: real): (s: seq<real>)
    requires qBase + headSize <= |q| && RowsFit(bases, headSize, |k|)
    ensures |s| == |bases| && forall t :: 0 <= t < |s| ==> s[t] == Dot(q, qBase, k, bases[t], headSize) * scale
  {
    seq(|bases|, t requires 0 <= t < |bases| => Dot(q, qBase, k, bases[t], headSize) * scale)
  }

  function Column(v: seq<real>, bases: seq<nat>, headSize: nat, dim: nat): (c: seq<real>)
    requires RowsFit(bases, headSize, |v|) && dim < headSize
    ensures |c| == |bases| && forall t :: 0 <= t < |c| ==> c[t] == v[bases[t] + dim]
  {
    seq(|bases|, t requires 0 <= t < |bases| => v[bases[t] + dim])
  }

  /** Softmax of the scaled scores of the visible rows, applied to one column of the values. */
  ghost function Attend(e: real -> real, q: seq<real>, qBase: nat, k: seq<real>, v: seq<real>, bases: seq<nat>,
                        headSize: nat, dim: nat, scale: real): real
    requires IsExp(e) && bases != [] && dim < headSize
    requires qBase + headSize <= |q| && RowsFit(bases, headSize, |k|) && RowsFit(bases, headSize, |v|)
  {
    Mean(e, Scores(q, qBase, k, bases, headSize, scale), Column(v, bases, headSize, dim))
  }

  function Component(a: seq<real>, base: nat, d: nat): real
    requires base + d < |a|
  {
    a[base + d]
  }

  ghost predicate SameVector(a: seq<real>, i: nat, b: seq<real>, j: nat, n: nat)
    requires i + n <= |a| && j + n <= |b|
  {
    forall d: nat :: d < n ==> Component(a, i, d) == Component(b, j, d)
  }

  lemma {:induction false} DotAlike(q: seq<real>, qb1: nat, k1: seq<real>, b1: nat, p: seq<real>, qb2: nat,
                                    k2: seq<real>, b2: nat, n: nat)
    requires qb1 + n <= |q| && b1 + n <= |k1| && qb2 + n <= |p| && b2 + n <= |k2|
    requires SameVector(q, qb1, p, qb2, n) && SameVector(k1, b1, k2, b2, n)
    ensures Dot(q, qb1, k1, b1, n) == Dot(p, qb2, k2, b2, n)
  {
    if n > 0 {
      DotAlike(q, qb1, k1, b1, p, qb2, k2, b2, n - 1);
      assert Component(q, qb1, n - 1) == Component(p, qb2, n - 1)
             && Component(k1, b1, n - 1) == Component(k2, b2, n - 1);
    }
  }

  lemma AttendAlike(e: real -> real, q: seq<real>, qb1: nat, k1: seq<real>, v1: seq<real>, bases1: seq<nat>,
                    p: seq<real>, qb2: nat, k2: seq<real>, v2: seq<real>, bases2: seq<nat>, headSize: nat, dim: nat,
                    scale: real)
    requires IsExp(e) && dim < headSize && bases1 != [] && |bases1| == |bases2|
    requires qb1 + headSize <= |q| && RowsFit(bases1, headSize, |k1|) && RowsFit(bases1, headSize, |v1|)
    requires qb2 + headSize <= |p| && RowsFit(bases2, headSize, |k2|) && RowsFit(bases2, headSize, |v2|)
    requires SameVector(q, qb1, p, qb2, headSize)
    requires forall t :: 0 <= t < |bases1| ==>
               SameVector(k1, bases1[t], k2, bases2[t], headSize) && SameVector(v1, bases1[t], v2, bases2[t], headSize)
    ensures Attend(e, q, qb1, k1, v1, bases1, headSize, dim, scale)
              == Attend(e, p, qb2, k2, v2, bases2, headSize, dim, scale)
  {
    forall t | 0 <= t < |bases1| ensures Dot(q, qb1, k1, bases1[t], headSize) == Dot(p, qb2, k2, bases2[t], headSize) {
      assert SameVector(k1, bases1[t], k2, bases2[t], headSize);
      DotAlike(q, qb1, k1, bases1[t], p, qb2, k2, bases2[t], headSize);
    }
    var s1, s2 := Scores(q, qb1, k1, bases1, headSize, scale), Scores(p, qb2, k2, bases2, headSize, scale);
    assert forall t :: 0 <= t < |s1| ==> s1[t] == s2[t];
    assert s1 == s2;
    forall t | 0 <= t < |bases1| ensures v1[bases1[t] + dim] == v2[bases2[t] + dim] {
      assert SameVector(v1, bases1[t], v2, bases2[t], headSize);
      assert Component(v1, bases1[t], dim) == Component(v2, bases2[t], dim);
    }
    var c1, c2 := Column(v1, bases1, headSize, dim), Column(v2, bases2, headSize, dim);
    assert forall t :: 0 <= t < |c1| ==> c1[t] == c2[t];
    assert c1 == c2;
  }

  // ---------------------------------------------------------------- rows in the paged cache and in packed tensors

  /** The part of a padded table, from `start`, that leads to the first `n` tokens; padding is never among it. */
  ghost predicate Leads(g: Shape, table: seq<int>, start: nat, n: nat) {
    g.Valid() && forall t: nat :: t < n ==> LeadsTo(g, table, start, t)
  }

  predicate LeadsTo(g: Shape, table: seq<int>, start: nat, t: nat)
    requires g.Valid()
  {
    DigitsOf(t, g.blockSize);
    start + t / g.blockSize < |table| && 0 <= table[start + t / g.blockSize] < g.blocks
  }

  function PagedBase(g: Shape, table: seq<int>, start: nat, kvHead: nat, t: nat): nat
    requires g.Valid() && LeadsTo(g, table, start, t)
  {
    DigitsOf(t, g.blockSize);
    CacheIndex(table[start + t / g.blockSize], kvHead, t % g.blockSize, 0, g.heads, g.blockSize, g.headSize)
  }

  ghost function PagedBases(g: Shape, table: seq<int>, start: nat, kvHead: nat, n: nat): (b: seq<nat>)
    requires Leads(g, table, start, n)
    ensures |b| == n && forall t: nat :: t < n ==> b[t] == PagedBase(g, table, start, kvHead, t)
  {
    seq(n, t requires 0 <= t < n => PagedBase(g, table, start, kvHead, t))
  }

  lemma PagedRowsFit(g: Shape, table: seq<int>, start: nat, kvHead: nat, n: nat)
    requires Leads(g, table, start, n) && kvHead < g.heads
    ensures RowsFit(PagedBases(g, table, start, kvHead, n), g.headSize, g.CacheTotal())
  {
    forall t: nat | t < n ensures PagedBase(g, table, start, kvHead, t) + g.headSize <= g.CacheTotal() {
      assert LeadsTo(g, table, start, t);
      DigitsOf(t, g.blockSize);
      CacheBelow(table[start + t / g.blockSize], kvHead, t % g.blockSize, g.headSize - 1, g.blocks, g.heads,
                 g.blockSize, g.headSize);
    }
  }

  function FlatBase(g: Shape, kvHead: nat, t: nat): nat {
    Flat(t, kvHead, 0, g.heads, g.headSize)
  }

  function FlatBases(g: Shape, kvHead: nat, n: nat): (b: seq<nat>)
    ensures |b| == n && forall t: nat :: t < n ==> b[t] == FlatBase(g, kvHead, t)
  {
    seq(n, t requires 0 <= t < n => FlatBase(g, kvHead, t))
  }

  lemma FlatRowsFit(g: Shape, kvHead: nat, n: nat)
    requires g.Valid() && kvHead < g.heads && n <= g.rows
    ensures RowsFit(FlatBases(g, kvHead, n), g.headSize, g.Total())
  {
    forall t: nat | t < n ensures FlatBase(g, kvHead, t) + g.headSize <= g.Total() {
      FlatBelow(t, kvHead, g.headSize - 1, g.rows, g.heads, g.headSize);
    }
  }

  // ---------------------------------------------------------------- one element, in one pass

  method DotProduct(q: seq<real>, qBase: nat, k: seq<real>, kBase: nat, headSize: nat) returns (dot: real)
    requires qBase + headSize <= |q| && kBase + headSize <= |k|
    ensures dot == Dot(q, qBase, k, kBase, headSize)
  {
    dot := 0.0;
    for d := 0 to headSize
      invariant dot == Dot(q, qBase, k, kBase, d)
    {
      dot := dot + q[qBase + d] * k[kBase + d];
    }
  }

  /** After some rows: the running maximum (none before the first row), and both sums taken at it. */
  ghost predicate Running(e: real -> real, scores: seq<real>, column: seq<real>, maximum: Option<real>,
                          denominator: real, numerator: real)
    requires |column| == |scores|
  {
    if maximum.None? then scores == [] && denominator == 0.0 && numerator == 0.0
    else denominator == Denominator(e, scores, maximum.value)
         && numerator == Numerator(e, scores, column, maximum.value)
  }

  /** One more term: rescaling both sums to the reference point `next` before it is added. */
  lemma OnlineStep(e: real -> real, scores: seq<real>, column: seq<real>, maximum: Option<real>, denominator: real,
                   numerator: real, score: real, value: real, next: real, rescale: real, weight: real, d: real, n: real)
    requires IsExp(e) && |column| == |scores| && Running(e, scores, column, maximum, denominator, numerator)
    requires rescale == (if maximum.Some? then e(maximum.value - next) else 0.0) && weight == e(score - next)
    requires d == denominator * rescale + weight && n == numerator * rescale + weight * value
    ensures Running(e, scores + [score], column + [value], Some(next), d, n)
  {
    if maximum.Some? { Rescale(e, scores, column, maximum.value, next); }
    assert (scores + [score])[..|scores|] == scores && (column + [value])[..|column|] == column;
  }

  lemma OnlinePrefix(e: real -> real, scores: seq<real>, column: seq<real>, token: nat, maximum: Option<real>,
                     denominator: real, numerator: real)
    requires token < |scores| == |column|
    requires Running(e, scores[..token] + [scores[token]], column[..token] + [column[token]], maximum, denominator,
                     numerator)
    ensures Running(e, scores[..token + 1], column[..token + 1], maximum, denominator, numerator)
  {
    TakeSnoc(scores, token);
    TakeSnoc(column, token);
  }

  /** One row more: when its score is the largest so far, both sums are rescaled first. `e(-infinity)` is zero. */
  method Absorb(e: real -> real, ghost scores: seq<real>, ghost column: seq<real>, ghost token: nat,
                maximum: Option<real>, denominator: real, numerator: real, score: real, value: real)
    returns (m: Option<real>, d: real, n: real)
    requires IsExp(e) && token < |column| == |scores| && score == scores[token] && value == column[token]
    requires Running(e, scores[..token], column[..token], maximum, denominator, numerator)
    ensures m.Some? && Running(e, scores[..token + 1], column[..token + 1], m, d, n)
  {
    var next := if maximum.None? || score > maximum.value then score else maximum.value;
    var rescale := if maximum.Some? then e(maximum.value - next) else 0.0;
    var weight := e(score - next);
    d := denominator * rescale + weight;
    n := numerator * rescale + weight * value;
    m := Some(next);
    OnlineStep(e, scores[..token], column[..token], maximum, denominator, numerator, score, value, next, rescale,
               weight, d, n);
    OnlinePrefix(e, scores, column, token, m, d, n);
  }

  method RowAddress(g: Shape, table: seq<int>, start: nat, kvHead: nat, token: nat) returns (base: nat)
    requires g.Valid() && LeadsTo(g, table, start, token)
    ensures base == PagedBase(g, table, start, kvHead, token)
  {
    DigitsOf(token, g.blockSize);
    var block := table[start + token / g.blockSize];
    base := CacheIndex(block, kvHead, token % g.blockSize, 0, g.heads, g.blockSize, g.headSize);
  }

  ghost predicate RowsOk(q: seq<real>, k: seq<real>, v: seq<real>, bases: seq<nat>, qBase: nat, dim: nat,
                         headSize: nat) {
    qBase + headSize <= |q| && RowsFit(bases, headSize, |k|) && RowsFit(bases, headSize, |v|) && dim < headSize
  }

  /** The score and the value of one visible row. */
  method RowTerms(q: seq<real>, k: seq<real>, v: seq<real>, g: Shape, table: seq<int>, start: nat, qBase: nat, dim: nat,
                  kvHead: nat, token: nat, scale: real, ghost bases: seq<nat>) returns (score: real, value: real)
    requires g.Valid() && LeadsTo(g, table, start, token) && RowsOk(q, k, v, bases, qBase, dim, g.headSize)
    requires token < |bases| && bases[token] == PagedBase(g, table, start, kvHead, token)
    ensures score == Scores(q, qBase, k, bases, g.headSize, scale)[token]
            && value == Column(v, bases, g.headSize, dim)[token]
  {
    var base := RowAddress(g, table, start, kvHead, token);
    var dot := DotProduct(q, qBase, k, base, g.headSize);
    score := dot * scale;
    value := v[base + dim];
  }

  /** The kernel's element: one pass over the visible rows through the block table equals the two-pass
      definition. */
  method AttentionElement(e: real -> real, q: seq<real>, k: seq<real>, v: seq<real>, g: Shape, table: seq<int>,
                          start: nat, qBase: nat, dim: nat, kvHead: nat, lastVisible: nat, scale: real)
    returns (r: real)
    requires IsExp(e) && Leads(g, table, start, lastVisible + 1) && kvHead < g.heads && dim < g.headSize
    requires qBase + g.headSize <= |q| && |k| == |v| == g.CacheTotal()
    ensures RowsFit(PagedBases(g, table, start, kvHead, lastVisible + 1), g.headSize, |k|)
    ensures r == Attend(e, q, qBase, k, v, PagedBases(g, table, start, kvHead, lastVisible + 1), g.headSize, dim, scale)
  {
    ghost var bases := PagedBases(g, table, start, kvHead, lastVisible + 1);
    PagedRowsFit(g, table, start, kvHead, lastVisible + 1);
    ghost var scores, column := Scores(q, qBase, k, bases, g.headSize, scale), Column(v, bases, g.headSize, dim);
    var maximum: Option<real>, denominator, numerator := None, 0.0, 0.0;
    for token := 0 to lastVisible + 1
      invariant Running(e, scores[..token], column[..token], maximum, denominator, numerator)
      invariant token > 0 ==> maximum.Some?
    {
      var score, value := RowTerms(q, k, v, g, table, start, qBase, dim, kvHead, token, scale, bases);
      maximum, denominator, numerator :=
        Absorb(e, scores, column, token, maximum, denominator, numerator, score, value);
    }
    TakeAll(scores);
    TakeAll(column);
    MeanIsQuotient(e, scores, column, maximum.value);
    r := numerator / denominator;
  }

  lemma TakeAll<T>(s: seq<T>)
    ensures s[..|s|] == s
  {
  }

  // ---------------------------------------------------------------- whole tensors

  /** Queries are the last `queryTokens` of `g.rows` tokens; groups of query heads share a key/value head. */
  datatype Problem = Problem(queryTokens: nat, queryHeads: nat, g: Shape)
  {
    predicate Valid() {
      queryHeads > 0 && g.Valid() && queryHeads % g.heads == 0 && queryTokens <= g.rows
    }

    function Queries(): Shape { Shape(queryTokens, g.blocks, queryHeads, g.blockSize, g.headSize) }
  }

  lemma GroupPositive(queryHeads: nat, kvHeads: nat)
    requires queryHeads > 0 && kvHeads > 0 && queryHeads % kvHeads == 0
    ensures queryHeads / kvHeads > 0 && queryHeads == kvHeads * (queryHeads / kvHeads)
  {
    DigitsOf(queryHeads, kvHeads);
  }

  function KvHead(p: Problem, queryHead: nat): (h: nat)
    requires p.Valid() && queryHead < p.queryHeads
    ensures h < p.g.heads
  {
    GroupPositive(p.queryHeads, p.g.heads);
    DigitsOf(queryHead, p.queryHeads / p.g.heads);
    QuotientBelow(queryHead, p.queryHeads / p.g.heads, p.g.heads);
    queryHead / (p.queryHeads / p.g.heads)
  }

  /** A query sees the keys up to its own position. */
  function Visible(p: Problem, queryToken: nat): (n: nat)
    requires p.Valid() && queryToken < p.queryTokens
    ensures 0 < n <= p.g.rows
  {
    p.g.rows - p.queryTokens + queryToken + 1
  }

  /** The parts of a query index. */
  function QueryToken(p: Problem, index: nat): (t: nat)
    requires p.Valid() && index < p.Queries().Total()
    ensures t < p.queryTokens
  {
    RowBelow(p.Queries(), index);
    Row(p.Queries(), index)
  }

  function QueryHead(p: Problem, index: nat): (h: nat)
    requires p.Valid()
    ensures h < p.queryHeads
  {
    RowIsNat(index, p.queryHeads, p.g.headSize);
    (index / p.g.headSize) % p.queryHeads
  }

  function Dimension(p: Problem, index: nat): (d: nat)
    requires p.Valid()
    ensures d < p.g.headSize && d <= index
  {
    DigitsOf(index, p.g.headSize);
    QuotientTimes(index, p.g.headSize);
    index % p.g.headSize
  }

  lemma QuotientTimes(n: nat, d: nat)
    requires d > 0
    ensures n % d <= n && (n - n % d) == (n / d) * d
  {
    DigitsOf(n, d);
    MulOrder(0, n / d, d);
  }

  lemma QueryVectorFits(p: Problem, index: nat)
    requires p.Valid() && index < p.Queries().Total()
    ensures index - Dimension(p, index) + p.g.headSize <= p.Queries().Total()
    ensures index == Flat(QueryToken(p, index), QueryHead(p, index), Dimension(p, index), p.queryHeads, p.g.headSize)
    ensures index - Dimension(p, index)
              == Flat(QueryToken(p, index), QueryHead(p, index), 0, p.queryHeads, p.g.headSize)
  {
    FlatOf(index, p.queryTokens, p.queryHeads, p.g.headSize);
    FlatBelow(QueryToken(p, index), QueryHead(p, index), p.g.headSize - 1, p.queryTokens, p.queryHeads, p.g.headSize);
  }

  /** What the paged kernel's output element `index` must be. */
  ghost function PagedOutput(e: real -> real, p: Problem, q: seq<real>, k: seq<real>, v: seq<real>, table: seq<int>,
                             start: nat, scale: real, index: nat): real
    requires IsExp(e) && p.Valid() && |q| == p.Queries().Total() && |k| == |v| == p.g.CacheTotal()
             && Leads(p.g, table, start, p.g.rows)
    requires index < p.Queries().Total()
  {
    var n, kvHead := Visible(p, QueryToken(p, index)), KvHead(p, QueryHead(p, index));
    LeadsFewer(p.g, table, start, n, p.g.rows);
    PagedRowsFit(p.g, table, start, kvHead, n);
    QueryVectorFits(p, index);
    Attend(e, q, index - Dimension(p, index), k, v, PagedBases(p.g, table, start, kvHead, n), p.g.headSize,
           Dimension(p, index), scale)
  }

  lemma LeadsFewer(g: Shape, table: seq<int>, start: nat, n: nat, m: nat)
    requires Leads(g, table, start, m) && n <= m
    ensures Leads(g, table, start, n)
  {
  }

  /** What the reference's output element `index` must be: the same over packed keys and values. */
  ghost function ReferenceOutput(e: real -> real, p: Problem, q: seq<real>, k: seq<real>, v: seq<real>, scale: real,
                                 index: nat): real
    requires IsExp(e) && p.Valid() && |q| == p.Queries().Total() && |k| == |v| == p.g.Total()
             && index < p.Queries().Total()
  {
    var n, kvHead := Visible(p, QueryToken(p, index)), KvHead(p, QueryHead(p, index));
    FlatRowsFit(p.g, kvHead, n);
    QueryVectorFits(p, index);
    Attend(e, q, index - Dimension(p, index), k, v, FlatBases(p.g, kvHead, n), p.g.headSize, Dimension(p, index), scale)
  }

  // ---------------------------------------------------------------- paged equals reference

  /** A cache read through the block table and the packed tensor gathered from it have the same rows. */
  lemma SameRow(g: Shape, blocks: seq<nat>, cache: seq<real>, packed: seq<real>, kvHead: nat, t: nat)
    requires TableOk(g, blocks) && |cache| == g.CacheTotal() && |packed| == g.Total()
             && Collected(g, blocks, cache, packed)
    requires kvHead < g.heads && t < g.rows
    ensures LeadsTo(g, blocks, 0, t)
    ensures PagedBase(g, blocks, 0, kvHead, t) + g.headSize <= |cache|
            && FlatBase(g, kvHead, t) + g.headSize <= |packed|
    ensures SameVector(cache, PagedBase(g, blocks, 0, kvHead, t), packed, FlatBase(g, kvHead, t), g.headSize)
  {
    TableLeads(g, blocks, t);
    assert Leads(g, blocks, 0, g.rows) by { forall u: nat | u < g.rows
      ensures LeadsTo(g, blocks, 0, u) { TableLeads(g, blocks, u); } }
    PagedRowsFit(g, blocks, 0, kvHead, g.rows);
    FlatRowsFit(g, kvHead, g.rows);
    assert PagedBases(g, blocks, 0, kvHead, g.rows)[t] == PagedBase(g, blocks, 0, kvHead, t);
    assert FlatBases(g, kvHead, g.rows)[t] == FlatBase(g, kvHead, t);
    forall d: nat | d < g.headSize
      ensures Component(cache, PagedBase(g, blocks, 0, kvHead, t), d) == Component(packed, FlatBase(g, kvHead, t), d)
    {
      var i := Flat(t, kvHead, d, g.heads, g.headSize);
      FlatBelow(t, kvHead, d, g.rows, g.heads, g.headSize);
      FlatParts(i, t, kvHead, d, g.heads, g.headSize);
      ReadPlaceBelow(g, blocks, i);
      assert packed[i] == cache[ReadPlace(g, blocks, i)];
    }
  }

  lemma TableLeads(g: Shape, blocks: seq<nat>, t: nat)
    requires TableOk(g, blocks) && t < g.rows
    ensures LeadsTo(g, blocks, 0, t)
  {
    DigitsOf(t, g.blockSize);
    DivMonotone(t, g.rows - 1, g.blockSize);
  }

  lemma TableLeadsAll(g: Shape, blocks: seq<nat>)
    requires TableOk(g, blocks)
    ensures Leads(g, blocks, 0, g.rows)
  {
    forall t: nat | t < g.rows ensures LeadsTo(g, blocks, 0, t) { TableLeads(g, blocks, t); }
  }

  /** Paged attention equals reference attention over what the block table gathers: for every shape, causal
      suffix, grouping of heads and block table, and every output element. */
  lemma PagedEqualsReference(e: real -> real, p: Problem, q: seq<real>, keyCache: seq<real>, valueCache: seq<real>,
                             blocks: seq<nat>, keys: seq<real>, values: seq<real>, scale: real, index: nat)
    requires IsExp(e) && p.Valid() && TableOk(p.g, blocks) && |q| == p.Queries().Total() && index < p.Queries().Total()
    requires |keyCache| == |valueCache| == p.g.CacheTotal() && |keys| == |values| == p.g.Total()
    requires Collected(p.g, blocks, keyCache, keys) && Collected(p.g, blocks, valueCache, values)
    ensures Leads(p.g, blocks, 0, p.g.rows)
    ensures PagedOutput(e, p, q, keyCache, valueCache, blocks, 0, scale, index)
              == ReferenceOutput(e, p, q, keys, values, scale, index)
  {
    TableLeadsAll(p.g, blocks);
    var n, kvHead := Visible(p, QueryToken(p, index)), KvHead(p, QueryHead(p, index));
    LeadsFewer(p.g, blocks, 0, n, p.g.rows);
    PagedRowsFit(p.g, blocks, 0, kvHead, n);
    FlatRowsFit(p.g, kvHead, n);
    QueryVectorFits(p, index);
    var paged, flat := PagedBases(p.g, blocks, 0, kvHead, n), FlatBases(p.g, kvHead, n);
    forall t | 0 <= t < n
      ensures SameVector(keyCache, paged[t], keys, flat[t], p.g.headSize)
              && SameVector(valueCache, paged[t], values, flat[t], p.g.headSize)
    {
      SameRow(p.g, blocks, keyCache, keys, kvHead, t);
      SameRow(p.g, blocks, valueCache, values, kvHead, t);
    }
    AttendAlike(e, q, index - Dimension(p, index), keyCache, valueCache, paged, q, index - Dimension(p, index), keys,
                values, flat, p.g.headSize, Dimension(p, index), scale);
  }

  // ---------------------------------------------------------------- the single-request kernel

  ghost predicate Computed(e: real -> real, p: Problem, q: seq<real>, k: seq<real>, v: seq<real>, table: seq<int>,
                           scale: real, cursor: seq<nat>, out: seq<real>)
    requires IsExp(e) && p.Valid() && |q| == |out| == p.Queries().Total() && |k| == |v| == p.g.CacheTotal()
             && Leads(p.g, table, 0, p.g.rows)
    requires |cursor| > 0
  {
    forall i: nat {:trigger out[i]} ::
      i < |out| && Done(cursor, i) ==> out[i] == PagedOutput(e, p, q, k, v, table, 0, scale, i)
  }

  method OutputElement(e: real -> real, p: Problem, q: seq<real>, k: seq<real>, v: seq<real>, table: seq<int>,
                       scale: real, index: nat)
    returns (r: real)
    requires IsExp(e) && p.Valid() && |q| == p.Queries().Total() && |k| == |v| == p.g.CacheTotal()
             && Leads(p.g, table, 0, p.g.rows)
    requires index < p.Queries().Total()
    ensures r == PagedOutput(e, p, q, k, v, table, 0, scale, index)
  {
    var dimension, queryHead, queryToken := Dimension(p, index), QueryHead(p, index), QueryToken(p, index);
    var kvHead := KvHead(p, queryHead);
    var lastVisible := p.g.rows - p.queryTokens + queryToken;
    LeadsFewer(p.g, table, 0, lastVisible + 1, p.g.rows);
    QueryVectorFits(p, index);
    r := AttentionElement(e, q, k, v, p.g, table, 0, index - dimension, dimension, kvHead, lastVisible, scale);
  }

  /** Threads in any order compute every output element once. */
  method PagedKernel(e: real -> real, p: Problem, q: seq<real>, k: seq<real>, v: seq<real>, table: seq<int>,
                     scale: real, threads: nat, output: array<real>)
    requires IsExp(e) && p.Valid() && |q| == output.Length == p.Queries().Total() && |k| == |v| == p.g.CacheTotal()
    requires Leads(p.g, table, 0, p.g.rows) && threads > 0
    modifies output
    ensures forall i: nat :: i < output.Length ==> output[i] == PagedOutput(e, p, q, k, v, table, 0, scale, i)
  {
    var total := output.Length;
    var cursor: seq<nat> := Start(threads);
    StartOnTrack(threads);
    while exists t :: 0 <= t < |cursor| && cursor[t] < total
      invariant OnTrack(cursor) && Computed(e, p, q, k, v, table, scale, cursor, output[..])
      decreases Undone(cursor, total)
    {
      var t: nat :| t < |cursor| && cursor[t] < total;
      var index := cursor[t];
      StepShrinks(cursor, t, total);
      StepDoes(cursor, t);
      output[index] := OutputElement(e, p, q, k, v, table, scale, index);
      cursor := cursor[t := index + |cursor|];
    }
    FinishedIsAll(cursor, total);
    assert forall i: nat :: i < total ==> output[..][i] == output[i];
  }
}
