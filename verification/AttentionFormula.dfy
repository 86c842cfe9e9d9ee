/** Attention as a formula in the tensors' own elements, every index written out: what each output element of the
    reference and of the paged kernel is, which rows it sees, and which it does not. */
module AttentionFormula {
  import opened Common
  import opened Arithmetic
  import opened KvLayouts
  import opened PagedKernels
  import opened Softmax
  import opened PagedAttention

  function Sum(n: nat, f: nat -> real): real {
    if n == 0 then 0.0 else Sum(n - 1, f) + f(n - 1)
  }

  function At(a: seq<real>, i: nat): real {
    if i < |a| then a[i] else 0.0
  }

  /** The inner product of the `n` elements of `q` from `qBase` and those of `k` from `kBase`. */
  function Score(q: seq<real>, qBase: nat, k: seq<real>, kBase: nat, n: nat): real {
    Sum(n, Products(q, qBase, k, kBase))
  }

  function Products(q: seq<real>, qBase: nat, k: seq<real>, kBase: nat): nat -> real {
    (c: nat) => Times(At(q, qBase + c), At(k, kBase + c))
  }

  /** Row by row, the exponentials of the scaled scores. */
  function Weights(e: real -> real, q: seq<real>, qBase: nat, k: seq<real>, scale: real, headSize: nat,
                   base: nat -> nat): nat -> real
  {
    (j: nat) => e(Times(Score(q, qBase, k, base(j), headSize), scale))
  }

  function Values(v: seq<real>, d: nat, base: nat -> nat): nat -> real {
    (j: nat) => At(v, base(j) + d)
  }

  function Weighted(weight: nat -> real, value: nat -> real): nat -> real {
    (j: nat) => Times(weight(j), value(j))
  }

  /** `out` is the mean of component `d` of the `n` value rows at `base(0)`, `base(1)`, ..., weighted by the
      exponentials of their keys' scaled scores. Folded. */
  ghost predicate IsWeightedMean(e: real -> real, q: seq<real>, qBase: nat, k: seq<real>, v: seq<real>, scale: real,
                                 headSize: nat, d: nat, n: nat, base: nat -> nat, out: real)
  {
    forall o {:trigger Unseal(o)} :: o == out ==>
      WeightedMean(o, n, Weights(e, q, qBase, k, scale, headSize, base), Values(v, d, base))
  }

  ghost predicate WeightedMean(out: real, n: nat, weight: nat -> real, value: nat -> real) {
    Sum(n, weight) > 0.0 && Times(out, Sum(n, weight)) == Sum(n, Weighted(weight, value))
  }

  lemma UnfoldMean(e: real -> real, q: seq<real>, qBase: nat, k: seq<real>, v: seq<real>, scale: real, headSize: nat,
                   d: nat, n: nat, base: nat -> nat, out: real)
    requires IsWeightedMean(e, q, qBase, k, v, scale, headSize, d, n, base, out)
    ensures WeightedMean(out, n, Weights(e, q, qBase, k, scale, headSize, base), Values(v, d, base))
  {
    assert Unseal(out);
  }

  /** Row `j` of head `g` in packed tensors. */
  function PackedAt(kvHeads: nat, headSize: nat, g: nat): nat -> nat {
    (j: nat) => (j * kvHeads + g) * headSize
  }

  // ---------------------------------------------------------------- sums

  lemma {:induction false} SumAlike(n: nat, f: nat -> real, g: nat -> real)
    requires forall j: nat :: j < n ==> f(j) == g(j)
    ensures Sum(n, f) == Sum(n, g)
  {
    if n > 0 { SumAlike(n - 1, f, g); }
  }

  lemma {:induction false} DotIsSum(q: seq<real>, qBase: nat, k: seq<real>, kBase: nat, n: nat, f: nat -> real)
    requires qBase + n <= |q| && kBase + n <= |k|
    requires forall c: nat :: c < n ==> f(c) == Times(q[qBase + c], k[kBase + c])
    ensures Dot(q, qBase, k, kBase, n) == Sum(n, f)
  {
    if n > 0 { DotIsSum(q, qBase, k, kBase, n - 1, f); }
  }

  lemma {:induction false} DenominatorIsSum(e: real -> real, scores: seq<real>, f: nat -> real)
    requires forall j: nat :: j < |scores| ==> f(j) == e(scores[j])
    ensures Denominator(e, scores, 0.0) == Sum(|scores|, f)
  {
    if scores != [] {
      DenominatorIsSum(e, scores[..|scores| - 1], f);
      assert scores[|scores| - 1] - 0.0 == scores[|scores| - 1];
    }
  }

  lemma {:induction false} NumeratorIsSum(e: real -> real, scores: seq<real>, values: seq<real>, f: nat -> real)
    requires |values| == |scores|
    requires forall j: nat :: j < |scores| ==> f(j) == Times(e(scores[j]), values[j])
    ensures Numerator(e, scores, values, 0.0) == Sum(|scores|, f)
  {
    if scores != [] {
      NumeratorIsSum(e, scores[..|scores| - 1], values[..|scores| - 1], f);
      assert scores[|scores| - 1] - 0.0 == scores[|scores| - 1];
    }
  }

  lemma QuotientTimesDenominator(n: real, d: real)
    requires d != 0.0
    ensures Times(n / d, d) == n
  {
  }

  // ---------------------------------------------------------------- an output element

  lemma AttendIsMean(e: real -> real, q: seq<real>, qBase: nat, k: seq<real>, v: seq<real>, bases: seq<nat>,
                     headSize: nat, d: nat, scale: real, base: nat -> nat, n: nat, out: real)
    requires IsExp(e) && bases != [] && d < headSize && forall j: nat :: j < |bases| ==> base(j) == bases[j]
    requires RowsFit(bases, headSize, |k|) && RowsFit(bases, headSize, |v|) && qBase + headSize <= |q|
    requires n == |bases| && out == Attend(e, q, qBase, k, v, bases, headSize, d, scale)
    ensures IsWeightedMean(e, q, qBase, k, v, scale, headSize, d, n, base, out)
  {
    var scores, column := Scores(q, qBase, k, bases, headSize, scale), Column(v, bases, headSize, d);
    var weight, value := Weights(e, q, qBase, k, scale, headSize, base), Values(v, d, base);
    forall j: nat | j < |bases| ensures weight(j) == e(scores[j]) && value(j) == column[j] {
      RowIs(e, q, qBase, k, v, bases, headSize, d, scale, base, j);
    }
    MeanIsSums(e, scores, column, weight, value);
    assert WeightedMean(out, n, weight, value);
  }

  lemma MeanIsSums(e: real -> real, scores: seq<real>, column: seq<real>, weight: nat -> real, value: nat -> real)
    requires IsExp(e) && |column| == |scores| && scores != []
    requires forall j: nat :: j < |scores| ==> weight(j) == e(scores[j]) && value(j) == column[j]
    ensures Sum(|scores|, weight) > 0.0
    ensures Times(Mean(e, scores, column), Sum(|scores|, weight)) == Sum(|scores|, Weighted(weight, value))
  {
    DenominatorIsSum(e, scores, weight);
    NumeratorIsSum(e, scores, column, Weighted(weight, value));
    MeanIsQuotient(e, scores, column, 0.0);
    QuotientTimesDenominator(Numerator(e, scores, column, 0.0), Denominator(e, scores, 0.0));
  }

  lemma RowIs(e: real -> real, q: seq<real>, qBase: nat, k: seq<real>, v: seq<real>, bases: seq<nat>, headSize: nat,
              d: nat, scale: real, base: nat -> nat, j: nat)
    requires d < headSize && j < |bases| && base(j) == bases[j] && qBase + headSize <= |q|
    requires RowsFit(bases, headSize, |k|) && RowsFit(bases, headSize, |v|)
    ensures Weights(e, q, qBase, k, scale, headSize, base)(j) == e(Scores(q, qBase, k, bases, headSize, scale)[j])
    ensures Values(v, d, base)(j) == Column(v, bases, headSize, d)[j]
  {
    ProductsAre(q, qBase, k, bases[j], headSize);
    DotIsSum(q, qBase, k, bases[j], headSize, Products(q, qBase, k, bases[j]));
    ScaledIs(Dot(q, qBase, k, bases[j], headSize), scale);
    assert Scores(q, qBase, k, bases, headSize, scale)[j] == Dot(q, qBase, k, bases[j], headSize) * scale;
    assert Column(v, bases, headSize, d)[j] == v[bases[j] + d];
  }

  lemma ScaledIs(x: real, scale: real)
    ensures Times(x, scale) == x * scale
  {
  }

  lemma ProductsAre(q: seq<real>, qBase: nat, k: seq<real>, kBase: nat, n: nat)
    requires qBase + n <= |q| && kBase + n <= |k|
    ensures forall c: nat :: c < n ==> Products(q, qBase, k, kBase)(c) == Times(q[qBase + c], k[kBase + c])
  {
    forall c: nat | c < n ensures Products(q, qBase, k, kBase)(c) == Times(q[qBase + c], k[kBase + c]) {
      assert At(q, qBase + c) == q[qBase + c] && At(k, kBase + c) == k[kBase + c];
    }
  }

  /** Output element `index` is component `d` for query token `t` and query head `h`, which is in the group of key/value
      head `g`; of the key/value tokens, `n` are not behind the query's own position. */
  ghost predicate Places(p: Problem, index: nat, t: nat, h: nat, d: nat, group: nat, g: nat, n: nat) {
    && p.Valid() && t < p.queryTokens && h < p.queryHeads && d < p.g.headSize
    && index == (t * p.queryHeads + h) * p.g.headSize + d
    && group > 0 && p.queryHeads == p.g.heads * group && g == h / group
    && n == p.g.rows - p.queryTokens + t + 1
  }

  lemma PlacesParts(p: Problem, index: nat, t: nat, h: nat, d: nat, group: nat, g: nat, n: nat)
    requires Places(p, index, t, h, d, group, g, n)
    ensures index < p.Queries().Total() && index >= d && index - d + p.g.headSize <= p.Queries().Total()
    ensures QueryToken(p, index) == t && QueryHead(p, index) == h && Dimension(p, index) == d
    ensures KvHead(p, h) == g < p.g.heads && Visible(p, t) == n <= p.g.rows
  {
    FlatBelow(t, h, d, p.queryTokens, p.queryHeads, p.g.headSize);
    FlatBelow(t, h, p.g.headSize - 1, p.queryTokens, p.queryHeads, p.g.headSize);
    FlatParts(index, t, h, d, p.queryHeads, p.g.headSize);
    DivModUnique(p.queryHeads, p.g.heads, group, 0);
  }

  /** Every output element has its place. */
  lemma EveryElementHasAPlace(p: Problem, index: nat) returns (t: nat, h: nat, d: nat, group: nat, g: nat, n: nat)
    requires p.Valid() && index < p.Queries().Total()
    ensures Places(p, index, t, h, d, group, g, n)
  {
    t, h, d := QueryToken(p, index), QueryHead(p, index), Dimension(p, index);
    GroupPositive(p.queryHeads, p.g.heads);
    group, g, n := p.queryHeads / p.g.heads, KvHead(p, h), Visible(p, t);
    QueryVectorFits(p, index);
  }

  /** The reference. */
  lemma ReferenceIsMean(e: real -> real, p: Problem, q: seq<real>, k: seq<real>, v: seq<real>, scale: real, index: nat,
                        t: nat, h: nat, d: nat, group: nat, g: nat, n: nat)
    requires IsExp(e) && Places(p, index, t, h, d, group, g, n)
    requires |q| == p.Queries().Total() && |k| == |v| == p.g.Total()
    ensures d <= index < |q|
    ensures IsWeightedMean(e, q, index - d, k, v, scale, p.g.headSize, d, n, PackedAt(p.g.heads, p.g.headSize, g),
                           ReferenceOutput(e, p, q, k, v, scale, index))
  {
    PlacesParts(p, index, t, h, d, group, g, n);
    ReferenceMean(e, p, q, k, v, scale, index, d, g, n);
  }

  lemma ReferenceMean(e: real -> real, p: Problem, q: seq<real>, k: seq<real>, v: seq<real>, scale: real, index: nat,
                      d: nat, g: nat, n: nat)
    requires IsExp(e) && p.Valid() && |q| == p.Queries().Total() && |k| == |v| == p.g.Total() && index < |q|
    requires Dimension(p, index) == d && KvHead(p, QueryHead(p, index)) == g && Visible(p, QueryToken(p, index)) == n
    ensures IsWeightedMean(e, q, index - d, k, v, scale, p.g.headSize, d, n, PackedAt(p.g.heads, p.g.headSize, g),
                           ReferenceOutput(e, p, q, k, v, scale, index))
  {
    FlatRowsFit(p.g, g, n);
    QueryVectorFits(p, index);
    PackedBases(p.g, g, n);
    ReferenceIsAttend(e, p, q, k, v, scale, index, d, g, n);
    AttendIsMean(e, q, index - d, k, v, FlatBases(p.g, g, n), p.g.headSize, d, scale,
                 PackedAt(p.g.heads, p.g.headSize, g), n, ReferenceOutput(e, p, q, k, v, scale, index));
  }

  lemma ReferenceIsAttend(e: real -> real, p: Problem, q: seq<real>, k: seq<real>, v: seq<real>, scale: real,
                          index: nat, d: nat, g: nat, n: nat)
    requires IsExp(e) && p.Valid() && |q| == p.Queries().Total() && |k| == |v| == p.g.Total() && index < |q|
    requires Dimension(p, index) == d && KvHead(p, QueryHead(p, index)) == g && Visible(p, QueryToken(p, index)) == n
    ensures index - d + p.g.headSize <= |q| && RowsFit(FlatBases(p.g, g, n), p.g.headSize, |k|)
    ensures ReferenceOutput(e, p, q, k, v, scale, index)
              == Attend(e, q, index - d, k, v, FlatBases(p.g, g, n), p.g.headSize, d, scale)
  {
    FlatRowsFit(p.g, g, n);
    QueryVectorFits(p, index);
  }

  lemma PackedBases(s: Shape, g: nat, n: nat)
    ensures forall j: nat :: j < n ==> PackedAt(s.heads, s.headSize, g)(j) == FlatBases(s, g, n)[j]
  {
  }

  /** Row `j` of head `g` in the cache, through the block table. */
  function PagedAt(table: seq<int>, blockSize: nat, kvHeads: nat, headSize: nat, g: nat): nat -> nat
    requires blockSize > 0
  {
    (j: nat) =>
      DigitsOf(j, blockSize);
      var block := if j / blockSize < |table| && table[j / blockSize] >= 0 then table[j / blockSize] else 0;
      ((block * kvHeads + g) * blockSize + j % blockSize) * headSize
  }

  lemma PagedBasesAre(s: Shape, table: seq<int>, g: nat, n: nat)
    requires Leads(s, table, 0, n)
    ensures forall j: nat :: j < n ==>
              PagedAt(table, s.blockSize, s.heads, s.headSize, g)(j) == PagedBases(s, table, 0, g, n)[j]
  {
    forall j: nat | j < n
      ensures PagedAt(table, s.blockSize, s.heads, s.headSize, g)(j) == PagedBases(s, table, 0, g, n)[j]
    {
      DigitsOf(j, s.blockSize);
      assert LeadsTo(s, table, 0, j);
    }
  }

  /** The paged kernel, likewise. */
  lemma PagedIsMean(e: real -> real, p: Problem, q: seq<real>, k: seq<real>, v: seq<real>, table: seq<int>, scale: real,
                    index: nat, t: nat, h: nat, d: nat, group: nat, g: nat, n: nat)
    requires IsExp(e) && Places(p, index, t, h, d, group, g, n)
    requires |q| == p.Queries().Total() && |k| == |v| == p.g.CacheTotal() && Leads(p.g, table, 0, p.g.rows)
    ensures d <= index < |q|
    ensures IsWeightedMean(e, q, index - d, k, v, scale, p.g.headSize, d, n,
                           PagedAt(table, p.g.blockSize, p.g.heads, p.g.headSize, g),
                           PagedOutput(e, p, q, k, v, table, 0, scale, index))
  {
    PlacesParts(p, index, t, h, d, group, g, n);
    PagedMean(e, p, q, k, v, table, scale, index, d, g, n);
  }

  lemma PagedMean(e: real -> real, p: Problem, q: seq<real>, k: seq<real>, v: seq<real>, table: seq<int>, scale: real,
                  index: nat, d: nat, g: nat, n: nat)
    requires IsExp(e) && p.Valid() && |q| == p.Queries().Total() && |k| == |v| == p.g.CacheTotal() && index < |q|
    requires Leads(p.g, table, 0, p.g.rows)
    requires Dimension(p, index) == d && KvHead(p, QueryHead(p, index)) == g && Visible(p, QueryToken(p, index)) == n
    ensures IsWeightedMean(e, q, index - d, k, v, scale, p.g.headSize, d, n,
                           PagedAt(table, p.g.blockSize, p.g.heads, p.g.headSize, g),
                           PagedOutput(e, p, q, k, v, table, 0, scale, index))
  {
    LeadsFewer(p.g, table, 0, n, p.g.rows);
    PagedRowsFit(p.g, table, 0, g, n);
    QueryVectorFits(p, index);
    PagedBasesAre(p.g, table, g, n);
    PagedIsAttend(e, p, q, k, v, table, scale, index, d, g, n);
    AttendIsMean(e, q, index - d, k, v, PagedBases(p.g, table, 0, g, n), p.g.headSize, d, scale,
                 PagedAt(table, p.g.blockSize, p.g.heads, p.g.headSize, g), n,
                 PagedOutput(e, p, q, k, v, table, 0, scale, index));
  }

  lemma PagedIsAttend(e: real -> real, p: Problem, q: seq<real>, k: seq<real>, v: seq<real>, table: seq<int>,
                      scale: real, index: nat, d: nat, g: nat, n: nat)
    requires IsExp(e) && p.Valid() && |q| == p.Queries().Total() && |k| == |v| == p.g.CacheTotal() && index < |q|
    requires Leads(p.g, table, 0, p.g.rows) && Leads(p.g, table, 0, n)
    requires Dimension(p, index) == d && KvHead(p, QueryHead(p, index)) == g && Visible(p, QueryToken(p, index)) == n
    ensures index - d + p.g.headSize <= |q| && RowsFit(PagedBases(p.g, table, 0, g, n), p.g.headSize, |k|)
    ensures PagedOutput(e, p, q, k, v, table, 0, scale, index)
              == Attend(e, q, index - d, k, v, PagedBases(p.g, table, 0, g, n), p.g.headSize, d, scale)
  {
    PagedRowsFit(p.g, table, 0, g, n);
    QueryVectorFits(p, index);
  }

  // ---------------------------------------------------------------- causality

  /** Nothing behind a query's own position reaches it: two caches that agree on the first `n` rows give it the same
      output. */
  lemma FutureIsInvisible(e: real -> real, p: Problem, q: seq<real>, k1: seq<real>, v1: seq<real>, k2: seq<real>,
                          v2: seq<real>, scale: real, index: nat, t: nat, h: nat, d: nat, group: nat, g: nat, n: nat)
    requires IsExp(e) && Places(p, index, t, h, d, group, g, n) && |q| == p.Queries().Total()
    requires |k1| == |v1| == |k2| == |v2| == p.g.Total()
    requires forall i: nat :: i < n * p.g.heads * p.g.headSize && i < |k1| ==> k1[i] == k2[i] && v1[i] == v2[i]
    ensures index < |q|
            && ReferenceOutput(e, p, q, k1, v1, scale, index) == ReferenceOutput(e, p, q, k2, v2, scale, index)
  {
    PlacesParts(p, index, t, h, d, group, g, n);
    var bases := FlatBases(p.g, g, n);
    FlatRowsFit(p.g, g, n);
    forall j: nat | j < n
      ensures SameVector(k1, bases[j], k2, bases[j], p.g.headSize)
              && SameVector(v1, bases[j], v2, bases[j], p.g.headSize)
    {
      SameUpTo(k1, k2, p.g, g, n, j);
      SameUpTo(v1, v2, p.g, g, n, j);
    }
    AttendAlike(e, q, index - d, k1, v1, bases, q, index - d, k2, v2, bases, p.g.headSize, d, scale);
  }

  lemma SameUpTo(a: seq<real>, b: seq<real>, s: Shape, g: nat, n: nat, j: nat)
    requires s.Valid() && g < s.heads && j < n <= s.rows && |a| == |b| == s.Total()
    requires forall i: nat :: i < n * s.heads * s.headSize && i < |a| ==> a[i] == b[i]
    ensures FlatBase(s, g, j) + s.headSize <= |a|
    ensures SameVector(a, FlatBase(s, g, j), b, FlatBase(s, g, j), s.headSize)
  {
    FlatBelow(j, g, s.headSize - 1, s.rows, s.heads, s.headSize);
    forall c: nat | c < s.headSize ensures Component(a, FlatBase(s, g, j), c) == Component(b, FlatBase(s, g, j), c) {
      FlatBelow(j, g, c, n, s.heads, s.headSize);
      FlatBelow(j, g, c, s.rows, s.heads, s.headSize);
    }
  }

  /** And everything up to there does: a query of zeros gets the plain mean of exactly those `n` rows. */
  lemma ZeroQueryGetsMean(e: real -> real, p: Problem, q: seq<real>, k: seq<real>, v: seq<real>, scale: real,
                          index: nat, t: nat, h: nat, d: nat, group: nat, g: nat, n: nat)
    requires IsExp(e) && Places(p, index, t, h, d, group, g, n)
    requires |q| == p.Queries().Total() && |k| == |v| == p.g.Total() && forall i :: 0 <= i < |q| ==> q[i] == 0.0
    ensures index < |q| && Times(ReferenceOutput(e, p, q, k, v, scale, index), n as real)
                           == Sum(n, Values(v, d, PackedAt(p.g.heads, p.g.headSize, g)))
  {
    ReferenceIsMean(e, p, q, k, v, scale, index, t, h, d, group, g, n);
    EqualMean(e, q, index - d, k, v, scale, p.g.headSize, d, n, PackedAt(p.g.heads, p.g.headSize, g),
              ReferenceOutput(e, p, q, k, v, scale, index));
  }

  lemma EqualMean(e: real -> real, q: seq<real>, qBase: nat, k: seq<real>, v: seq<real>, scale: real, headSize: nat,
                  d: nat, n: nat, base: nat -> nat, out: real)
    requires IsExp(e) && IsWeightedMean(e, q, qBase, k, v, scale, headSize, d, n, base, out)
    requires forall i :: 0 <= i < |q| ==> q[i] == 0.0
    ensures Times(out, n as real) == Sum(n, Values(v, d, base))
  {
    var weight, value := Weights(e, q, qBase, k, scale, headSize, base), Values(v, d, base);
    UnfoldMean(e, q, qBase, k, v, scale, headSize, d, n, base, out);
    forall j: nat | j < n ensures weight(j) == e(0.0) {
      ZeroScore(q, qBase, k, base(j), headSize);
      Zero(scale);
    }
    EqualWeights(n, weight, value, Weighted(weight, value), e(0.0));
    CancelWeight(out, n as real, Sum(n, value), e(0.0));
  }

  lemma ZeroScore(q: seq<real>, qBase: nat, k: seq<real>, kBase: nat, n: nat)
    requires forall i :: 0 <= i < |q| ==> q[i] == 0.0
    ensures Score(q, qBase, k, kBase, n) == 0.0
  {
    forall c: nat | c < n ensures Products(q, qBase, k, kBase)(c) == 0.0 {
      assert At(q, qBase + c) == 0.0;
      Zero(At(k, kBase + c));
    }
    SumOfZeros(n, Products(q, qBase, k, kBase));
  }

  lemma {:induction false} SumOfZeros(n: nat, f: nat -> real)
    requires forall j: nat :: j < n ==> f(j) == 0.0
    ensures Sum(n, f) == 0.0
  {
    if n > 0 { SumOfZeros(n - 1, f); }
  }

  lemma {:induction false} EqualWeights(n: nat, weight: nat -> real, value: nat -> real, term: nat -> real, w: real)
    requires forall j: nat :: j < n ==> weight(j) == w && term(j) == Times(weight(j), value(j))
    ensures Sum(n, weight) == Times(n as real, w) && Sum(n, term) == Times(w, Sum(n, value))
  {
    if n > 0 {
      EqualWeights(n - 1, weight, value, term, w);
      OneMore((n - 1) as real, w, Sum(n - 1, value), value(n - 1));
      assert ((n - 1) as real) + 1.0 == n as real;
    }
  }

  lemma OneMore(n: real, w: real, sum: real, value: real)
    ensures Times(n, w) + w == Times(n + 1.0, w) && Times(w, sum) + Times(w, value) == Times(w, sum + value)
  {
  }

  lemma CancelWeight(out: real, n: real, sum: real, w: real)
    requires w > 0.0 && Times(out, Times(n, w)) == Times(w, sum)
    ensures Times(out, n) == sum
  {
    assert w * (out * n - sum) == 0.0;
  }
}
