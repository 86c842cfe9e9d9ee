/** The two-pass CPU reference for attention (src/v2/reference_attention.cpp). */
module ReferenceAttention {
  import opened Common
  import opened Arithmetic
  import opened KvLayouts
  import opened PagedKernels
  import opened Softmax
  import opened PagedAttention

  predicate IsLargest(scores: seq<real>, largest: Option<real>) {
    if scores == [] then largest.None? else largest == Some(Max(scores))
  }

  lemma LargestSnoc(scores: seq<real>, largest: Option<real>, score: real)
    requires IsLargest(scores, largest)
    ensures IsLargest(scores + [score], if largest.None? || score > largest.value then Some(score) else largest)
  {
    assert (scores + [score])[..|scores|] == scores;
  }

  method RowScore(q: seq<real>, qBase: nat, k: seq<real>, g: Shape, kvHead: nat, t: nat, scale: real,
                  ghost bases: seq<nat>) returns (score: real)
    requires RowsFit(bases, g.headSize, |k|) && qBase + g.headSize <= |q| && t < |bases|
             && bases[t] == FlatBase(g, kvHead, t)
    ensures score == Scores(q, qBase, k, bases, g.headSize, scale)[t]
  {
    var dot := DotProduct(q, qBase, k, FlatBase(g, kvHead, t), g.headSize);
    score := dot * scale;
  }

  /** Scores of the visible rows and the largest of them. */
  method ScoreRow(q: seq<real>, qBase: nat, k: seq<real>, g: Shape, kvHead: nat, n: nat, scale: real)
    returns (scores: seq<real>, maximum: real)
    requires g.Valid() && kvHead < g.heads && 0 < n <= g.rows && |k| == g.Total() && qBase + g.headSize <= |q|
    ensures RowsFit(FlatBases(g, kvHead, n), g.headSize, |k|)
    ensures scores == Scores(q, qBase, k, FlatBases(g, kvHead, n), g.headSize, scale) && maximum == Max(scores)
  {
    FlatRowsFit(g, kvHead, n);
    ghost var bases := FlatBases(g, kvHead, n);
    ghost var all := Scores(q, qBase, k, bases, g.headSize, scale);
    var largest: Option<real> := None;
    scores := [];
    for t := 0 to n
      invariant scores == all[..t] && IsLargest(scores, largest)
    {
      var score := RowScore(q, qBase, k, g, kvHead, t, scale, bases);
      LargestSnoc(scores, largest, score);
      TakeSnoc(all, t);
      scores := scores + [score];
      largest := if largest.None? || score > largest.value then Some(score) else largest;
    }
    TakeAll(all);
    maximum := largest.value;
  }

  /** Exponentials relative to the maximum, and their sum. */
  method Weigh(e: real -> real, scores: seq<real>, maximum: real) returns (weights: seq<real>, denominator: real)
    ensures |weights| == |scores| && forall t :: 0 <= t < |scores| ==> weights[t] == e(scores[t] - maximum)
    ensures denominator == Denominator(e, scores, maximum)
  {
    weights, denominator := [], 0.0;
    for t := 0 to |scores|
      invariant |weights| == t && forall j :: 0 <= j < t ==> weights[j] == e(scores[j] - maximum)
      invariant denominator == Denominator(e, scores[..t], maximum)
    {
      TakeSnoc(scores, t);
      weights := weights + [e(scores[t] - maximum)];
      denominator := denominator + weights[t];
    }
    TakeAll(scores);
  }

  /** One value row's component. */
  method ValueAt(v: seq<real>, g: Shape, kvHead: nat, ghost n: nat, t: nat, dim: nat) returns (value: real)
    requires g.Valid() && kvHead < g.heads && t < n <= g.rows && |v| == g.Total() && dim < g.headSize
    ensures RowsFit(FlatBases(g, kvHead, n), g.headSize, |v|)
    ensures value == Column(v, FlatBases(g, kvHead, n), g.headSize, dim)[t]
  {
    FlatRowsFit(g, kvHead, n);
    ghost var bases := FlatBases(g, kvHead, n);
    assert bases[t] == FlatBase(g, kvHead, t);
    value := v[FlatBase(g, kvHead, t) + dim];
  }

  /** One normalised term more. */
  method AddTerm(e: real -> real, ghost scores: seq<real>, ghost column: seq<real>, ghost maximum: real, ghost t: nat,
                 sum: real, weight: real, denominator: real, value: real)
    returns (r: real)
    requires t < |scores| == |column| && denominator != 0.0 && weight == e(scores[t] - maximum) && value == column[t]
    requires sum == WeightedSum(e, scores[..t], column[..t], maximum, denominator)
    ensures r == WeightedSum(e, scores[..t + 1], column[..t + 1], maximum, denominator)
  {
    TakeSnoc(scores, t);
    TakeSnoc(column, t);
    r := sum + (weight / denominator) * value;
  }

  /** One output dimension: the normalised weights applied to a column of the values. */
  method Blend(e: real -> real, ghost scores: seq<real>, ghost maximum: real, weights: seq<real>, denominator: real,
               v: seq<real>, g: Shape, kvHead: nat, dim: nat) returns (r: real)
    requires denominator != 0.0 && |weights| == |scores|
    requires forall t :: 0 <= t < |scores| ==> weights[t] == e(scores[t] - maximum)
    requires g.Valid() && kvHead < g.heads && |weights| <= g.rows && |v| == g.Total() && dim < g.headSize
    ensures RowsFit(FlatBases(g, kvHead, |weights|), g.headSize, |v|)
    ensures r == WeightedSum(e, scores, Column(v, FlatBases(g, kvHead, |weights|), g.headSize, dim), maximum,
                             denominator)
  {
    var n := |weights|;
    FlatRowsFit(g, kvHead, n);
    ghost var column := Column(v, FlatBases(g, kvHead, n), g.headSize, dim);
    r := 0.0;
    for t := 0 to n
      invariant r == WeightedSum(e, scores[..t], column[..t], maximum, denominator)
    {
      var value := ValueAt(v, g, kvHead, n, t, dim);
      r := AddTerm(e, scores, column, maximum, t, r, weights[t], denominator, value);
    }
    TakeAll(scores);
    TakeAll(column);
  }

  /** All dimensions of one query row. */
  method AttendRow(e: real -> real, p: Problem, q: seq<real>, k: seq<real>, v: seq<real>, scale: real, queryToken: nat,
                   queryHead: nat)
    returns (row: seq<real>)
    requires IsExp(e) && p.Valid() && |q| == p.Queries().Total() && |k| == |v| == p.g.Total()
    requires queryToken < p.queryTokens && queryHead < p.queryHeads
    ensures |row| == p.g.headSize
    ensures forall d: nat :: d < |row| ==> IsElement(e, p, q, k, v, scale, queryToken, queryHead, d, row[d])
  {
    var n, kvHead := Visible(p, queryToken), KvHead(p, queryHead);
    var qBase := Flat(queryToken, queryHead, 0, p.queryHeads, p.g.headSize);
    FlatBelow(queryToken, queryHead, p.g.headSize - 1, p.queryTokens, p.queryHeads, p.g.headSize);
    var scores, maximum := ScoreRow(q, qBase, k, p.g, kvHead, n, scale);
    var weights, denominator := Weigh(e, scores, maximum);
    DenominatorPositive(e, scores, maximum);
    row := [];
    for d := 0 to p.g.headSize
      invariant |row| == d && forall c: nat ::
                  c < d ==> IsElement(e, p, q, k, v, scale, queryToken, queryHead, c, row[c])
    {
      var r := Blend(e, scores, maximum, weights, denominator, v, p.g, kvHead, d);
      row := row + [r];
    }
  }

  /** `r` is the reference's element for this query token, head and dimension. */
  ghost predicate IsElement(e: real -> real, p: Problem, q: seq<real>, k: seq<real>, v: seq<real>, scale: real,
                            queryToken: nat, queryHead: nat, dim: nat, r: real)
    requires IsExp(e) && p.Valid() && |q| == p.Queries().Total() && |k| == |v| == p.g.Total()
    requires queryToken < p.queryTokens && queryHead < p.queryHeads && dim < p.g.headSize
  {
    var n, kvHead := Visible(p, queryToken), KvHead(p, queryHead);
    var qBase := Flat(queryToken, queryHead, 0, p.queryHeads, p.g.headSize);
    && RowsFit(FlatBases(p.g, kvHead, n), p.g.headSize, |k|) && qBase + p.g.headSize <= |q|
    && r == Attend(e, q, qBase, k, v, FlatBases(p.g, kvHead, n), p.g.headSize, dim, scale)
  }

  lemma ElementIsOutput(e: real -> real, p: Problem, q: seq<real>, k: seq<real>, v: seq<real>, scale: real,
                        queryToken: nat, queryHead: nat, dim: nat, r: real)
    requires IsExp(e) && p.Valid() && |q| == p.Queries().Total() && |k| == |v| == p.g.Total()
    requires queryToken < p.queryTokens && queryHead < p.queryHeads && dim < p.g.headSize
    requires IsElement(e, p, q, k, v, scale, queryToken, queryHead, dim, r)
    ensures var index := Flat(queryToken, queryHead, dim, p.queryHeads, p.g.headSize);
            index < p.Queries().Total() && r == ReferenceOutput(e, p, q, k, v, scale, index)
  {
    var index := Flat(queryToken, queryHead, dim, p.queryHeads, p.g.headSize);
    FlatBelow(queryToken, queryHead, dim, p.queryTokens, p.queryHeads, p.g.headSize);
    FlatParts(index, queryToken, queryHead, dim, p.queryHeads, p.g.headSize);
    QueryVectorFits(p, index);
  }

  function InvalidShape(queryTokens: nat, queryHeads: nat, kvTokens: nat, kvHeads: nat, headSize: nat): bool {
    queryHeads == 0 || kvHeads == 0 || headSize == 0 || queryHeads % kvHeads != 0 || queryTokens > kvTokens
  }

  /** The shape as the reference sees it: packed keys and values, no blocks. */
  function Packed(queryTokens: nat, queryHeads: nat, kvTokens: nat, kvHeads: nat, headSize: nat): Problem {
    Problem(queryTokens, queryHeads, Shape(kvTokens, 0, kvHeads, 1, headSize))
  }

  method ReferenceAttention(e: real -> real, q: seq<real>, k: seq<real>, v: seq<real>, scale: real,
                            queryTokens: nat, queryHeads: nat, kvTokens: nat, kvHeads: nat, headSize: nat)
    returns (r: Result<seq<real>>)
    requires IsExp(e)
    ensures var p := Packed(queryTokens, queryHeads, kvTokens, kvHeads, headSize);
            && (InvalidShape(queryTokens, queryHeads, kvTokens, kvHeads, headSize) ==> r == Err(InvalidArgument))
            && (r.Ok? ==> && p.Valid() && |q| == |r.value| == p.Queries().Total() && |k| == |v| == p.g.Total()
                          && forall i: nat :: i < |r.value| ==> r.value[i] == ReferenceOutput(e, p, q, k, v, scale, i))
            && (r.Err? && !InvalidShape(queryTokens, queryHeads, kvTokens, kvHeads, headSize) ==>
                  if r.error == OverflowError then p.Queries().Total() > MAX64 || p.g.Total() > MAX64
                  else r.error == InvalidArgument
                       && (|q| != p.Queries().Total() || |k| != p.g.Total() || |v| != p.g.Total()))
  {
    if queryHeads == 0 || kvHeads == 0 || headSize == 0 || queryHeads % kvHeads != 0 || queryTokens > kvTokens {
      return Err(InvalidArgument);
    }
    var p := Packed(queryTokens, queryHeads, kvTokens, kvHeads, headSize);
    var queryElements := Then(Multiply(queryTokens, queryHeads), headSize);
    SizeFits(queryTokens, queryHeads, headSize);
    if queryElements.Err? { return Err(OverflowError); }
    var kvElements := Then(Multiply(kvTokens, kvHeads), headSize);
    SizeFits(kvTokens, kvHeads, headSize);
    if kvElements.Err? { return Err(OverflowError); }
    if |q| != queryElements.value || |k| != kvElements.value || |v| != kvElements.value { return Err(InvalidArgument); }
    var output: seq<real> := [];
    for queryToken := 0 to queryTokens
      invariant |output| == Flat(queryToken, 0, 0, queryHeads, headSize) && |output| <= |q|
      invariant forall i: nat :: i < |output| ==> output[i] == ReferenceOutput(e, p, q, k, v, scale, i)
    {
      for queryHead := 0 to queryHeads
        invariant |output| == Flat(queryToken, queryHead, 0, queryHeads, headSize) && |output| <= |q|
        invariant forall i: nat :: i < |output| ==> output[i] == ReferenceOutput(e, p, q, k, v, scale, i)
      {
        var row := AttendRow(e, p, q, k, v, scale, queryToken, queryHead);
        output := AppendRow(e, p, q, k, v, scale, queryToken, queryHead, output, row);
      }
      NextToken(queryToken, queryHeads, headSize);
    }
    r := Ok(output);
  }

  lemma SizeFits(tokens: nat, heads: nat, headSize: nat)
    requires heads > 0 && headSize > 0
    ensures var r := Then(Multiply(tokens, heads), headSize);
            if r.Ok? then r.value == tokens * heads * headSize
              else tokens * heads * headSize > MAX64 && r.error == OverflowError
  {
    MultiplyFits(tokens, heads);
    MultiplyFits(tokens * heads, headSize);
    FactorAtMost(tokens * heads, headSize);
  }

  lemma NextToken(queryToken: nat, heads: nat, headSize: nat)
    ensures Flat(queryToken, heads, 0, heads, headSize) == Flat(queryToken + 1, 0, 0, heads, headSize)
  {
    MulSucc(queryToken, heads);
  }

  /** The row's elements, at the places where they are laid down. */
  lemma RowElement(e: real -> real, p: Problem, q: seq<real>, k: seq<real>, v: seq<real>, scale: real, queryToken: nat,
                   queryHead: nat, row: seq<real>, start: nat, i: nat)
    requires IsExp(e) && p.Valid() && |q| == p.Queries().Total() && |k| == |v| == p.g.Total()
    requires queryToken < p.queryTokens && queryHead < p.queryHeads && |row| == p.g.headSize
    requires forall d: nat :: d < |row| ==> IsElement(e, p, q, k, v, scale, queryToken, queryHead, d, row[d])
    requires start == Flat(queryToken, queryHead, 0, p.queryHeads, p.g.headSize) <= i < start + |row|
    ensures i < |q| && row[i - start] == ReferenceOutput(e, p, q, k, v, scale, i)
  {
    var d: nat := i - start;
    RowEnds(p, queryToken, queryHead);
    ElementIsOutput(e, p, q, k, v, scale, queryToken, queryHead, d, row[d]);
  }

  /** The rows are laid down one after the other. */
  method AppendRow(e: real -> real, ghost p: Problem, ghost q: seq<real>, ghost k: seq<real>, ghost v: seq<real>,
                   ghost scale: real, ghost queryToken: nat, ghost queryHead: nat, output: seq<real>, row: seq<real>)
    returns (longer: seq<real>)
    requires IsExp(e) && p.Valid() && |q| == p.Queries().Total() && |k| == |v| == p.g.Total()
    requires queryToken < p.queryTokens && queryHead < p.queryHeads && |row| == p.g.headSize
    requires forall d: nat :: d < |row| ==> IsElement(e, p, q, k, v, scale, queryToken, queryHead, d, row[d])
    requires |output| == Flat(queryToken, queryHead, 0, p.queryHeads, p.g.headSize) && |output| <= |q|
    requires forall i: nat :: i < |output| ==> output[i] == ReferenceOutput(e, p, q, k, v, scale, i)
    ensures |longer| == Flat(queryToken, queryHead + 1, 0, p.queryHeads, p.g.headSize) && |longer| <= |q|
    ensures forall i: nat :: i < |longer| ==> longer[i] == ReferenceOutput(e, p, q, k, v, scale, i)
  {
    longer := output + row;
    RowEnds(p, queryToken, queryHead);
    forall i: nat | |output| <= i < |longer| ensures longer[i] == ReferenceOutput(e, p, q, k, v, scale, i) {
      RowElement(e, p, q, k, v, scale, queryToken, queryHead, row, |output|, i);
    }
  }

  lemma RowEnds(p: Problem, queryToken: nat, queryHead: nat)
    requires p.Valid() && queryToken < p.queryTokens && queryHead < p.queryHeads
    ensures var start := Flat(queryToken, queryHead, 0, p.queryHeads, p.g.headSize);
            && Flat(queryToken, queryHead + 1, 0, p.queryHeads, p.g.headSize) == start + p.g.headSize
              <= p.Queries().Total()
            && forall d: nat :: Flat(queryToken, queryHead, d, p.queryHeads, p.g.headSize) == start + d
  {
    MulSucc(queryToken * p.queryHeads + queryHead, p.g.headSize);
    FlatBelow(queryToken, queryHead, p.g.headSize - 1, p.queryTokens, p.queryHeads, p.g.headSize);
  }
}
