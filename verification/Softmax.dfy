/** Softmax-weighted means over the reals: the two-pass definition and the facts the one-pass form rests on. */
module Softmax {
  /** All that is used of the exponential: it is positive and turns sums into products. */
  ghost predicate IsExp(e: real -> real) {
    && (forall x :: e(x) > 0.0)
    && (forall x, y {:trigger Plus(x, y)} :: e(Plus(x, y)) == Times(e(x), e(y)))
  }

  function Plus(x: real, y: real): real {
    x + y
  }

  /** A product, kept apart from the solver's own arithmetic. */
  function Times(x: real, y: real): real {
    x * y
  }

  lemma Distribute(a: real, b: real, c: real)
    ensures Times(a + b, c) == Times(a, c) + Times(b, c)
  {
  }

  lemma Swap(w: real, v: real, c: real)
    ensures Times(Times(w, c), v) == Times(Times(w, v), c)
  {
  }

  lemma Zero(c: real)
    ensures Times(0.0, c) == 0.0
  {
  }

  lemma ExpShift(e: real -> real, s: real, m: real, n: real)
    requires IsExp(e)
    ensures e(s - n) == Times(e(s - m), e(m - n))
  {
    assert Plus(s - m, m - n) == s - n;
  }

  function Max(scores: seq<real>): real
    requires scores != []
  {
    var last := scores[|scores| - 1];
    if |scores| == 1 then last
    else
      var m := Max(scores[..|scores| - 1]);
      if last > m then last else m
  }

  /** Sum of e(score - m). */
  function Denominator(e: real -> real, scores: seq<real>, m: real): real {
    if scores == [] then 0.0
    else Denominator(e, scores[..|scores| - 1], m) + e(scores[|scores| - 1] - m)
  }

  /** Sum of e(score - m) * value. */
  function Numerator(e: real -> real, scores: seq<real>, values: seq<real>, m: real): real
    requires |values| == |scores|
  {
    if scores == [] then 0.0
    else Numerator(e, scores[..|scores| - 1], values[..|scores| - 1], m)
         + Times(e(scores[|scores| - 1] - m), values[|scores| - 1])
  }

  lemma {:induction false} DenominatorPositive(e: real -> real, scores: seq<real>, m: real)
    requires IsExp(e)
    ensures Denominator(e, scores, m) >= 0.0 && (scores != [] ==> Denominator(e, scores, m) > 0.0)
  {
    if scores != [] { DenominatorPositive(e, scores[..|scores| - 1], m); }
  }

  /** Rescaling both sums is all it takes to change the reference point. */
  lemma Rescale(e: real -> real, scores: seq<real>, values: seq<real>, m: real, n: real)
    requires IsExp(e) && |values| == |scores|
    ensures Denominator(e, scores, n) == Times(Denominator(e, scores, m), e(m - n))
    ensures Numerator(e, scores, values, n) == Times(Numerator(e, scores, values, m), e(m - n))
  {
    RescaleDenominator(e, scores, m, n);
    RescaleNumerator(e, scores, values, m, n);
  }

  lemma {:induction false} RescaleDenominator(e: real -> real, scores: seq<real>, m: real, n: real)
    requires IsExp(e)
    ensures Denominator(e, scores, n) == Times(Denominator(e, scores, m), e(m - n))
  {
    if scores == [] {
      Zero(e(m - n));
    } else {
      var k := |scores| - 1;
      RescaleDenominator(e, scores[..k], m, n);
      ExpShift(e, scores[k], m, n);
      Distribute(Denominator(e, scores[..k], m), e(scores[k] - m), e(m - n));
    }
  }

  lemma {:induction false} RescaleNumerator(e: real -> real, scores: seq<real>, values: seq<real>, m: real, n: real)
    requires IsExp(e) && |values| == |scores|
    ensures Numerator(e, scores, values, n) == Times(Numerator(e, scores, values, m), e(m - n))
  {
    if scores == [] {
      Zero(e(m - n));
    } else {
      var k := |scores| - 1;
      RescaleNumerator(e, scores[..k], values[..k], m, n);
      ExpShift(e, scores[k], m, n);
      Swap(e(scores[k] - m), values[k], e(m - n));
      Distribute(Numerator(e, scores[..k], values[..k], m), Times(e(scores[k] - m), values[k]), e(m - n));
    }
  }

  /** One normalised term after the other, against a fixed denominator. */
  function WeightedSum(e: real -> real, scores: seq<real>, values: seq<real>, m: real, d: real): real
    requires |values| == |scores| && d != 0.0
  {
    if scores == [] then 0.0
    else WeightedSum(e, scores[..|scores| - 1], values[..|scores| - 1], m, d)
         + (e(scores[|scores| - 1] - m) / d) * values[|scores| - 1]
  }

  /** The softmax-weighted mean, as defined: maximum, exponentials and their sum, normalised weights, weighted sum. */
  ghost function Mean(e: real -> real, scores: seq<real>, values: seq<real>): real
    requires IsExp(e) && |values| == |scores| && scores != []
  {
    var m := Max(scores);
    DenominatorPositive(e, scores, m);
    WeightedSum(e, scores, values, m, Denominator(e, scores, m))
  }

  lemma {:induction false} WeightedSumIsQuotient(e: real -> real, scores: seq<real>, values: seq<real>, m: real,
                                                 d: real)
    requires |values| == |scores| && d != 0.0
    ensures WeightedSum(e, scores, values, m, d) == Numerator(e, scores, values, m) / d
  {
    if scores != [] {
      var k := |scores| - 1;
      WeightedSumIsQuotient(e, scores[..k], values[..k], m, d);
      QuotientOfSum(Numerator(e, scores[..k], values[..k], m), e(scores[k] - m), values[k], d);
    }
  }

  lemma QuotientOfSum(n: real, w: real, v: real, d: real)
    requires d != 0.0
    ensures n / d + (w / d) * v == (n + Times(w, v)) / d
  {
    assert (n / d + (w / d) * v) * d == n + w * v;
  }

  /** The mean can be taken from the two sums with any reference point at all. */
  lemma MeanIsQuotient(e: real -> real, scores: seq<real>, values: seq<real>, n: real)
    requires IsExp(e) && |values| == |scores| && scores != []
    ensures Denominator(e, scores, n) > 0.0
    ensures Mean(e, scores, values) == Numerator(e, scores, values, n) / Denominator(e, scores, n)
  {
    var m := Max(scores);
    DenominatorPositive(e, scores, m);
    DenominatorPositive(e, scores, n);
    WeightedSumIsQuotient(e, scores, values, m, Denominator(e, scores, m));
    Rescale(e, scores, values, m, n);
    Cancel(Numerator(e, scores, values, m), Denominator(e, scores, m), e(m - n));
  }

  lemma Cancel(n: real, d: real, c: real)
    requires d != 0.0 && c != 0.0
    ensures Times(d, c) != 0.0 && n / d == Times(n, c) / Times(d, c)
  {
    assert (n / d) * (d * c) == n * c;
  }
}
