/**
 The per-slot body shared by every resampling driver: blend the old
 transforms named by one candidate list with the evaluator's weights,
 fall back to the identity when the total weight is exactly zero, normalise
 otherwise, and in isometry mode replace the blended linear part by its
 rotation factor.
 */
module Aggregation {
  import opened LinearAlgebra
  import opened Transforms
  import opened Neighborhoods

  /** The three running sums of the accumulation loop. */
  datatype Accumulator = Accumulator(weight: real, linear: Matrix, translation: Vector)

  /** The inputs one slot reads: d-shaped old transforms, candidates that index them. */
  predicate Readable(d: nat, oldSet: TransformSet, nh: Neighborhood) {
    AllShaped(oldSet, d) && ValidIndices(nh, |oldSet|)
  }

  // Reference definitions: the weighted sums and weighted means, entry by entry.

  /** w_k * L_k[r][c] for every candidate k. */
  function LinearTerms(d: nat, oldSet: TransformSet, eval: WeightEvaluator, q: nat, nh: Neighborhood, r: nat, c: nat): seq<real>
    requires Readable(d, oldSet, nh)
    requires r < d && c < d
  {
    seq(|nh|, k requires 0 <= k < |nh| => eval(q, nh[k].index, nh[k].value) * oldSet[nh[k].index].linear[r][c])
  }

  /** w_k * t_k[r] for every candidate k. */
  function TranslationTerms(d: nat, oldSet: TransformSet, eval: WeightEvaluator, q: nat, nh: Neighborhood, r: nat): seq<real>
    requires Readable(d, oldSet, nh)
    requires r < d
  {
    seq(|nh|, k requires 0 <= k < |nh| => eval(q, nh[k].index, nh[k].value) * oldSet[nh[k].index].translation[r])
  }

  /** (Σ w_k L_k) / W */
  function MeanLinear(d: nat, oldSet: TransformSet, eval: WeightEvaluator, q: nat, nh: Neighborhood): Matrix
    requires Readable(d, oldSet, nh)
    requires TotalWeight(eval, q, nh) != 0.0
  {
    seq(d, r requires 0 <= r < d =>
      seq(d, c requires 0 <= c < d => Sum(LinearTerms(d, oldSet, eval, q, nh, r, c)) / TotalWeight(eval, q, nh)))
  }

  /** (Σ w_k t_k) / W */
  function MeanTranslation(d: nat, oldSet: TransformSet, eval: WeightEvaluator, q: nat, nh: Neighborhood): Vector
    requires Readable(d, oldSet, nh)
    requires TotalWeight(eval, q, nh) != 0.0
  {
    seq(d, r requires 0 <= r < d => Sum(TranslationTerms(d, oldSet, eval, q, nh, r)) / TotalWeight(eval, q, nh))
  }

  /** Dropping the last candidate drops the last term of every weighted sum. */
  lemma {:induction false} TermsOfPrefix(d: nat, oldSet: TransformSet, eval: WeightEvaluator, q: nat, nh: Neighborhood)
    requires Readable(d, oldSet, nh)
    requires |nh| > 0
    ensures Weights(eval, q, nh)[..|nh| - 1] == Weights(eval, q, nh[..|nh| - 1])
    ensures forall r, c :: 0 <= r < d && 0 <= c < d ==>
              LinearTerms(d, oldSet, eval, q, nh, r, c)[..|nh| - 1] == LinearTerms(d, oldSet, eval, q, nh[..|nh| - 1], r, c)
    ensures forall r :: 0 <= r < d ==>
              TranslationTerms(d, oldSet, eval, q, nh, r)[..|nh| - 1] == TranslationTerms(d, oldSet, eval, q, nh[..|nh| - 1], r)
  {
    var p := nh[..|nh| - 1];
    forall r, c | 0 <= r < d && 0 <= c < d
      ensures LinearTerms(d, oldSet, eval, q, nh, r, c)[..|nh| - 1] == LinearTerms(d, oldSet, eval, q, p, r, c)
    {
      var a := LinearTerms(d, oldSet, eval, q, nh, r, c)[..|nh| - 1];
      var b := LinearTerms(d, oldSet, eval, q, p, r, c);
      assert |a| == |b|;
      forall k | 0 <= k < |a|
        ensures a[k] == b[k]
      {
        assert p[k] == nh[k];
      }
    }
    forall r | 0 <= r < d
      ensures TranslationTerms(d, oldSet, eval, q, nh, r)[..|nh| - 1] == TranslationTerms(d, oldSet, eval, q, p, r)
    {
      var a := TranslationTerms(d, oldSet, eval, q, nh, r)[..|nh| - 1];
      var b := TranslationTerms(d, oldSet, eval, q, p, r);
      assert |a| == |b|;
      forall k | 0 <= k < |a|
        ensures a[k] == b[k]
      {
        assert p[k] == nh[k];
      }
    }
  }

  // The model of cilantro's accumulation loop.

  /**
   The accumulation loop over the candidates, from zeroed accumulators,
   in list order. Its running sums are the weighted sums above.
   */
  function Accumulate(d: nat, oldSet: TransformSet, eval: WeightEvaluator, q: nat, nh: Neighborhood): (acc: Accumulator)
    requires Readable(d, oldSet, nh)
    ensures IsMatrix(acc.linear, d) && IsVector(acc.translation, d)
    ensures acc.weight == TotalWeight(eval, q, nh)
    ensures forall r, c :: 0 <= r < d && 0 <= c < d ==>
              acc.linear[r][c] == Sum(LinearTerms(d, oldSet, eval, q, nh, r, c))
    ensures forall r :: 0 <= r < d ==>
              acc.translation[r] == Sum(TranslationTerms(d, oldSet, eval, q, nh, r))
    decreases |nh|
  {
    if |nh| == 0 then
      Accumulator(0.0, ZeroMatrix(d), ZeroVector(d))
    else
      var acc := Accumulate(d, oldSet, eval, q, nh[..|nh| - 1]);
      var n := nh[|nh| - 1];
      var w := eval(q, n.index, n.value);
      TermsOfPrefix(d, oldSet, eval, q, nh);
      Accumulator(acc.weight + w,
                  AddMatrix(acc.linear, ScaleMatrix(w, oldSet[n.index].linear)),
                  AddVector(acc.translation, ScaleVector(w, oldSet[n.index].translation)))
  }

  /** Multiplying the accumulated sums by 1/W gives the weighted means. */
  lemma {:induction false} NormalisedSums(d: nat, oldSet: TransformSet, eval: WeightEvaluator, q: nat, nh: Neighborhood, acc: Accumulator)
    requires Readable(d, oldSet, nh)
    requires acc == Accumulate(d, oldSet, eval, q, nh)
    requires acc.weight != 0.0
    ensures ScaleMatrix(1.0 / acc.weight, acc.linear) == MeanLinear(d, oldSet, eval, q, nh)
    ensures ScaleVector(1.0 / acc.weight, acc.translation) == MeanTranslation(d, oldSet, eval, q, nh)
  {
    var ml := MeanLinear(d, oldSet, eval, q, nh);
    assert forall r, c :: 0 <= r < d && 0 <= c < d ==> ml[r][c] == acc.linear[r][c] / acc.weight;
    ScaleMatrixByReciprocal(d, acc.linear, acc.weight, ml);
    var mt := MeanTranslation(d, oldSet, eval, q, nh);
    assert forall r :: 0 <= r < d ==> mt[r] == acc.translation[r] / acc.weight;
    ScaleVectorByReciprocal(d, acc.translation, acc.weight, mt);
  }

  /**
   One output slot. Total weight exactly zero gives the identity (whatever
   the mode); otherwise the weighted mean, with only the linear part passed
   through the rotation extraction in isometry mode.
   */
  function Aggregate(kind: TransformKind, oldSet: TransformSet, eval: WeightEvaluator, q: nat, nh: Neighborhood): (t: Transform)
    requires Readable(kind.dim, oldSet, nh)
    ensures TotalWeight(eval, q, nh) == 0.0 ==> t == IdentityTransform(kind.dim)
    ensures TotalWeight(eval, q, nh) != 0.0 ==>
              t.translation == MeanTranslation(kind.dim, oldSet, eval, q, nh)
    ensures TotalWeight(eval, q, nh) != 0.0 && kind.mode == General ==>
              t.linear == MeanLinear(kind.dim, oldSet, eval, q, nh)
    ensures TotalWeight(eval, q, nh) != 0.0 && kind.mode == Isometry ==>
              t.linear == kind.rotation(MeanLinear(kind.dim, oldSet, eval, q, nh))
  {
    var d := kind.dim;
    var acc := Accumulate(d, oldSet, eval, q, nh);
    if acc.weight == 0.0 then
      IdentityTransform(d)
    else
      var inverse := 1.0 / acc.weight;
      var linear := ScaleMatrix(inverse, acc.linear);
      NormalisedSums(d, oldSet, eval, q, nh, acc);
      Transform(if kind.mode == Isometry then kind.rotation(linear) else linear,
                ScaleVector(inverse, acc.translation))
  }

  /**
   The per-slot body as the C++ code writes it: zero the accumulators, add
   each weighted candidate in turn, then reset or normalise.
   */
  method AggregateSlot(kind: TransformKind, oldSet: TransformSet, eval: WeightEvaluator, q: nat, nh: Neighborhood)
    returns (t: Transform)
    requires Readable(kind.dim, oldSet, nh)
    ensures t == Aggregate(kind, oldSet, eval, q, nh)
  {
    var d := kind.dim;
    var totalWeight := 0.0;
    var linear := ZeroMatrix(d);
    var translation := ZeroVector(d);
    var j := 0;
    while j < |nh|
      invariant 0 <= j <= |nh|
      invariant Accumulator(totalWeight, linear, translation) == Accumulate(d, oldSet, eval, q, nh[..j])
    {
      var n := nh[j];
      var weight := eval(q, n.index, n.value);
      totalWeight := totalWeight + weight;
      linear := AddMatrix(linear, ScaleMatrix(weight, oldSet[n.index].linear));
      translation := AddVector(translation, ScaleVector(weight, oldSet[n.index].translation));
      j := j + 1;
      assert nh[..j][..j - 1] == nh[..j - 1];
    }
    assert nh[..j] == nh;
    if totalWeight == 0.0 {
      t := IdentityTransform(d);
    } else {
      totalWeight := 1.0 / totalWeight;
      linear := ScaleMatrix(totalWeight, linear);
      if kind.mode == Isometry {
        linear := kind.rotation(linear);
      }
      translation := ScaleVector(totalWeight, translation);
      t := Transform(linear, translation);
    }
  }
}
