/**
 Laws of one output slot: the zero-weight fallback, exactness on a single
 candidate, what the mode does and does not change, orthogonality in
 isometry mode, and invariance under ignored candidates and rescaled weights.
 */
module AggregationLaws {
  import opened LinearAlgebra
  import opened Transforms
  import opened Neighborhoods
  import opened Aggregation

  /** All weights zero (in particular, no candidates at all) gives the identity, in either mode. */
  lemma {:induction false} ZeroWeightFallback(kind: TransformKind, oldSet: TransformSet, eval: WeightEvaluator, q: nat, nh: Neighborhood)
    requires Readable(kind.dim, oldSet, nh)
    requires forall k :: 0 <= k < |nh| ==> eval(q, nh[k].index, nh[k].value) == 0.0
    ensures Aggregate(kind, oldSet, eval, q, nh) == IdentityTransform(kind.dim)
  {
    SumOfZeros(Weights(eval, q, nh));
  }

  /**
   For an evaluator that keeps to non-negative weights, the total is zero
   exactly when every candidate's weight is zero, so the fallback is taken
   exactly when no candidate contributes.
   */
  lemma {:induction false} FallbackIffNoContribution(eval: WeightEvaluator, q: nat, nh: Neighborhood)
    requires forall k :: 0 <= k < |nh| ==> eval(q, nh[k].index, nh[k].value) >= 0.0
    ensures TotalWeight(eval, q, nh) >= 0.0
    ensures TotalWeight(eval, q, nh) == 0.0 <==>
              forall k :: 0 <= k < |nh| ==> eval(q, nh[k].index, nh[k].value) == 0.0
  {
    var ws := Weights(eval, q, nh);
    SumOfNonNegatives(ws);
    assert |ws| == |nh|;
    assert forall k :: 0 <= k < |nh| ==> ws[k] == eval(q, nh[k].index, nh[k].value);
  }

  /**
   One candidate with a non-zero weight reproduces its old transform in
   general mode; in isometry mode the linear part is the rotation factor of
   the old linear part and the translation is kept as is.
   */
  lemma {:induction false} SingleCandidateExact(kind: TransformKind, oldSet: TransformSet, eval: WeightEvaluator, q: nat, n: Neighbor)
    requires Readable(kind.dim, oldSet, [n])
    requires eval(q, n.index, n.value) != 0.0
    ensures Aggregate(kind, oldSet, eval, q, [n]).translation == oldSet[n.index].translation
    ensures kind.mode == General ==> Aggregate(kind, oldSet, eval, q, [n]) == oldSet[n.index]
    ensures kind.mode == Isometry ==>
              Aggregate(kind, oldSet, eval, q, [n]).linear == kind.rotation(oldSet[n.index].linear)
  {
    var d := kind.dim;
    var w := eval(q, n.index, n.value);
    var x := oldSet[n.index];
    assert Shaped(x, d);
    assert TotalWeight(eval, q, [n]) == w by {
      var ws := Weights(eval, q, [n]);
      assert ws == [w];
      assert ws[..0] == [];
      assert Sum(ws) == Sum(ws[..0]) + ws[0];
    }
    var ml := MeanLinear(d, oldSet, eval, q, [n]);
    forall r | 0 <= r < d
      ensures ml[r] == x.linear[r]
    {
      forall c | 0 <= c < d
        ensures ml[r][c] == x.linear[r][c]
      {
        var terms := LinearTerms(d, oldSet, eval, q, [n], r, c);
        assert terms[..0] == [];
        assert Sum(terms) == w * x.linear[r][c];
      }
    }
    var mt := MeanTranslation(d, oldSet, eval, q, [n]);
    forall r | 0 <= r < d
      ensures mt[r] == x.translation[r]
    {
      var terms := TranslationTerms(d, oldSet, eval, q, [n], r);
      assert terms[..0] == [];
      assert Sum(terms) == w * x.translation[r];
    }
    assert ml == x.linear;
    assert mt == x.translation;
  }

  /**
   The mode changes nothing but the linear part of a normalised slot: the
   translation is never projected, and the zero-weight fallback is the same
   identity in both modes.
   */
  lemma ModeOnlyAffectsLinear(kind: TransformKind, oldSet: TransformSet, eval: WeightEvaluator, q: nat, nh: Neighborhood)
    requires Readable(kind.dim, oldSet, nh)
    ensures var general := Aggregate(kind.(mode := General), oldSet, eval, q, nh);
            var isometry := Aggregate(kind.(mode := Isometry), oldSet, eval, q, nh);
            && general.translation == isometry.translation
            && (TotalWeight(eval, q, nh) == 0.0 ==> general == isometry)
            && (TotalWeight(eval, q, nh) != 0.0 ==> isometry.linear == kind.rotation(general.linear))
  {
  }

  /** The rotation extraction of the transform kind yields orthogonal d x d matrices. */
  ghost predicate RotationIsOrthogonal(kind: TransformKind) {
    forall m :: IsMatrix(m, kind.dim) ==> Orthogonal(kind.rotation(m), kind.dim)
  }

  /**
   In isometry mode every output linear part is orthogonal, provided the
   rotation extraction is: normalised slots go through it, and the fallback
   identity is orthogonal itself.
   */
  lemma {:induction false} IsometryOutputOrthogonal(kind: TransformKind, oldSet: TransformSet, eval: WeightEvaluator, q: nat, nh: Neighborhood)
    requires Readable(kind.dim, oldSet, nh)
    requires kind.mode == Isometry
    requires RotationIsOrthogonal(kind)
    ensures Orthogonal(Aggregate(kind, oldSet, eval, q, nh).linear, kind.dim)
  {
    if TotalWeight(eval, q, nh) == 0.0 {
      IdentityIsOrthogonal(kind.dim);
    } else {
      assert IsMatrix(MeanLinear(kind.dim, oldSet, eval, q, nh), kind.dim);
    }
  }

  /** Appending a candidate of weight zero leaves the slot unchanged. */
  lemma {:induction false} ZeroWeightLastIgnored(kind: TransformKind, oldSet: TransformSet, eval: WeightEvaluator, q: nat, nh: Neighborhood, n: Neighbor)
    requires Readable(kind.dim, oldSet, nh + [n])
    requires eval(q, n.index, n.value) == 0.0
    ensures Readable(kind.dim, oldSet, nh)
    ensures Aggregate(kind, oldSet, eval, q, nh + [n]) == Aggregate(kind, oldSet, eval, q, nh)
  {
    var d := kind.dim;
    var ext := nh + [n];
    assert ext[..|ext| - 1] == nh;
    assert forall k :: 0 <= k < |nh| ==> nh[k] == ext[k];
    TermsOfPrefix(d, oldSet, eval, q, ext);
    assert TotalWeight(eval, q, ext) == TotalWeight(eval, q, nh);
    if TotalWeight(eval, q, nh) != 0.0 {
      var a := MeanLinear(d, oldSet, eval, q, ext);
      var b := MeanLinear(d, oldSet, eval, q, nh);
      forall r | 0 <= r < d
        ensures a[r] == b[r]
      {
        forall c | 0 <= c < d
          ensures a[r][c] == b[r][c]
        {
          assert Sum(LinearTerms(d, oldSet, eval, q, ext, r, c)) == Sum(LinearTerms(d, oldSet, eval, q, nh, r, c));
        }
      }
      var u := MeanTranslation(d, oldSet, eval, q, ext);
      var v := MeanTranslation(d, oldSet, eval, q, nh);
      forall r | 0 <= r < d
        ensures u[r] == v[r]
      {
        assert Sum(TranslationTerms(d, oldSet, eval, q, ext, r)) == Sum(TranslationTerms(d, oldSet, eval, q, nh, r));
      }
      assert a == b;
      assert u == v;
    }
  }

  // Each weighted sum as a sum over the candidates, so that candidates can be reordered.

  function WeightTerm(eval: WeightEvaluator, q: nat): Neighbor -> real {
    (n: Neighbor) => eval(q, n.index, n.value)
  }

  /** w * L[r][c] for one candidate (zero for a candidate that cannot be read). */
  function LinearTerm(oldSet: TransformSet, eval: WeightEvaluator, q: nat, r: nat, c: nat): Neighbor -> real {
    (n: Neighbor) =>
      if n.index < |oldSet| && r < |oldSet[n.index].linear| && c < |oldSet[n.index].linear[r]|
      then eval(q, n.index, n.value) * oldSet[n.index].linear[r][c]
      else 0.0
  }

  /** w * t[r] for one candidate (zero for a candidate that cannot be read). */
  function TranslationTerm(oldSet: TransformSet, eval: WeightEvaluator, q: nat, r: nat): Neighbor -> real {
    (n: Neighbor) =>
      if n.index < |oldSet| && r < |oldSet[n.index].translation|
      then eval(q, n.index, n.value) * oldSet[n.index].translation[r]
      else 0.0
  }

  lemma TermsAsMapped(d: nat, oldSet: TransformSet, eval: WeightEvaluator, q: nat, nh: Neighborhood)
    requires Readable(d, oldSet, nh)
    ensures Weights(eval, q, nh) == Mapped(WeightTerm(eval, q), nh)
    ensures forall r, c :: 0 <= r < d && 0 <= c < d ==>
              LinearTerms(d, oldSet, eval, q, nh, r, c) == Mapped(LinearTerm(oldSet, eval, q, r, c), nh)
    ensures forall r :: 0 <= r < d ==>
              TranslationTerms(d, oldSet, eval, q, nh, r) == Mapped(TranslationTerm(oldSet, eval, q, r), nh)
  {
    forall r, c | 0 <= r < d && 0 <= c < d
      ensures LinearTerms(d, oldSet, eval, q, nh, r, c) == Mapped(LinearTerm(oldSet, eval, q, r, c), nh)
    {
      var a := LinearTerms(d, oldSet, eval, q, nh, r, c);
      var b := Mapped(LinearTerm(oldSet, eval, q, r, c), nh);
      forall k | 0 <= k < |nh|
        ensures a[k] == b[k]
      {
        assert Shaped(oldSet[nh[k].index], d);
      }
    }
    forall r | 0 <= r < d
      ensures TranslationTerms(d, oldSet, eval, q, nh, r) == Mapped(TranslationTerm(oldSet, eval, q, r), nh)
    {
      var a := TranslationTerms(d, oldSet, eval, q, nh, r);
      var b := Mapped(TranslationTerm(oldSet, eval, q, r), nh);
      forall k | 0 <= k < |nh|
        ensures a[k] == b[k]
      {
        assert Shaped(oldSet[nh[k].index], d);
      }
    }
  }

  /** Two candidate lists with the same total weight and the same weighted sums give the same slot. */
  lemma AggregateFromSums(kind: TransformKind, oldSet: TransformSet, eval: WeightEvaluator, q: nat, nh1: Neighborhood, nh2: Neighborhood)
    requires Readable(kind.dim, oldSet, nh1) && Readable(kind.dim, oldSet, nh2)
    requires TotalWeight(eval, q, nh1) == TotalWeight(eval, q, nh2)
    requires forall r, c :: 0 <= r < kind.dim && 0 <= c < kind.dim ==>
               Sum(LinearTerms(kind.dim, oldSet, eval, q, nh1, r, c)) == Sum(LinearTerms(kind.dim, oldSet, eval, q, nh2, r, c))
    requires forall r :: 0 <= r < kind.dim ==>
               Sum(TranslationTerms(kind.dim, oldSet, eval, q, nh1, r)) == Sum(TranslationTerms(kind.dim, oldSet, eval, q, nh2, r))
    ensures Aggregate(kind, oldSet, eval, q, nh1) == Aggregate(kind, oldSet, eval, q, nh2)
  {
    var d := kind.dim;
    if TotalWeight(eval, q, nh1) != 0.0 {
      var a := MeanLinear(d, oldSet, eval, q, nh1);
      var b := MeanLinear(d, oldSet, eval, q, nh2);
      forall r | 0 <= r < d
        ensures a[r] == b[r]
      {
      }
      assert a == b;
      assert MeanTranslation(d, oldSet, eval, q, nh1) == MeanTranslation(d, oldSet, eval, q, nh2);
    }
  }

  /**
   The slot does not depend on the order in which the candidates are listed:
   any rearrangement of the list (the same candidates, with the same
   multiplicities) gives the same transform.
   */
  lemma {:induction false} CandidateOrderIrrelevant(kind: TransformKind, oldSet: TransformSet, eval: WeightEvaluator, q: nat, nh1: Neighborhood, nh2: Neighborhood)
    requires Readable(kind.dim, oldSet, nh1)
    requires multiset(nh1) == multiset(nh2)
    ensures Readable(kind.dim, oldSet, nh2)
    ensures Aggregate(kind, oldSet, eval, q, nh1) == Aggregate(kind, oldSet, eval, q, nh2)
  {
    var d := kind.dim;
    forall k | 0 <= k < |nh2|
      ensures nh2[k].index < |oldSet|
    {
      assert nh2[k] in multiset(nh1);
      var j :| 0 <= j < |nh1| && nh1[j] == nh2[k];
    }
    TermsAsMapped(d, oldSet, eval, q, nh1);
    TermsAsMapped(d, oldSet, eval, q, nh2);
    SumPermutation(WeightTerm(eval, q), nh1, nh2);
    forall r, c | 0 <= r < d && 0 <= c < d
      ensures Sum(LinearTerms(d, oldSet, eval, q, nh1, r, c)) == Sum(LinearTerms(d, oldSet, eval, q, nh2, r, c))
    {
      SumPermutation(LinearTerm(oldSet, eval, q, r, c), nh1, nh2);
    }
    forall r | 0 <= r < d
      ensures Sum(TranslationTerms(d, oldSet, eval, q, nh1, r)) == Sum(TranslationTerms(d, oldSet, eval, q, nh2, r))
    {
      SumPermutation(TranslationTerm(oldSet, eval, q, r), nh1, nh2);
    }
    AggregateFromSums(kind, oldSet, eval, q, nh1, nh2);
  }

  /**
   A candidate of weight zero is ignored wherever it stands in the list:
   removing it leaves the slot unchanged.
   */
  lemma {:induction false} ZeroWeightCandidateIgnored(kind: TransformKind, oldSet: TransformSet, eval: WeightEvaluator, q: nat,
                                                      pre: Neighborhood, n: Neighbor, post: Neighborhood)
    requires Readable(kind.dim, oldSet, pre + [n] + post)
    requires eval(q, n.index, n.value) == 0.0
    ensures Readable(kind.dim, oldSet, pre + post)
    ensures Aggregate(kind, oldSet, eval, q, pre + [n] + post) == Aggregate(kind, oldSet, eval, q, pre + post)
  {
    var nh := pre + [n] + post;
    var moved := (pre + post) + [n];
    assert multiset(nh) == multiset(moved);
    CandidateOrderIrrelevant(kind, oldSet, eval, q, nh, moved);
    ZeroWeightLastIgnored(kind, oldSet, eval, q, pre + post, n);
  }

  /** `scaled` gives every candidate of query `q` the weight `eval` gives it, times `s`. */
  predicate Rescaled(scaled: WeightEvaluator, eval: WeightEvaluator, s: real, q: nat, nh: Neighborhood) {
    forall k :: 0 <= k < |nh| ==>
      scaled(q, nh[k].index, nh[k].value) == s * eval(q, nh[k].index, nh[k].value)
  }

  /** Σ (s·x_k) / Σ (s·w_k) == Σ x_k / Σ w_k */
  lemma {:induction false} RatioOfRescaledSums(s: real, xs: seq<real>, ys: seq<real>, ws: seq<real>, vs: seq<real>)
    requires s != 0.0 && Sum(ws) != 0.0
    requires |xs| == |ys| && |ws| == |vs|
    requires forall k :: 0 <= k < |xs| ==> ys[k] == s * xs[k]
    requires forall k :: 0 <= k < |ws| ==> vs[k] == s * ws[k]
    ensures Sum(vs) != 0.0
    ensures Sum(ys) / Sum(vs) == Sum(xs) / Sum(ws)
  {
    var x, w := Sum(xs), Sum(ws);
    SumScale(s, xs, ys);
    SumScale(s, ws, vs);
    CancelFactor(s, x, w);
    NonZeroProduct(s, w);
  }

  lemma Regroup(s: real, e: real, x: real)
    ensures (s * e) * x == s * (e * x)
  {
  }

  lemma {:induction false} RescaledTerms(d: nat, oldSet: TransformSet, scaled: WeightEvaluator, eval: WeightEvaluator, s: real, q: nat, nh: Neighborhood)
    requires Readable(d, oldSet, nh)
    requires Rescaled(scaled, eval, s, q, nh)
    ensures forall k :: 0 <= k < |nh| ==> Weights(scaled, q, nh)[k] == s * Weights(eval, q, nh)[k]
    ensures forall r, c, k :: 0 <= r < d && 0 <= c < d && 0 <= k < |nh| ==>
              LinearTerms(d, oldSet, scaled, q, nh, r, c)[k] == s * LinearTerms(d, oldSet, eval, q, nh, r, c)[k]
    ensures forall r, k :: 0 <= r < d && 0 <= k < |nh| ==>
              TranslationTerms(d, oldSet, scaled, q, nh, r)[k] == s * TranslationTerms(d, oldSet, eval, q, nh, r)[k]
  {
    forall r, c, k | 0 <= r < d && 0 <= c < d && 0 <= k < |nh|
      ensures LinearTerms(d, oldSet, scaled, q, nh, r, c)[k] == s * LinearTerms(d, oldSet, eval, q, nh, r, c)[k]
    {
      Regroup(s, eval(q, nh[k].index, nh[k].value), oldSet[nh[k].index].linear[r][c]);
    }
    forall r, k | 0 <= r < d && 0 <= k < |nh|
      ensures TranslationTerms(d, oldSet, scaled, q, nh, r)[k] == s * TranslationTerms(d, oldSet, eval, q, nh, r)[k]
    {
      Regroup(s, eval(q, nh[k].index, nh[k].value), oldSet[nh[k].index].translation[r]);
    }
  }

  lemma {:induction false} RescaledMeans(d: nat, oldSet: TransformSet, scaled: WeightEvaluator, eval: WeightEvaluator, s: real, q: nat, nh: Neighborhood)
    requires Readable(d, oldSet, nh)
    requires s != 0.0 && Rescaled(scaled, eval, s, q, nh)
    requires TotalWeight(eval, q, nh) != 0.0
    ensures TotalWeight(scaled, q, nh) != 0.0
    ensures MeanLinear(d, oldSet, scaled, q, nh) == MeanLinear(d, oldSet, eval, q, nh)
    ensures MeanTranslation(d, oldSet, scaled, q, nh) == MeanTranslation(d, oldSet, eval, q, nh)
  {
    var ws := Weights(eval, q, nh);
    var vs := Weights(scaled, q, nh);
    RescaledTerms(d, oldSet, scaled, eval, s, q, nh);
    SumScale(s, ws, vs);
    var a := MeanLinear(d, oldSet, scaled, q, nh);
    var b := MeanLinear(d, oldSet, eval, q, nh);
    forall r, c | 0 <= r < d && 0 <= c < d
      ensures a[r][c] == b[r][c]
    {
      RatioOfRescaledSums(s, LinearTerms(d, oldSet, eval, q, nh, r, c), LinearTerms(d, oldSet, scaled, q, nh, r, c), ws, vs);
    }
    assert forall r :: 0 <= r < d ==> a[r] == b[r];
    var u := MeanTranslation(d, oldSet, scaled, q, nh);
    var v := MeanTranslation(d, oldSet, eval, q, nh);
    forall r | 0 <= r < d
      ensures u[r] == v[r]
    {
      RatioOfRescaledSums(s, TranslationTerms(d, oldSet, eval, q, nh, r), TranslationTerms(d, oldSet, scaled, q, nh, r), ws, vs);
    }
  }

  /**
   Multiplying every weight by the same non-zero factor leaves the slot
   unchanged: only relative weights matter after normalisation.
   */
  lemma {:induction false} UniformWeightScalingInvariant(kind: TransformKind, oldSet: TransformSet, scaled: WeightEvaluator, eval: WeightEvaluator, s: real, q: nat, nh: Neighborhood)
    requires Readable(kind.dim, oldSet, nh)
    requires s != 0.0 && Rescaled(scaled, eval, s, q, nh)
    ensures Aggregate(kind, oldSet, scaled, q, nh) == Aggregate(kind, oldSet, eval, q, nh)
  {
    RescaledTerms(kind.dim, oldSet, scaled, eval, s, q, nh);
    SumScale(s, Weights(eval, q, nh), Weights(scaled, q, nh));
    if TotalWeight(eval, q, nh) != 0.0 {
      RescaledMeans(kind.dim, oldSet, scaled, eval, s, q, nh);
    }
  }

  lemma NonZeroProduct(s: real, w: real)
    requires s != 0.0 && w != 0.0
    ensures s * w != 0.0
  {
  }

  lemma CancelFactor(s: real, x: real, w: real)
    requires s != 0.0 && w != 0.0
    ensures (s * x) / (s * w) == x / w
  {
  }
}
