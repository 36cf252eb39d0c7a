/**
 Two concrete slots worked out exactly: blending the identity rotation with
 the quarter-turn rotation in the plane at equal weights, and a slot with no
 candidates.
 */
module Scenarios {
  import opened LinearAlgebra
  import opened Transforms
  import opened Neighborhoods
  import opened Aggregation

  function QuarterTurn(): Matrix {
    [[0.0, -1.0], [1.0, 0.0]]
  }

  /** Entrywise average of the identity and the quarter turn. */
  function HalfwayBlend(): Matrix {
    [[0.5, -0.5], [0.5, 0.5]]
  }

  lemma {:induction false} SumOfTwo(s: seq<real>)
    requires |s| == 2
    ensures Sum(s) == s[0] + s[1]
  {
    assert s[..1][..0] == [];
    assert Sum(s[..1]) == s[0];
  }

  /**
   Old transforms: the identity rotation with translation `a` and the
   quarter turn with translation `b`. Both candidates weigh 0.5. The blended
   linear part is the halfway matrix (in isometry mode, its rotation factor)
   and the translation is the midpoint of `a` and `b`.
   */
  lemma {:induction false} TwoRotationBlend(kind: TransformKind, a: Vector, b: Vector, eval: WeightEvaluator, q: nat, v0: real, v1: real)
    requires kind.dim == 2 && |a| == 2 && |b| == 2
    requires eval(q, 0, v0) == 0.5 && eval(q, 1, v1) == 0.5
    ensures var oldSet := [Transform(IdentityMatrix(2), a), Transform(QuarterTurn(), b)];
            var t := Aggregate(kind, oldSet, eval, q, [Neighbor(0, v0), Neighbor(1, v1)]);
            && t.translation == [(a[0] + b[0]) / 2.0, (a[1] + b[1]) / 2.0]
            && (kind.mode == General ==> t.linear == HalfwayBlend())
            && (kind.mode == Isometry ==> t.linear == kind.rotation(HalfwayBlend()))
  {
    var oldSet := [Transform(IdentityMatrix(2), a), Transform(QuarterTurn(), b)];
    var nh := [Neighbor(0, v0), Neighbor(1, v1)];
    var id := IdentityMatrix(2);
    assert id[0] == [1.0, 0.0] && id[1] == [0.0, 1.0];
    assert Readable(2, oldSet, nh);
    SumOfTwo(Weights(eval, q, nh));
    assert TotalWeight(eval, q, nh) == 1.0;
    var ml := MeanLinear(2, oldSet, eval, q, nh);
    forall r, c | 0 <= r < 2 && 0 <= c < 2
      ensures ml[r][c] == HalfwayBlend()[r][c]
    {
      SumOfTwo(LinearTerms(2, oldSet, eval, q, nh, r, c));
    }
    assert ml[0] == HalfwayBlend()[0] && ml[1] == HalfwayBlend()[1];
    assert ml == HalfwayBlend();
    var mt := MeanTranslation(2, oldSet, eval, q, nh);
    forall r | 0 <= r < 2
      ensures mt[r] == (a[r] + b[r]) / 2.0
    {
      SumOfTwo(TranslationTerms(2, oldSet, eval, q, nh, r));
    }
    assert mt == [(a[0] + b[0]) / 2.0, (a[1] + b[1]) / 2.0];
  }

  /** A slot with no candidates is the identity, whatever the old set and mode. */
  lemma EmptyNeighborhoodIsIdentity(kind: TransformKind, oldSet: TransformSet, eval: WeightEvaluator, q: nat)
    requires AllShaped(oldSet, kind.dim)
    ensures Aggregate(kind, oldSet, eval, q, []) == Transform(IdentityMatrix(kind.dim), ZeroVector(kind.dim))
  {
  }
}
