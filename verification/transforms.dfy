/**
 Transforms of a fixed dimension: a square linear part and a translation,
 and the transform "type" they belong to (its dimension, whether it is a
 general affine transform or an isometry, and the routine that extracts the
 rotation factor of a linear part).
 */
module Transforms {
  import opened LinearAlgebra

  datatype Mode = General | Isometry

  datatype Transform = Transform(linear: Matrix, translation: Vector)

  /**
   The compile-time properties of a transform type: its dimension, its mode,
   and its rotation-extraction routine (a polar/SVD factorisation in the
   numeric library, taken here as given).
   */
  datatype TransformKind = TransformKind(dim: nat, mode: Mode, rotation: Matrix -> Matrix)

  /** A transform set is positional: slot k belongs to support point k. */
  type TransformSet = seq<Transform>

  predicate Shaped(t: Transform, d: nat) {
    IsMatrix(t.linear, d) && IsVector(t.translation, d)
  }

  predicate AllShaped(ts: TransformSet, d: nat) {
    forall k :: 0 <= k < |ts| ==> Shaped(ts[k], d)
  }

  /** Identity linear part, zero translation. */
  function IdentityTransform(d: nat): Transform {
    Transform(IdentityMatrix(d), ZeroVector(d))
  }
}
