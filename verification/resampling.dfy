/**
 The resampling drivers: run the per-slot aggregation once for every new
 support point, taking each candidate list either from a precomputed
 neighbourhood map or from a neighbour search over the old support points.
 Each driver exists in an in-place form (it resizes a caller-owned transform
 set and overwrites every slot) and a value-returning form that wraps it.
 */
module Resampling {
  import opened LinearAlgebra
  import opened Transforms
  import opened Neighborhoods
  import opened Aggregation

  /**
   A neighbour search over the old support points, already configured with
   its neighbourhood specification: query point to candidate list.
   */
  type NeighborSearch = Vector -> Neighborhood

  /** Every candidate list the search returns for the given queries indexes the old set. */
  predicate SearchIndexesOld(search: NeighborSearch, support: seq<Vector>, n: nat) {
    forall q :: 0 <= q < |support| ==> ValidIndices(search(support[q]), n)
  }

  /** Slot q of the precomputed-map resampling aggregates candidate list q. */
  function MapResample(kind: TransformKind, oldSet: TransformSet, eval: WeightEvaluator, nhs: NeighborhoodSet): (out: TransformSet)
    requires AllShaped(oldSet, kind.dim)
    requires AllValidIndices(nhs, |oldSet|)
    ensures |out| == |nhs|
  {
    seq(|nhs|, q requires 0 <= q < |nhs| => Aggregate(kind, oldSet, eval, q, nhs[q]))
  }

  /** Slot q of the search-driven resampling aggregates the search result for new support point q. */
  function SearchResample(kind: TransformKind, oldSet: TransformSet, eval: WeightEvaluator,
                          support: seq<Vector>, search: NeighborSearch): (out: TransformSet)
    requires AllShaped(oldSet, kind.dim)
    requires SearchIndexesOld(search, support, |oldSet|)
    ensures |out| == |support|
  {
    seq(|support|, q requires 0 <= q < |support| => Aggregate(kind, oldSet, eval, q, search(support[q])))
  }

  /** Each slot of the output depends on its own candidate list only. */
  lemma SlotIndependence(kind: TransformKind, oldSet: TransformSet, eval: WeightEvaluator,
                        nhs1: NeighborhoodSet, nhs2: NeighborhoodSet, q: nat)
    requires AllShaped(oldSet, kind.dim)
    requires AllValidIndices(nhs1, |oldSet|) && AllValidIndices(nhs2, |oldSet|)
    requires q < |nhs1| && q < |nhs2| && nhs1[q] == nhs2[q]
    ensures MapResample(kind, oldSet, eval, nhs1)[q] == MapResample(kind, oldSet, eval, nhs2)[q]
  {
  }

  /**
   When the search returns, for every new support point, the list the map
   holds for that point, both drivers produce the same transform set.
   */
  lemma DriversAgree(kind: TransformKind, oldSet: TransformSet, eval: WeightEvaluator,
                    nhs: NeighborhoodSet, support: seq<Vector>, search: NeighborSearch)
    requires AllShaped(oldSet, kind.dim)
    requires AllValidIndices(nhs, |oldSet|)
    requires |support| == |nhs|
    requires forall q :: 0 <= q < |support| ==> search(support[q]) == nhs[q]
    ensures SearchIndexesOld(search, support, |oldSet|)
    ensures SearchResample(kind, oldSet, eval, support, search) == MapResample(kind, oldSet, eval, nhs)
  {
  }

  /**
   Resizing a transform set keeps the surviving prefix; new slots hold an
   unspecified placeholder (the C++ code leaves them uninitialised).
   */
  function Resize(ts: TransformSet, n: nat): (r: TransformSet)
    ensures |r| == n
    ensures forall k :: 0 <= k < n && k < |ts| ==> r[k] == ts[k]
  {
    if n <= |ts| then ts[..n] else ts + seq(n - |ts|, _ => Transform([], []))
  }

  /**
   In-place precomputed-map resampling: resize the output to one slot per
   candidate list, then overwrite every slot. Whatever `prior` held does not
   reach the result.
   */
  method ResampleInto(kind: TransformKind, oldSet: TransformSet, nhs: NeighborhoodSet,
                      prior: TransformSet, eval: WeightEvaluator)
    returns (out: TransformSet)
    requires AllShaped(oldSet, kind.dim)
    requires AllValidIndices(nhs, |oldSet|)
    ensures |out| == |nhs|
    ensures out == MapResample(kind, oldSet, eval, nhs)
  {
    out := Resize(prior, |nhs|);
    var q := 0;
    while q < |out|
      invariant |out| == |nhs|
      invariant 0 <= q <= |out|
      invariant forall k :: 0 <= k < q ==> out[k] == Aggregate(kind, oldSet, eval, k, nhs[k])
    {
      var t := AggregateSlot(kind, oldSet, eval, q, nhs[q]);
      out := out[q := t];
      q := q + 1;
    }
  }

  /** Value-returning precomputed-map resampling: the in-place form on a fresh set. */
  method Resample(kind: TransformKind, oldSet: TransformSet, nhs: NeighborhoodSet, eval: WeightEvaluator)
    returns (out: TransformSet)
    requires AllShaped(oldSet, kind.dim)
    requires AllValidIndices(nhs, |oldSet|)
    ensures out == MapResample(kind, oldSet, eval, nhs)
  {
    out := ResampleInto(kind, oldSet, nhs, [], eval);
  }

  /**
   In-place search-driven resampling: resize the output to one slot per new
   support point, search the neighbours of each point, and aggregate them.
   */
  method ResampleBySearchInto(kind: TransformKind, oldSet: TransformSet, support: seq<Vector>,
                              search: NeighborSearch, prior: TransformSet, eval: WeightEvaluator)
    returns (out: TransformSet)
    requires AllShaped(oldSet, kind.dim)
    requires SearchIndexesOld(search, support, |oldSet|)
    ensures |out| == |support|
    ensures out == SearchResample(kind, oldSet, eval, support, search)
  {
    out := Resize(prior, |support|);
    var q := 0;
    while q < |out|
      invariant |out| == |support|
      invariant 0 <= q <= |out|
      invariant forall k :: 0 <= k < q ==> out[k] == Aggregate(kind, oldSet, eval, k, search(support[k]))
    {
      var nn := search(support[q]);
      var t := AggregateSlot(kind, oldSet, eval, q, nn);
      out := out[q := t];
      q := q + 1;
    }
  }

  /** Value-returning search-driven resampling: the in-place form on a fresh set. */
  method ResampleBySearch(kind: TransformKind, oldSet: TransformSet, support: seq<Vector>,
                          search: NeighborSearch, eval: WeightEvaluator)
    returns (out: TransformSet)
    requires AllShaped(oldSet, kind.dim)
    requires SearchIndexesOld(search, support, |oldSet|)
    ensures out == SearchResample(kind, oldSet, eval, support, search)
  {
    out := ResampleBySearchInto(kind, oldSet, support, search, [], eval);
  }
}
