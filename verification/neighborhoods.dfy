/**
 Candidate lists: for one query, an ordered list of (old-transform index,
 value) pairs, as produced by a neighbour search or supplied precomputed,
 and the weights a weight evaluator assigns to them.
 */
module Neighborhoods {
  import opened LinearAlgebra

  datatype Neighbor = Neighbor(index: nat, value: real)

  type Neighborhood = seq<Neighbor>

  /** One candidate list per query slot. */
  type NeighborhoodSet = seq<Neighborhood>

  /** weight(query index, candidate index, candidate value). */
  type WeightEvaluator = (nat, nat, real) -> real

  /** Every candidate refers to one of the `n` old transforms. */
  predicate ValidIndices(nh: Neighborhood, n: nat) {
    forall k :: 0 <= k < |nh| ==> nh[k].index < n
  }

  predicate AllValidIndices(nhs: NeighborhoodSet, n: nat) {
    forall q :: 0 <= q < |nhs| ==> ValidIndices(nhs[q], n)
  }

  /** The weight of each candidate of query `q`, in list order. */
  function Weights(eval: WeightEvaluator, q: nat, nh: Neighborhood): seq<real> {
    seq(|nh|, k requires 0 <= k < |nh| => eval(q, nh[k].index, nh[k].value))
  }

  function TotalWeight(eval: WeightEvaluator, q: nat, nh: Neighborhood): real {
    Sum(Weights(eval, q, nh))
  }
}
