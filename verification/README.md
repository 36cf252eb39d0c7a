# Transform-field resampling (cilantro `resampleTransforms`), modelled in Dafny

cilantro represents a deformation as a field of transforms anchored at a
sparse set of support points. `resampleTransforms` moves such a field onto a
new set of support points. For every new point (query slot `q`) it takes a
candidate list of `(old index, value)` pairs and asks a weight evaluator for
`w = weight(q, index, value)`. It accumulates `W = Σ w`, `Σ w·L` over the
linear parts and `Σ w·t` over the translations, all from zero. It then does
one of two things:

- if `W` is exactly zero, the slot becomes the identity transform;
- otherwise both sums are multiplied by `1/W`, and for isometry transforms
  the averaged linear part is replaced by its rotation factor. The
  translation is never projected.

The candidate lists come either from a precomputed neighbourhood map or
from a KD-tree search per new support point. Each driver has an in-place
form and a value-returning wrapper.

Files and modules:

- `linear_algebra.dfy` (`LinearAlgebra`): real vectors and square matrices as sequences of rows, finite sums, and column orthonormality.
- `transforms.dfy` (`Transforms`): `Transform` (linear part plus translation) and `TransformKind`. `TransformKind` stands for the C++ transform type: its dimension, its `General`/`Isometry` mode and its `rotation()` routine.
- `neighborhoods.dfy` (`Neighborhoods`): candidate lists, the weight-evaluator type and per-candidate weights.
- `aggregation.dfy` (`Aggregation`): the shared per-slot body. `Accumulate` is the accumulation loop and `Aggregate` is the zero test, normalisation and projection. `AggregateSlot` is the same body written imperatively. `MeanLinear` and `MeanTranslation` are the reference definitions `(Σ w·X) / W`, computed entry by entry.
- `aggregation_laws.dfy` (`AggregationLaws`): lemmas about one slot.
- `resampling.dfy` (`Resampling`): the two drivers as pure functions, their in-place and value-returning methods, slot independence and driver equivalence.
- `scenarios.dfy` (`Scenarios`): two slots worked out exactly.

Scalars are `real`, so the `== 0` test and the reciprocal multiply are exact.
Three collaborators become parameters: the weight evaluator (`(nat, nat, real) -> real`),
the configured KD-tree search (`Vector -> Neighborhood`) and `rotation()` (`Matrix -> Matrix`).

The model follows these details of the code:

- The code multiplies by `1/W`; it does not divide by `W`. Over the reals the two agree, and `Aggregation.NormalisedSums` proves it.
- An out-of-range candidate index is not reported as an error. The code indexes `old_transforms` unchecked, so valid indices are a precondition (`Readable`, `AllValidIndices`, `SearchIndexesOld`).
- Weights are not required to be non-negative. The fallback tests the SUM, so weights that cancel (for example `+1` and `-1`) also give the identity. `AggregationLaws.FallbackIffNoContribution` covers the non-negative case.
- Single-candidate exactness holds for any non-zero weight.

## Model

| member | source | states |
|---|---|---|
| `Aggregation.Accumulate` | include/cilantro/warp_field_utilities.hpp:19-27 | The accumulation loop, run from zeroed accumulators, yields a d×d matrix and a d-vector. Its weight is the sum of all candidate weights. Entry `[r][c]` of its linear part is `Σ w_k·L_k[r][c]`, and entry `r` of its translation is `Σ w_k·t_k[r]`. |
| `Aggregation.NormalisedSums` | include/cilantro/warp_field_utilities.hpp:32-37 | Multiplying the accumulated sums by the reciprocal `1/W` gives exactly the weighted means `(Σ w·L)/W` and `(Σ w·t)/W`. |
| `Aggregation.Aggregate` | include/cilantro/warp_field_utilities.hpp:29-38 | Total weight exactly zero gives the identity transform in both modes. Otherwise the translation is `(Σ w·t)/W` in both modes. The linear part is `(Σ w·L)/W` in general mode and `rotation((Σ w·L)/W)` in isometry mode. |
| `Aggregation.AggregateSlot` | include/cilantro/warp_field_utilities.hpp:18-38 | The imperative per-slot body (zero the accumulators, add each weighted candidate in list order, then reset or normalise and project) computes exactly `Aggregate`. |
| `AggregationLaws.ZeroWeightFallback` | include/cilantro/warp_field_utilities.hpp:29-30 | If every candidate weighs zero, including the empty list, the slot is the identity transform in either mode. |
| `AggregationLaws.FallbackIffNoContribution` | include/cilantro/warp_field_utilities.hpp:22-29 | With non-negative weights the total is non-negative. It is zero if and only if every candidate's weight is zero. |
| `AggregationLaws.SingleCandidateExact` | include/cilantro/warp_field_utilities.hpp:22-38 | A single candidate with non-zero weight reproduces its old transform in general mode. In isometry mode the translation is kept and the linear part is the rotation factor of the old linear part. |
| `AggregationLaws.ModeOnlyAffectsLinear` | include/cilantro/warp_field_utilities.hpp:34-37 | General and isometry mode give the same translation and the same zero-weight identity. When `W ≠ 0` the isometry linear part is `rotation` of the general-mode linear part. |
| `AggregationLaws.IsometryOutputOrthogonal` | include/cilantro/warp_field_utilities.hpp:29-36 | In isometry mode every output linear part is orthogonal, provided `rotation()` returns orthogonal matrices. The fallback identity is proved orthogonal. |
| `AggregationLaws.CandidateOrderIrrelevant` | include/cilantro/warp_field_utilities.hpp:22-37 | Rearranging a candidate list (the same candidates with the same multiplicities, in any order) leaves the slot's output unchanged, even though the loop adds the candidates in list order. |
| `AggregationLaws.ZeroWeightCandidateIgnored` | include/cilantro/warp_field_utilities.hpp:22-27 | Removing a candidate whose weight is zero, wherever it stands in the list, leaves the slot's output unchanged. |
| `AggregationLaws.UniformWeightScalingInvariant` | include/cilantro/warp_field_utilities.hpp:22-37 | Multiplying every candidate weight by the same non-zero factor leaves the slot's output unchanged. |
| `Resampling.MapResample` | include/cilantro/warp_field_utilities.hpp:15-18 | Size law for map mode: one output transform per candidate list. |
| `Resampling.SearchResample` | include/cilantro/warp_field_utilities.hpp:61-66 | Size law for search mode: one output transform per new support column. |
| `Resampling.SlotIndependence` | include/cilantro/warp_field_utilities.hpp:18-21 | Two neighbourhood maps that agree on slot `q` produce the same transform in slot `q`. A slot reads no other slot's list or output. |
| `Resampling.DriversAgree` | include/cilantro/warp_field_utilities.hpp:64-86 | If the search returns `map[q]` for every new support point `q`, the search driver's result equals the map driver's result, slot for slot. |
| `Resampling.Resize` | include/cilantro/warp_field_utilities.hpp:15 | Resizing gives the requested length and keeps the surviving prefix. |
| `Resampling.ResampleInto` | include/cilantro/warp_field_utilities.hpp:10-40 | The in-place map driver returns one slot per candidate list, each slot being that list's aggregate. The prior contents of the output set do not affect the result. |
| `Resampling.Resample` | include/cilantro/warp_field_utilities.hpp:43-50 | The value-returning map overload returns exactly the in-place result. |
| `Resampling.ResampleBySearchInto` | include/cilantro/warp_field_utilities.hpp:54-88 | The in-place search driver returns one slot per new support point, each slot aggregating the search result for that point. The prior contents do not affect the result. |
| `Resampling.ResampleBySearch` | include/cilantro/warp_field_utilities.hpp:91-100 | The value-returning search overload returns exactly the in-place result. |
| `Scenarios.TwoRotationBlend` | include/cilantro/warp_field_utilities.hpp:22-37 | Example: identity and quarter-turn rotations blended at weights 0.5 and 0.5. The translation is the midpoint. The general-mode linear part is `[[0.5,-0.5],[0.5,0.5]]`; in isometry mode it is `rotation` of that matrix. |
| `Scenarios.EmptyNeighborhoodIsIdentity` | include/cilantro/warp_field_utilities.hpp:29-30 | An empty candidate list gives the identity linear part and the zero translation. |

## Left out

- OpenMP `parallel for` scheduling and the per-thread private `nn` buffer are not modelled. The loops are sequential, and independence is stated by `Resampling.SlotIndependence`.
- The KD-tree, its search algorithm and `NeighborhoodSpecT` are left out. A configured search is a function parameter from query point to candidate list.
- `rotation()` is left out: it is a polar/SVD factorisation inside the numeric library. It is a function parameter, and whether a given transform type's `rotation()` really orthogonalises is not part of this model.
- Floating-point rounding is not modelled; scalars are exact reals.
- The `enable_if` / `HasLinear` / `HasTranslation` gating and the Eigen storage layout are replaced by an explicit `TransformKind`.
- The default `UnityWeightEvaluator` is not part of this model. The evaluator is always passed explicitly.
- An out-of-range candidate index is a precondition, not an error result. The code performs unchecked indexing there, so there is no behaviour to model.
- New support points are not checked to have dimension `d`. Only the search reads them.
- Slots that `resize` adds hold a placeholder value, because the C++ code leaves them uninitialised. Every slot is overwritten before it is read.
- The in-place drivers assume that the output set is a different object from the old set. If a caller passes the same set for both, the C++ code zeroes slot `i` before it reads the candidates of slot `i`, so such a call can see zeroed or already overwritten old transforms. `Resampling.ResampleInto` and `Resampling.ResampleBySearchInto` take the old set by value and do not model that case.
- Projective transform types are not modelled. `Mode` has only `General` (affine) and `Isometry`. For a projective transform the C++ code never writes the bottom row of the homogeneous matrix, so that row would keep whatever the output slot held.
- AggregationLaws.IsometryOutputOrthogonal: orthogonality is proved only under the hypothesis that `rotation()` returns orthogonal matrices, because the factorisation is not modelled.
- Scenarios.TwoRotationBlend: the isometry-mode result is stated as `rotation` of the halfway matrix, not as the exact 45-degree rotation, because `rotation()` is a parameter.
