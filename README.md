# Batch requests and label balancing in gunpowder

This project models two parts of gunpowder, a pull-based pipeline for volumetric data, and proves properties of the model:

- **`BatchRequest`** is a collection of array and graph specs that a downstream consumer asks for.
  - `add` inserts a spec with a zero-offset ROI of a given shape. It then re-centres every ROI of the request on the centre of the request's total ROI.
  - `copy` clones a request.
  - `merge` combines two requests key by key: a nonspatial entry is overwritten by an incoming array spec, and any other shared entry takes the union of both ROIs.
- **`BalanceLabels`** is a pipeline stage that computes a per-voxel loss weighting, `scales`, from binary labels and optional masks.
  - `setup` checks that the labels and every mask are provided upstream. It then declares `scales` with the labels' spec and dtype float32.
  - `prepare` withholds `scales` from the upstream request, and skips the next batch if `scales` was not requested.
  - `process` writes the mask product times the inverse-frequency class weight of each voxel. The positive fraction is clamped to [0.05, 0.95].

The modules follow the program's structure:

- `Wrappers` holds Option, Result and Outcome.
- `Streams` holds keys, dtypes and the errors raised.
- `Rois` holds ROI arithmetic: centre, shift, union and containment.
- `Specs` holds array and graph specs and the total ROI.
- `BatchRequests` holds the request class, its centring pass and merge.
- `BalanceLabelsNode` holds the stage class, the batch and the weighting arithmetic.

Objects gunpowder updates in place are classes:

- `BatchRequests.BatchRequest` has an insertion-ordered key list and a spec map.
- `BalanceLabelsNode.BalanceLabels` has its skip flag, its spec and its provided keys as fields.
- `BalanceLabelsNode.Batch` has its volume map.

The loops of gunpowder are methods with loop invariants:

- the centring loop is `MoveAllTo`;
- the merge loop is `MergeEntries` and `MergeOne`;
- the mask loop of `process` is `ScaleByMasks`;
- the `setup` mask check is a loop inside `Setup`.

The error scale is an `array<real>` multiplied in place. Raised exceptions become `Fail`/`Failure` values that carry an `Error`.

Points where the code's behaviour is easy to misread:

- **Centring.** `__center_rois` (gunpowder/batch_request.py:68-71) moves nonspatial specs too, although the total ROI leaves them out. It fails on a spec without a ROI.
- **Prepare.** `prepare` (gunpowder/nodes/balance_labels.py:54-59) only deletes `scales` from the request; it requests no extra upstream keys.
- **All-negative labels.** With all-zero labels and no mask, the code gives a uniform scale of 1/1.9 ≈ 0.526: the fraction clamps to 0.05, so `w_neg = 1/(2·0.95)`. `AllNegative` proves this.
- **Centre rounding.** The centre of a ROI is `offset + shape / 2`, rounded down to the integer grid.

## Model

| member | source | states |
|---|---|---|
| Rois.Recentre | gunpowder/batch_request.py:70-71 | shifting a ROI by `c - centre` keeps its shape and dimension and gives it centre `c` |
| Rois.Union | gunpowder/batch_request.py:87 | the union succeeds exactly when both ROIs have the same dimension, fails with DimensionMismatch otherwise, and contains both operands |
| Rois.UnionCommutes | gunpowder/batch_request.py:87 | the union does not depend on the order of its operands |
| Rois.UnionLeast | gunpowder/batch_request.py:87 | any ROI containing both operands contains their union (the union is the smallest covering box) |
| Rois.UnionIdempotent | gunpowder/batch_request.py:87 | the union of a ROI with itself is that ROI |
| Rois.UnionAssociative | gunpowder/batch_request.py:87 | for ROIs of one dimension, the grouping of successive unions does not change the result |
| Rois.UnionConcentric | gunpowder/batch_request.py:62-71 | two ROIs with the same centre have a union with that centre, so centring is stable under union |
| Specs.TotalRoiNone | gunpowder/batch_request.py:62-64 | the total ROI is None exactly when no entry is spatial with a ROI, the case where centring returns at once |
| Specs.TotalRoiCovers | gunpowder/batch_request.py:62-66 | a defined total ROI contains the ROI of every spatial entry |
| Specs.TotalRoiLeast | gunpowder/batch_request.py:62-66 | a defined total ROI lies within any ROI containing every spatial ROI; with TotalRoiCovers it is the smallest covering box, whatever the visiting order |
| Specs.TotalRoiDefined | gunpowder/batch_request.py:62 | the total ROI can be computed exactly when all spatial ROIs have the same dimension |
| Specs.TotalRoiConcentric | gunpowder/batch_request.py:62-71 | when every spatial ROI has centre `c`, the total ROI exists and, if not None, has centre `c` |
| BatchRequests.NewKeys | gunpowder/batch_request.py:80-82 | the keys of the second request that the first lacks, each once |
| BatchRequests.NewKeysSnoc | gunpowder/batch_request.py:80-82 | visiting one more key of the second request appends it to the new keys exactly when the first request lacks it, so new keys come in the second request's order |
| BatchRequests.MoveTo | gunpowder/batch_request.py:70-71 | one entry after centring: only its ROI moves, the shape is unchanged and the centre is `c` |
| BatchRequests.Recentred | gunpowder/batch_request.py:68-71 | centring keeps the keys and every non-ROI field, keeps every ROI's shape, and centres each ROI on `c` |
| BatchRequests.RecentredCentred | gunpowder/batch_request.py:59-71 | after re-centring on `c`, with one entry spatial, the request is well formed, its total ROI has centre `c` and every ROI's centre equals the total ROI's centre |
| BatchRequests.CentringEstablishes | gunpowder/batch_request.py:59-71 | a centring pass that succeeds leaves all ROIs centred on the new total ROI's centre, and a spatial entry only translated |
| BatchRequests.AddEstablishes | gunpowder/batch_request.py:52-53 | after inserting the spec and centring: the keys are unchanged, and on success the request is centred and the new entry is the requested spec with only its ROI moved, keeping its shape |
| BatchRequests.RecentreInPlace | gunpowder/batch_request.py:71 | shifting a ROI to the centre it already has leaves it unchanged |
| BatchRequests.CentringIdempotent | gunpowder/batch_request.py:59-71 | centring a request that is already centred passes and changes nothing |
| BatchRequests.MergeEntry | gunpowder/batch_request.py:83-87 | a shared key's merged spec is either the incoming spec, or the existing spec with only its ROI changed |
| BatchRequests.MergeEntryRule | gunpowder/batch_request.py:84-87 | an incoming ArraySpec overwrites a nonspatial entry; otherwise an entry without ROI fails with MissingRoi, an incoming spec without ROI leaves the entry unchanged, and two ROIs give the entry with their union, or the union's error |
| BatchRequests.MergeEntryCovers | gunpowder/batch_request.py:86-87 | outside the overwrite case, the merged spec keeps the existing fields and its ROI contains both given ROIs |
| BatchRequests.MergeEntrySelf | gunpowder/batch_request.py:80-87 | merging a spec with itself gives it back, and fails only for a spatial or graph spec without a ROI |
| BatchRequests.BatchRequest.constructor | gunpowder/batch_request.py:9 | a new request is empty and well formed |
| BatchRequests.BatchRequest.Put | gunpowder/batch_request.py:52 | `self[key] = spec` maps the key to the spec, appends a new key to the order and keeps an existing key's place |
| BatchRequests.BatchRequest.Remove | gunpowder/nodes/balance_labels.py:58 | `del request[key]` fails with MissingSpec exactly when the key is absent, and otherwise removes the key from the map and the order |
| BatchRequests.BatchRequest.Copy | gunpowder/batch_request.py:55-57 | the copy is a fresh object with the same entries in the same order |
| BatchRequests.BatchRequest.CenterRois | gunpowder/batch_request.py:59-71 | centring fails with the total ROI's error, does nothing when the total ROI is None, otherwise centres every ROI on its centre or fails at an entry it cannot move |
| BatchRequests.BatchRequest.Add | gunpowder/batch_request.py:16-53 | add: an unsupported key fails and changes nothing; otherwise the key is present, a previous spec is replaced, the new ROI has the given shape and the voxel size only when given; on success the request is centred on the total ROI's centre |
| BatchRequests.BatchRequest.Merge | gunpowder/batch_request.py:73-89 | merge returns a fresh request whose keys are the union, with one side's spec for unshared keys and MergeEntry for shared ones; it fails exactly when a shared key cannot be merged; neither input changes and nothing is re-centred |
| BatchRequests.MoveAllTo | gunpowder/batch_request.py:68-71 | the centring loop keeps the keys, only translates ROIs, succeeds exactly when every entry can move, and then yields `Recentred` |
| BatchRequests.MergeEntries | gunpowder/batch_request.py:78-89 | the merge loop gives the merged order (the first request's order, then the new keys) and the merged map, or the error of a shared key |
| BatchRequests.MergeOne | gunpowder/batch_request.py:80-87 | one merge iteration appends a new key, or combines a shared key, or fails with MergeEntry's error for that key |
| BalanceLabelsNode.Clip | gunpowder/nodes/balance_labels.py:88 | the clamp lies within the bounds and leaves a value inside them unchanged |
| BalanceLabelsNode.Binarize | gunpowder/nodes/balance_labels.py:85 | `floor(clip(x + 0.5, 0, 1))` is 1 exactly when `x >= 0.5`, else 0 |
| BalanceLabelsNode.FracPos | gunpowder/nodes/balance_labels.py:84-88 | the positive fraction lies in [0.05, 0.95]; when nothing is masked in it is 0 before the clamp (so 0.05 after); an unclamped ratio in range is kept |
| BalanceLabelsNode.MaskProblem | gunpowder/nodes/balance_labels.py:73-80 | the mask loop raises nothing exactly when every mask is in the batch with the labels' shape |
| BalanceLabelsNode.MultiplyInPlace | gunpowder/nodes/balance_labels.py:81 | `error_scale *= m` leaves the elementwise product in the array |
| BalanceLabelsNode.ApplyClassWeights | gunpowder/nodes/balance_labels.py:83-96 | the weighting step leaves in the array the error scale multiplied by the class weights from the clamped fraction |
| BalanceLabelsNode.ScaleByMasks | gunpowder/nodes/balance_labels.py:69-81 | the mask loop starts from ones and raises the first missing or misshaped mask's error; without error the array holds the product of all masks |
| BalanceLabelsNode.BalanceLabels.constructor | gunpowder/nodes/balance_labels.py:27-38 | no mask gives an empty list, one key gives a singleton, a collection is kept; skip_next starts false |
| BalanceLabelsNode.BalanceLabels.Provides | gunpowder/nodes/balance_labels.py:52 | provides records the key with its spec |
| BalanceLabelsNode.BalanceLabels.Setup | gunpowder/nodes/balance_labels.py:40-52 | setup passes exactly when the labels and every mask are provided upstream; failure names the labels or the first missing mask and provides nothing; on success scales is provided with the labels' spec and dtype float32 |
| BalanceLabelsNode.BalanceLabels.Prepare | gunpowder/nodes/balance_labels.py:54-59 | skip_next is set exactly when scales is not requested, and scales is removed from the request, which is otherwise unchanged |
| BalanceLabelsNode.BalanceLabels.Process | gunpowder/nodes/balance_labels.py:61-100 | when skipping: the flag is reset and the batch unchanged; otherwise scales gets `Expected`'s volume with no other volume changed, or the batch is left unchanged with the error |
| BalanceLabelsNode.WeightsBounded | gunpowder/nodes/balance_labels.py:88-93 | with the fraction clamped, both class weights lie in [1/1.9, 10] |
| BalanceLabelsNode.MaskProductZero | gunpowder/nodes/balance_labels.py:70-81 | the error scale is 0 at a voxel exactly when some mask is 0 there |
| BalanceLabelsNode.ScalesAt | gunpowder/nodes/balance_labels.py:95-96 | each output voxel is the mask product times `w_pos` for labels from 0.5 up and `w_neg` below |
| BalanceLabelsNode.ClassWeightOf | gunpowder/nodes/balance_labels.py:96 | the class weight of a binarised label is `w_pos` from 0.5 up and `w_neg` below |
| BalanceLabelsNode.ScalesZero | gunpowder/nodes/balance_labels.py:81-96 | an output voxel is 0 exactly when some mask is 0 there |
| BalanceLabelsNode.ScalesRange | gunpowder/nodes/balance_labels.py:88-96 | with 0/1 masks every output voxel is 0 or lies in [1/1.9, 10] |
| BalanceLabelsNode.Balance | gunpowder/nodes/balance_labels.py:83-96 | when the fraction needs no clamping, the weighted positive voxels sum to half the masked-in total and all scales sum to the masked-in total |
| BalanceLabelsNode.AllPositiveFraction | gunpowder/nodes/balance_labels.py:84-88 | all labels positive and no mask: the fraction is 1 and clamps to 0.95 |
| BalanceLabelsNode.AllPositive | gunpowder/nodes/balance_labels.py:83-96 | all labels positive and no mask: every scale is 1/1.9 |
| BalanceLabelsNode.AllNegative | gunpowder/nodes/balance_labels.py:83-96 | all labels negative and no mask: the fraction clamps to 0.05 and every scale is 1/1.9 |
| BalanceLabelsNode.ZeroMask | gunpowder/nodes/balance_labels.py:84-96 | an all-zero mask: the fraction is 0 before the clamp (0.05 after) and every scale is 0 |
| BalanceLabelsNode.ExpectedOutput | gunpowder/nodes/balance_labels.py:67-100 | process succeeds exactly when the labels, every mask with the labels' shape, and the scales spec are there; the output has the labels' shape, ROI and voxel count and the scales spec's other fields, and is 0 exactly where a mask is 0 |

## Left out

- Roi internals are not part of this model. `Roi` and `Coordinate` live in gunpowder/roi.py and gunpowder/coordinate.py. The model gives them the offset/shape box arithmetic the core uses: an integer centre rounded down, an exclusive upper corner, and a union that fails on differing dimensions. A union with a None incoming ROI keeps the existing ROI.
- `get_total_roi` and the dictionary behaviour of `ProviderSpec` are not part of this model (gunpowder/provider_spec.py). The model defines the total ROI as the union of the spatial ROIs in insertion order. It models the dictionary as an insertion-ordered key list plus a map.
- `BatchFilter.provides` is not part of this model (gunpowder/nodes/batch_filter.py). It is modelled as a spec-map update plus recording the key in `provided`.
- BalanceLabelsNode.BalanceLabels.Process: it computes in exact reals, not in float32. IEEE rounding is not modelled, so the bounds and the balance identity hold exactly in the model.
- BalanceLabelsNode.BalanceLabels.Process: its `request` parameter is unused by gunpowder and is dropped.
- BatchRequests.BatchRequest.Add: shapes are not required to be non-negative, and a negative odd shape component has its half rounded down (-3 / 2 = -2); gunpowder's coordinate division for negative components is not part of this model.
- BatchRequests.BatchRequest.Add: the centre is rounded down to integers. Where a shape component is odd, ROIs are centred on that grid point, not on a fractional centre.
- Visiting order: gunpowder keeps array specs and graph specs in two dictionaries and visits every array key before any graph key (gunpowder/batch_request.py:68). The model keeps one insertion order across both kinds of key: if a graph key is added before an array key, the model visits the graph key first. The total ROI does not depend on this order (TotalRoiCovers and TotalRoiLeast make it the smallest box covering the spatial ROIs), and neither do the keys and specs of a successful centring or merge. What does depend on it: which error a failing pass raises, the state a failed centring pass leaves, and `Merge`'s result order `order + NewKeys(...)`, which is the insertion order, not gunpowder's arrays-then-graphs iteration order.
- BatchRequests.BatchRequest.CenterRois: a pass that fails part-way leaves some ROIs already shifted, as gunpowder's loop does. The contract states only that every entry is translated and which entry raised, not which prefix moved.
- BatchRequests.BatchRequest.Copy: deep copying makes the copy independent. Spec values are immutable in the model, so aliasing between the copy and the original cannot arise. In gunpowder, `merge` stores the incoming request's spec object itself both for a new key (gunpowder/batch_request.py:82) and when it overwrites a nonspatial entry (gunpowder/batch_request.py:85); here both are value copies, so later in-place changes to one request cannot show in the other.
- BalanceLabelsNode.BalanceLabels.constructor: `isinstance(mask, collections.Iterable)` becomes a tagged `MaskArg`. Keys that are themselves iterable are not distinguished.
- The voxel size of a GraphSpec is kept as a plain field, like that of an ArraySpec.
- Logging, the assertion messages, numpy dtypes other than float32, and the pipeline's concurrency are left out. The skip flag is shared between `prepare` and `process` for one batch at a time.
