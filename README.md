# A verified model of the bullet trainer core

bullet is a neural-network trainer for chess engines, written in Rust. This project models
six parts of it in Dafny and proves their properties:

- **The graph construction engine** (`GraphBuilder`, module `Builder`). It keeps an arena of
  node records and hands out `Node` handles: an arena index, a shape and a sparsity. It also
  maintains the sets of roots, inputs, weights and ids. `build` checks for a single trainable
  1x1 output, then allocates one tensor per arena slot.
- **The network front end** (`NetworkBuilder`, module `Frontend`).
  - It picks the `Operation` that each combinator emits.
  - It registers the weight and bias of an affine layer under derived ids.
  - It records an initialisation setting per weight.
  - Its `build` wraps the single root in a reduction across the batch before building.
- **The Adam optimiser state** (modules `AdamOptimiser` and `IdOrder`).
  - Buffer lifecycle: zeroed creation, the checks `update` makes, `reset` and `set_params`.
  - Checkpointing: writing buffers in the map's order, then loading them back. Loading sorts
    both lists by id in place, zips them, and loads each pair into the state with that id.
- **Batch preparation** (`DefaultDataPreparer::prepare`, module `Loader`). It sizes the
  sparse-index, dense one-hot, bucket and target buffers of a batch. It then fills them
  position by position, with per-position strides and a `-1` sentinel.
- **Quantisation** (`QuantTarget::quantise`, module `Quant`). This turns a buffer of weights
  into the bytes of a network file:
  - scale each weight;
  - truncate toward zero;
  - range-check for i8, i16 or i32;
  - emit two's-complement little-endian bytes.
- **The scan of an engine's bench output for its node count** (module `Bench`): the token
  two places after the word "Nodes", parsed as a `usize`.

### How the model is written

These choices apply across the modules:

- **Panics.** Each assertion, `unwrap` and `panic!` of the source becomes an error result.
  The error names the check that failed. Where the source panics before changing anything,
  the model's contract says the state is unchanged.
- **Imperative code.** Code that changes state in place stays imperative. `GraphBuilder`,
  `NetworkBuilder`, `Adam` and `PreparedBatch` are classes whose methods change their fields.
  The prepared buffers are arrays written slot by slot. The checkpoint lists are arrays
  sorted in place.
- **Specification functions.** Each method is proved equal to a function of its inputs and
  old state. The properties the source promises are lemmas about those functions.
- **Numbers.** Integers are unbounded; the source's fixed widths are written out where they
  matter (`usize::MAX`, i8/i16/i32 ranges, `u8` buckets, the `i16` score). Floating-point
  values are real numbers.

`wrappers.dfy` holds the `Option`, `Result` and `Outcome` types shared by all modules, and
one arithmetic step lemma.

### Two points where the code is narrower than it looks

- **Gradient size in `update`.** `update` (adam.rs:43-47) checks only the batch dimensions of
  weights, momentum and velocity, and that momentum and velocity have the weights' size. It
  does not compare the gradients' size with the weights'. The model follows the code: the
  gradients are not checked.
- **Removing roots.** `root` and `build` both require exactly one root (builder.rs:148, 153),
  so `roots` is meant to hold the nodes no other node consumes. `create_node` removes each
  operand from it by its whole handle value, which includes the shape. See "## Findings".

## Model

| member | source | states |
|---|---|---|
| Builder.Reshape | crates/bullet_core/src/graph/builder.rs:32-39 | reshape succeeds exactly when the element counts agree, and keeps the index and sparsity; otherwise it fails with the two shapes |
| Builder.ReshapeRoundTrip | crates/bullet_core/src/graph/builder.rs:32-39 | reshaping back restores the original handle; two reshapes in a row succeed and agree exactly when one reshape to the final shape does |
| Builder.Insert | crates/bullet_core/src/graph/builder.rs:81-104 | create_node fails with DuplicateId exactly when the id is in use, changing nothing. Otherwise: the node gets index \|nodes\|; its record is appended holding that handle; the id joins ids; inputs and weights are unchanged; the roots are the new node plus the old roots whose index no operand carries |
| Builder.RootsAfterInsertAgree | crates/bullet_core/src/graph/builder.rs:94-101 | in a well-formed builder, removing operands from the roots by value and by index agree whenever every operand is its slot's own handle |
| Builder.ReshapedOperandStaysRoot | crates/bullet_core/src/graph/builder.rs:96 | input for the finding: a reshaped operand leaves its root in place under removal by value, and is removed under removal by index |
| Builder.RootIndexed | crates/bullet_core/src/graph/builder.rs:91-101 | every root is the handle stored in its own slot, and no later node consumes it |
| Builder.LeafCreators | crates/bullet_core/src/graph/builder.rs:106-131 | the input and weight creators fail exactly on a taken id, or on nnz == 0 for a sparse input checked first, with that error. Inputs get no gradients, sparsity None or Some(nnz), and join only inputs. Weights get gradients and join only weights. Each carries its id |
| Builder.OperationResult | crates/bullet_core/src/graph/builder.rs:133-145 | a result of an operation fails, with InvalidOperation, exactly when its shape rule fails; otherwise it is a node with no id, of the rule's shape, with the requested gradient flag and the operation as parent, and ids, inputs and weights unchanged |
| Builder.InsertExtends | crates/bullet_core/src/graph/builder.rs:91-100 | a successful insertion appends exactly one slot and keeps every earlier slot |
| Builder.ConsumedStays | crates/bullet_core/src/graph/builder.rs:94-101 | a node consumed by a later node stays consumed however the arena grows, so it never becomes a root again |
| Builder.RootSetSnoc | crates/bullet_core/src/graph/builder.rs:94-101 | the roots recomputed from the grown arena are the incremental update of the old roots, so the incremental set never drifts from "nodes without a consumer" |
| Builder.EmptyWellFormed | crates/bullet_core/src/graph/builder.rs:67-74 | the default builder is well formed |
| Builder.InsertKeeps | crates/bullet_core/src/graph/builder.rs:81-104 | inserting a consistent record keeps the arena indexed, the ids unique and equal to the id set, and the roots equal to the nodes without a consumer; the node joins the leaf set it belongs to |
| Builder.DenseInputKeeps | crates/bullet_core/src/graph/builder.rs:106-113 | create_dense_input keeps the builder well formed |
| Builder.InsertKeepsSparse | crates/bullet_core/src/graph/builder.rs:91-101 | inserting a node whose non-zero count is set only for an input keeps every sparse handle an input's; GraphBuilder keeps this as part of its invariant |
| Builder.SparseHandles | crates/bullet_core/src/graph/builder.rs:41-43 | in a builder that keeps GraphBuilder's invariant, a slot whose handle is sparse is an input; create_sparse_input hands out a sparse handle carrying its nnz, and no other creator hands out a sparse one |
| Builder.SparseInputKeeps | crates/bullet_core/src/graph/builder.rs:115-122 | create_sparse_input keeps the builder well formed |
| Builder.WeightsKeeps | crates/bullet_core/src/graph/builder.rs:124-131 | create_weights keeps the builder well formed |
| Builder.ResultOfOperationKeeps | crates/bullet_core/src/graph/builder.rs:133-145 | create_result_of_operation keeps the builder well formed |
| Builder.CreatorsIndex | crates/bullet_core/src/graph/builder.rs:91-101 | a new handle's index is the old arena length, so indices are dense, unique and increasing; the new node is a root; only the new node remains a root at any operand's index |
| Builder.AllocateAllSpec | crates/bullet_core/src/graph/builder.rs:163-175 | allocation succeeds exactly when every slot's allocation does, giving one tensor per slot in index order; otherwise its error is that of the first slot that fails |
| Builder.AllocatePrefixFails | crates/bullet_core/src/graph/builder.rs:174 | once an allocation fails the whole build fails with that error |
| Builder.LeavesHaveIds | crates/bullet_core/src/graph/builder.rs:177-181 | in a well-formed builder, every input or weight sits in its own slot, which carries an id, and no two of them share an id |
| Builder.IdMapSpec | crates/bullet_core/src/graph/builder.rs:177-181 | the id map holds exactly the inputs (or the weights) as values, each under the id stored in its slot |
| Builder.BuildSucceeds | crates/bullet_core/src/graph/builder.rs:152-184 | build on the single root succeeds exactly when: the root needs gradients; it is not a weight; it is 1x1; every allocation succeeds. The graph then has that root, one tensor per slot in index order, and id maps covering exactly the inputs and the weights |
| Builder.LeafRootNeverBuilds | crates/bullet_core/src/graph/builder.rs:156-157 | a root that is an input or a weight never builds; an input root fails with OutputIsInput |
| Builder.DuplicateWeights | crates/bullet_core/src/graph/builder.rs:87-89 | registering weights "w" a second time fails with DuplicateId("w") |
| Builder.ScenarioWeights | crates/bullet_core/src/graph/builder.rs:124-131 | weights "w" (1x4) on an empty builder give node 0 and the exact resulting state |
| Builder.ScenarioInput | crates/bullet_core/src/graph/builder.rs:106-113 | input "x" (4x1) then gives node 1 and the exact resulting state |
| Builder.ScenarioTarget | crates/bullet_core/src/graph/builder.rs:106-113 | target "t" (1x1) then gives node 2 and the exact resulting state |
| Builder.ScenarioLeaves | crates/bullet_core/src/graph/builder.rs:106-131 | the three leaf steps of the scalar-loss scenario, ending in a well-formed state |
| Builder.ScenarioProduct | crates/bullet_core/src/graph/builder.rs:133-145 | the product w·x consumes both leaves, leaving roots {t, wx} |
| Builder.ScenarioLoss | crates/bullet_core/src/graph/builder.rs:133-145 | the power error of wx against t leaves the loss as the single root |
| Builder.ScenarioOutput | crates/bullet_core/src/graph/builder.rs:133-145 | the reduction across the batch leaves itself as the single root |
| Builder.ScenarioWellFormed | crates/bullet_core/src/graph/builder.rs:81-145 | every state of the scenario is well formed |
| Builder.ScalarLossBuilds | crates/bullet_core/src/graph/builder.rs:152-184 | the scenario's single 1x1 root builds when allocations succeed |
| Builder.GraphBuilder.constructor | crates/bullet_core/src/graph/builder.rs:67-74 | an empty, well-formed builder |
| Builder.GraphBuilder.CreateNode | crates/bullet_core/src/graph/builder.rs:81-104 | the id check, then the loop that removes operand roots, then the push: the new state is that of Insert, and an error leaves every field unchanged |
| Builder.GraphBuilder.CreateDenseInput | crates/bullet_core/src/graph/builder.rs:106-113 | returns the node of DenseInput and takes its state, keeping the builder well formed; an error changes nothing |
| Builder.GraphBuilder.CreateSparseInput | crates/bullet_core/src/graph/builder.rs:115-122 | likewise for SparseInput, failing on nnz == 0 before anything changes |
| Builder.GraphBuilder.CreateWeights | crates/bullet_core/src/graph/builder.rs:124-131 | likewise for Weights |
| Builder.GraphBuilder.CreateResultOfOperation | crates/bullet_core/src/graph/builder.rs:133-145 | likewise for ResultOfOperation; a failing shape rule inserts nothing |
| Builder.GraphBuilder.Root | crates/bullet_core/src/graph/builder.rs:147-150 | a root is returned exactly when there is exactly one, and it is that root |
| Builder.GraphBuilder.Build | crates/bullet_core/src/graph/builder.rs:152-184 | NotSingleOutput unless there is exactly one root; otherwise the result of BuildResult on that root, with its tensor loop stopping at the first allocation error |
| Frontend.ForwardAgreesWithMatmul | crates/bullet_lib/src/frontend.rs:145-212 | a forward pass and a product by the layer's weights pick the same kernel; on sparse input they differ only by the bias |
| Frontend.AppliedOutcome | crates/bullet_lib/src/frontend.rs:66-74 | applying an operation to a well-formed builder fails exactly when its shape rule fails, with InvalidOperation and no change; otherwise the new node takes the next slot, keeps the earlier ones, records the operation and the gradient flag, is a dense root that replaced its operands' roots, and the builder stays well formed with the same weights |
| Frontend.DenseInputWeightIds | crates/bullet_lib/src/frontend.rs:37-40 | a dense input leaves the weight ids unchanged |
| Frontend.SparseInputWeightIds | crates/bullet_lib/src/frontend.rs:42-45 | a sparse input leaves the weight ids unchanged |
| Frontend.WeightsWeightIds | crates/bullet_lib/src/frontend.rs:47-51 | new weights add exactly their id to the weight ids |
| Frontend.ResultWeightIds | crates/bullet_lib/src/frontend.rs:66-74 | an operation result leaves the weight ids unchanged |
| Frontend.WeightIdsAreMapKeys | crates/bullet_lib/src/frontend.rs:81-91 | the ids of the weights in the arena are exactly the keys of the built graph's weights map, so every recorded setting names a weight the seeding loop can find |
| Frontend.WrappedRootIsSole | crates/bullet_lib/src/frontend.rs:77-78 | wrapping the single root in ReduceAcrossBatch leaves the new node, which needs gradients and is not a weight, as the single root |
| Frontend.BuildNetworkInit | crates/bullet_lib/src/frontend.rs:76-94 | a network that builds has the reduction as its 1x1 output, at the next index with that parent, and its settings cover exactly its weights' ids |
| Frontend.NetworkBuilder.constructor | crates/bullet_lib/src/frontend.rs:22-26 | an empty builder and an empty settings map |
| Frontend.NetworkBuilder.NewDenseInput | crates/bullet_lib/src/frontend.rs:37-40 | the builder's dense input step; settings unchanged; the invariant (settings keys are the weight ids) kept |
| Frontend.NetworkBuilder.NewSparseInput | crates/bullet_lib/src/frontend.rs:42-45 | the builder's sparse input step; settings unchanged; the invariant kept |
| Frontend.NetworkBuilder.NewWeights | crates/bullet_lib/src/frontend.rs:47-51 | the builder's weights step, then the setting recorded under exactly that id; nothing recorded on failure |
| Frontend.NetworkBuilder.NewAffineCustom | crates/bullet_lib/src/frontend.rs:57-64 | weights id+"w" of shape (out, in) with a normal setting of mean 0 and deviation 1/sqrt(in·bc), then bias id+"b" of shape (out, bc), zeroed; each failure is stated with the state it leaves |
| Frontend.NetworkBuilder.NewAffine | crates/bullet_lib/src/frontend.rs:53-55 | the custom affine layer with one bias column |
| Frontend.NetworkBuilder.Apply | crates/bullet_lib/src/frontend.rs:66-74 | the operation's result with gradients requested; a failing shape rule is an error that changes nothing |
| Frontend.NetworkBuilder.ToDenseNode | crates/bullet_lib/src/frontend.rs:193-196 | the ToDense result with no gradients requested: a new root whose slot does not need gradients, or an error that changes nothing |
| Frontend.NetworkBuilder.LinearComb | crates/bullet_lib/src/frontend.rs:141-143 | a new root computing alpha·a + beta·b with gradients, or an error that changes nothing |
| Frontend.NetworkBuilder.Add | crates/bullet_lib/src/frontend.rs:103-109 | a + b: a new root computing LinearCombination(1, a, 1, b) with gradients, which replaces the roots of a and b, or an error that changes nothing |
| Frontend.NetworkBuilder.Sub | crates/bullet_lib/src/frontend.rs:111-117 | a - b: likewise with coefficients 1 and -1 |
| Frontend.NetworkBuilder.Matmul | crates/bullet_lib/src/frontend.rs:145-151 | the new node's operation is the sparse affine kernel without bias exactly when the right operand is sparse, and the plain product otherwise; a new root with gradients, or an error that changes nothing |
| Frontend.NetworkBuilder.Mpe | crates/bullet_lib/src/frontend.rs:157-159 | a new root computing the power error of a against the targets, or an error that changes nothing |
| Frontend.NetworkBuilder.Mse | crates/bullet_lib/src/frontend.rs:161-163 | the power error with power 2 |
| Frontend.NetworkBuilder.PairwiseMul | crates/bullet_lib/src/frontend.rs:165-171 | a new root computing the pairwise product with the post-affine-dual flag as given, or an error that changes nothing |
| Frontend.NetworkBuilder.MaskedLoss | crates/bullet_lib/src/frontend.rs:185-187 | a new root computing the masked softmax loss, whose operation holds the mask in first place, or an error that changes nothing |
| Frontend.NetworkBuilder.Forward | crates/bullet_lib/src/frontend.rs:206-212 | the new node's operation is the sparse affine kernel exactly when the input is sparse, and reads the layer's bias either way; a new root with gradients, or an error that changes nothing |
| Frontend.NetworkBuilder.Build | crates/bullet_lib/src/frontend.rs:76-94 | fails with NotSingleOutput, changing nothing, unless there is exactly one root. Otherwise the result is BuildNetwork on that root, and the builder holds the wrapped arena. A built network's settings cover exactly the weights of its graph |
| IdOrder.LessIrreflexive | crates/bullet_core/src/optimiser/adam.rs:80-81 | no id sorts before itself |
| IdOrder.LessTrans | crates/bullet_core/src/optimiser/adam.rs:80-81 | the order on ids is transitive |
| IdOrder.LessTotal | crates/bullet_core/src/optimiser/adam.rs:80-81 | any two distinct ids are ordered one way or the other |
| IdOrder.SortByKeySorted | crates/bullet_core/src/optimiser/adam.rs:80-81 | sort_by_key orders the entries by id and is a permutation of them |
| IdOrder.SortByKeyStable | crates/bullet_core/src/optimiser/adam.rs:80-81 | the sort is stable: the entries with any given id keep their relative order |
| IdOrder.SortByKeyIds | crates/bullet_core/src/optimiser/adam.rs:80-81 | the sorted order of ids depends on the ids alone, not on the buffers |
| IdOrder.InsertInto | crates/bullet_core/src/optimiser/adam.rs:80-81 | one insertion step in place: the prefix becomes the stable insertion of the next entry, and the rest of the array is untouched |
| IdOrder.SortById | crates/bullet_core/src/optimiser/adam.rs:80-81 | the array in place becomes the stable sort by id of its old contents |
| AdamOptimiser.UpdateCheck | crates/bullet_core/src/optimiser/adam.rs:43-47 | the checks pass exactly when weights, momentum and velocity have no batch dimension and both buffers have the weights' size; each failure kind holds exactly when the checks before it pass and its own fails |
| AdamOptimiser.Adam.constructor | crates/bullet_core/src/optimiser/adam.rs:28-34 | both buffers are size zeros with no batch dimension; the parameters are the given ones |
| AdamOptimiser.Adam.Update | crates/bullet_core/src/optimiser/adam.rs:36-61 | a failing check returns its error and touches no buffer. Otherwise the kernel receives the weights' size, the buffers, the parameters, both factors and true, and weights, momentum and velocity take its output. A kernel that writes in place keeps every buffer's length, so after a passing update both buffers have the weights' size and no batch dimension. Parameters unchanged |
| AdamOptimiser.Adam.Reset | crates/bullet_core/src/optimiser/adam.rs:63-66 | both buffers become zeros of their old sizes and batch dimensions; parameters unchanged |
| AdamOptimiser.Adam.SetParams | crates/bullet_core/src/optimiser/adam.rs:92-94 | the parameters are replaced and both buffers are unchanged |
| AdamOptimiser.Written | crates/bullet_core/src/optimiser/adam.rs:69-70 | a written list follows the iteration order, each entry carrying its id's buffer |
| AdamOptimiser.WriteToCheckpoint | crates/bullet_core/src/optimiser/adam.rs:68-73 | the momentum and velocity lists follow the same iteration order of the map, the i-th entries carrying that state's momentum and velocity |
| AdamOptimiser.PairingSpec | crates/bullet_core/src/optimiser/adam.rs:83-89 | the zipped loop loads the i-th pair of both lists for every i before it stops. It passes exactly when the shorter list runs out, i.e. when every zipped pair has equal ids present in the map. Otherwise it stops at the first bad pair: IdMismatch if the ids differ, else MissingId |
| AdamOptimiser.LoadedAgreeing | crates/bullet_core/src/optimiser/adam.rs:86-88 | when every load for an id carries the same buffers, the state with that id ends up holding them |
| AdamOptimiser.PermutedWritten | crates/bullet_core/src/optimiser/adam.rs:68-81 | every entry of a reordered written list carries the buffer written for its id |
| AdamOptimiser.SortedWrittenPairs | crates/bullet_core/src/optimiser/adam.rs:68-83 | the sorted written momentum and velocity lists pair up entry by entry under equal ids |
| AdamOptimiser.WrittenIdSorted | crates/bullet_core/src/optimiser/adam.rs:80-81 | every written id appears in the sorted list |
| AdamOptimiser.WrittenPairingPasses | crates/bullet_core/src/optimiser/adam.rs:68-89 | the pairing of two sorted written lists passes and loads every entry with both buffers of its id |
| AdamOptimiser.CheckpointRoundTrip | crates/bullet_core/src/optimiser/adam.rs:68-90 | writing a collection, then loading into one with the same ids, passes, and every state ends up with the momentum and velocity written for its id |
| AdamOptimiser.LoadOne | crates/bullet_core/src/optimiser/adam.rs:86-88 | one load fills both buffers of the state with the load's id, and no other state changes |
| AdamOptimiser.LoadPairs | crates/bullet_core/src/optimiser/adam.rs:83-89 | the loop's outcome is that of the pairing, and every state holds what the pairing's loads give it, with its parameters unchanged |
| AdamOptimiser.LoadFromCheckpoint | crates/bullet_core/src/optimiser/adam.rs:75-90 | both arrays become their stable sorts by id. The outcome is that of pairing the sorted lists. Each state holds the buffers of the last load with its id, else its old ones; its parameters are unchanged |
| Loader.ResultIndex | src/trainer/default/loader.rs:14-20 | the discriminants: Loss is 0, Draw is 1, Win is 2 |
| Loader.ResultFromIndex | src/trainer/default/loader.rs:29-31 | an index maps to a result exactly when it is below 3, and to the result whose index it is |
| Loader.ResultIndexRoundTrip | src/trainer/default/loader.rs:14-31 | a result's index maps back to that result |
| Loader.BufferLengths | src/trainer/default/loader.rs:152-174 | for a batch of n positions: the sparse buffers hold max_active·n slots, the dense buffers input_size·n, the buckets n, the targets (3 or 1)·n |
| Loader.SparseBufferAt | src/trainer/default/loader.rs:198-219 | in sparse mode, slot max_active·i + j holds the j-th feature index of position i for that perspective, else -1 right after the last feature, else 0 |
| Loader.DenseBufferAt | src/trainer/default/loader.rs:202-207 | in dense mode, entry input_size·i + k is 1 exactly when a feature of position i has index k for that perspective, else 0 |
| Loader.BlendTargetOfResult | src/trainer/default/loader.rs:226-230 | with the whole blend on the result, the target is 1 for a win, 1/2 for a draw and 0 for a loss |
| Loader.TargetsAt | src/trainer/default/loader.rs:225-231 | with WDL targets, entry 3·i + c is 1 exactly at c = the result index of position i, else 0; otherwise entry i is the blended target of position i |
| Loader.WriteSparseRow | src/trainer/default/loader.rs:204-219 | writing one position's sparse slots over zeros leaves both buffers filled up to that position's rows |
| Loader.WriteDenseRow | src/trainer/default/loader.rs:204-207 | writing one position's ones over zeros leaves both dense buffers filled up to that position's one-hot rows |
| Loader.WriteBucket | src/trainer/default/loader.rs:223 | the bucket buffer is filled up to the position's bucket |
| Loader.WriteTargets | src/trainer/default/loader.rs:225-231 | the target buffer is filled up to the position's WDL row or blended target |
| Loader.PreparedBatch.constructor | src/trainer/default/loader.rs:158-175 | six fresh, distinct, zero-filled buffers of the requested lengths |
| Loader.PreparedBatch.WritePosition | src/trainer/default/loader.rs:198-231 | one pass of the position loop extends every buffer's filled prefix by that position's rows |
| Loader.PreparedBatch.WriteFeatures | src/trainer/default/loader.rs:199-219 | the feature part of that pass: the sparse or the dense rows |
| Loader.PreparedBatch.WriteLabels | src/trainer/default/loader.rs:223-231 | the bucket and target part of that pass |
| Loader.PreparedBatch.FilledComplete | src/trainer/default/loader.rs:198-238 | once every position is written, each buffer is exactly the batch's buffer for the mode in use, and the unused mode's buffers are all zeros |
| Loader.PreparedBatch.Fill | src/trainer/default/loader.rs:198-231 | the loop finishes exactly when no position has more than max_active features or a result index of 3 or more; then every buffer is filled |
| Loader.Prepare | src/trainer/default/loader.rs:135-239 | fails: for zero threads (division by zero); for an empty batch or a zero row width in the mode in use (zero chunk length); for a position a worker panics on. Otherwise each of the six fresh buffers holds exactly the batch's layout |
| Loader.ChunkSizesPositive | src/trainer/default/loader.rs:177-187 | the three chunk lengths are positive exactly when the batch is not empty and the mode's row width is not zero |
| Loader.DivCeilPositive | src/trainer/default/loader.rs:148 | div_ceil by a positive thread count is zero exactly for an empty batch |
| Quant.Trunc | src/trainer/default/quant.rs:21 | truncation toward zero: the integer part, with the sign of the value |
| Quant.UnsignedRoundTrip | src/trainer/default/quant.rs:28 | n little-endian bytes decode back to any unsigned value below 256^n |
| Quant.SignedRoundTrip | src/trainer/default/quant.rs:28-38 | two's-complement little-endian bytes decode back to any integer that fits n signed bytes |
| Quant.QuantiseValue | src/trainer/default/quant.rs:18-49 | one value: for I8, I16 and I32 it succeeds exactly when trunc(q·v) fits the target's range, giving 1, 2 or 4 bytes; Float gives the value's four bytes |
| Quant.QuantiseValueDecodes | src/trainer/default/quant.rs:20-48 | the bytes of a value that quantises decode to trunc(q·v); an I8 value is the single byte trunc(q·v) mod 256 |
| Quant.QuantiseAllSome | src/trainer/default/quant.rs:17-54 | the buffer quantises exactly when every value does |
| Quant.QuantiseAllLayout | src/trainer/default/quant.rs:17-54 | a quantised buffer holds width·count bytes, and the i-th group of width bytes is the encoding of the i-th value |
| Quant.QuantiseAllSpec | src/trainer/default/quant.rs:14-55 | both of the above together |
| Quant.QuantiseAllPrefixFails | src/trainer/default/quant.rs:25-45 | a value that fails makes the whole buffer fail |
| Quant.Quantise | src/trainer/default/quant.rs:14-55 | the loop appends each encoding in order and returns the target's error at the first value that does not fit, with no partial output |
| Bench.ParseUsize | examples/plenty.rs:140 | a parsed token is below 2^64 and neither empty nor a lone '+' |
| Bench.DecimalValue | examples/plenty.rs:140 | the digits of a number's decimal rendering have that number as their value |
| Bench.ParseDecimal | examples/plenty.rs:140 | parsing a number's decimal rendering, with or without '+', gives the number |
| Bench.TargetIsTwoPastLastNodes | examples/plenty.rs:136-138 | a "Nodes" at index k sets the target to k + 2, and a later "Nodes" overrides it |
| Bench.TargetWithoutNodes | examples/plenty.rs:133-138 | with no "Nodes" so far the target keeps its initial value |
| Bench.FirstStopIsLeast | examples/plenty.rs:139-142 | the stop found is the first index equal to the target in force there, and None means there is none |
| Bench.NoNodesNoStop | examples/plenty.rs:133-150 | output without "Nodes" (the empty output left by an I/O error included), and with at most 10000000 tokens, never stops the loop |
| Bench.BenchNodes | examples/plenty.rs:129-150 | Ok(n) exactly when the loop stops and the token at the stop parses as n; in every other case the one parse-failure error |

## Left out

- I/O: checkpoint files, network files and the bench process are not modelled. The loaded and
  written (id, buffer) lists and the bench output's whitespace tokens are given as sequences.
  `split_whitespace` itself is not modelled.
- Threads: the workers of `prepare` write disjoint contiguous chunks. The model fills the
  buffers with one sequential loop over the positions. Each chunk starts at a multiple of the
  chunk length in every buffer, so the offsets agree.
- The `Mutex` around the front end's builder and settings map: calls are sequential.
- Floating point:
  - Weights, buffers and factors are real numbers.
  - The deviation 1/sqrt(in·bc) of an affine layer's weights is kept as a symbolic `InverseSqrt`.
  - The sigmoid of the scaled score in the non-WDL target is the parameter `squash`.
  - The bytes of `f32::to_le_bytes` are the parameter `floatBytes`.
  - In the I32 quantisation the product is taken exactly; rounding it to f32 before the cast
    is not modelled. The source compares the exact product with the f32 product cast to i32,
    so it rejects some values that fit. For example, `I32(16777217)` on weight 1.0 fails in
    the source because `16777217 as f32` is 16777216, while `Quant.QuantiseValue` returns the
    bytes of 16777217.
- The numeric Adam kernel `D::adam`: a function parameter whose output the buffers take. It
  writes through `&mut` slices, so `InPlace` requires it to return buffers of the lengths it
  was given; the values it computes are not modelled.
- `seed_random`, the weight initialisation in the front end's `build`: the network carries
  the settings map instead. The settings are proved to name its weights.
- `Tensor::new`: the parameter `allocate` of `build`; its errors propagate.
- The definitions of `Operation::nodes` and `Operation::output_shape`: these are not part of
  this model. They are the uninterpreted functions of a `Rules` value. The front end's
  `build` relies on one fact about them, stated as `ReductionReadsInput`: a reduction reads
  its input.
- The remaining combinators (`activate`, `select`, `concat`, `gemm`, `mask`, `gather`, `softmax_crossentropy_loss`, `slice_rows`,
  `forward_sparse_dual_with_activation`): each is `apply` of its variant with the operands in
  the order given. `NetworkBuilder.Apply` covers them, with the `Operation` constructor built
  directly. `NetworkBuilderNode::reshape` is `Builder.Reshape`. The modelled combinators are
  methods of `NetworkBuilder` that take the operand handles, where the source's
  `NetworkBuilderNode` pairs each handle with a reference to the builder.
- `load_from_slice`: the model loads a buffer as given, with no batch dimension. Its own size
  checks are not part of this model.
- IdOrder.SortById: an insertion sort, not the library's merge sort. A stable sort has one
  result, and that result is the one stated.
- Loader.Prepare: dense mode requires every feature index to be below `input_size`. The
  input getter promises this, and the dense layout depends on it.
- Loader.PreparedBatch.Fill: a worker that panics stops before the rest of its position is
  written. Either way the outcome is the same failure, and the partly written buffers are
  not returned.
- Loader.SparseRow: the source stores each feature index with `as i32`, which wraps for
  indices of 2^31 and above. The model stores the index unchanged, so it assumes every sparse
  feature index is below 2^31.
- Bench.BenchNodes: the `u32` index counter is unbounded in the model. Its overflow after
  2^32 tokens is not modelled.
- The rest of `examples/plenty.rs`: trainer configuration, builds, process spawning and
  engine testing.

## Findings

| source | as written | input that shows it | evidently intended | confidence | as-written member | corrected member |
|---|---|---|---|---|---|---|
| crates/bullet_core/src/graph/builder.rs:96 | `self.roots.remove(parent)` removes the operand by its whole handle value, shape included. An operand that was reshaped (same index, different shape) does not match the root stored for that node, so the root stays. The graph then has two roots, and `root`/`build` panic with "Graph must have a single output!" | roots {Node(0, 4x1)}; the operand is that node reshaped to Node(0, 2x2); the new node is Node(1, 2x2). As written the roots become {Node(0, 4x1), Node(1, 2x2)}; by index they become {Node(1, 2x2)} | every operand's node stops being a root, whatever shape the handle carries; so that `roots` stays the set of nodes nothing consumes, which the single-output checks of `root` and `build` (builder.rs:148, 153) rely on | not executed | Builder.RootsAfterInsertAsWritten, shown by Builder.ReshapedOperandStaysRoot | Builder.RootsAfterInsert, which Builder.GraphBuilder.CreateNode uses, related to the as-written update by Builder.RootsAfterInsertAgree |
