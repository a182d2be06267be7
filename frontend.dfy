/** The network front end (`NetworkBuilder` in crates/bullet_lib/src/frontend.rs): a layer
    over the graph builder that picks the operation each combinator emits, registers the
    weights and bias of affine layers under derived ids, records an initialisation setting
    per weight, and wraps the final root in a reduction across the batch before building.

    Every `unwrap` of a builder result becomes an error result here. The lock around the
    builder and the map is not modelled: calls are sequential. */
module Frontend {
  import opened Wrappers
  import opened Builder

  /** A standard deviation: a given value, or `1 / sqrt(fanIn)` left unevaluated because it is
      floating-point work. */
  datatype Stdev = Given(value: real) | InverseSqrt(fanIn: nat)

  datatype InitSettings = Zeroed | Normal(mean: real, stdev: Stdev) | Uniform(mean: real, stdev: Stdev)

  /** The weights and bias handles of an affine layer. */
  datatype AffineLayer = AffineLayer(weights: Node, bias: Node)

  datatype NetError<E> = CreateFailed(error: CreateError) | BuildFailed(buildError: BuildError<E>)

  /** A built graph together with the initialisation setting of each weight; the seeding
      itself is not modelled. */
  datatype Network<T> = Network(graph: Graph<T>, init: map<string, InitSettings>)

  // The operations the combinators emit.

  /** The kernel `matmul` picks: the sparse affine kernel without bias for a sparse right
      operand, a plain product otherwise. */
  function MatmulOp(a: Node, b: Node): Operation
  {
    if IsSparse(b) then SparseAffine(a, b, None) else Matmul(a, false, b, false)
  }

  /** The kernel `Affine::forward` picks: the sparse affine kernel with the bias for a sparse
      input, the dense affine kernel otherwise. */
  function ForwardOp(layer: AffineLayer, input: Node): Operation
  {
    if IsSparse(input) then SparseAffine(layer.weights, input, Some(layer.bias))
    else Affine(layer.weights, input, layer.bias)
  }

  /** A forward pass and a product by the layer's weights pick the same kernel; on sparse
      input they differ only in the bias. */
  lemma ForwardAgreesWithMatmul(layer: AffineLayer, input: Node)
    ensures ForwardOp(layer, input).SparseAffine? == MatmulOp(layer.weights, input).SparseAffine?
    ensures IsSparse(input) ==>
      ForwardOp(layer, input) == MatmulOp(layer.weights, input).(sparseBias := Some(layer.bias))
  {
  }

  /** The builder state after creating the result of `op`, and what the caller gets back:
      the new handle and the grown arena, or the error and the arena as it was. */
  ghost predicate Applied(rules: Rules, before: BuilderState, after: BuilderState, op: Operation,
                          requiresGrad: bool, r: Result<Node, CreateError>)
  {
    match ResultOfOperation(rules, before, op, requiresGrad)
    case Ok(c) => r == Ok(c.node) && after == c.state
    case Err(e) => r == Err(e) && after == before
  }

  /** What a caller can rely on about the node an operation added: it takes the next slot and
      keeps every earlier one, its slot records the operation and the gradient flag, it is a
      dense root, it has replaced every root its operands named, and the leaf sets are as
      they were. */
  ghost predicate NewResult(rules: Rules, before: BuilderState, after: BuilderState, op: Operation,
                            requiresGrad: bool, n: Node)
  {
    n.idx == |before.nodes| && |after.nodes| == |before.nodes| + 1 &&
    after.nodes[..|before.nodes|] == before.nodes &&
    after.nodes[n.idx].own == n && after.nodes[n.idx].parent == Some(op) &&
    after.nodes[n.idx].requiresGrad == requiresGrad &&
    !IsSparse(n) && n in after.roots &&
    (forall o :: o in rules.operands(op) ==> forall x :: x in after.roots && x.idx == o.idx ==> x == n) &&
    after.inputs == before.inputs && after.weights == before.weights && after.ids == before.ids
  }

  /** Applying an operation to a well-formed builder fails exactly when the operation's shape
      rule does, and then changes nothing; otherwise the new node is the promised result and
      the builder stays well formed with the same weights. */
  lemma AppliedOutcome(rules: Rules, before: BuilderState, after: BuilderState, op: Operation,
                       requiresGrad: bool, r: Result<Node, CreateError>)
    requires WellFormed(rules, before) && Applied(rules, before, after, op, requiresGrad, r)
    ensures r.Err? <==> rules.outputShape(op).None?
    ensures r.Err? ==> r.error == InvalidOperation(op) && after == before
    ensures r.Ok? ==> (NewResult(rules, before, after, op, requiresGrad, r.value) &&
      WellFormed(rules, after) && WeightIds(after.nodes) == WeightIds(before.nodes))
  {
    OperationResult(rules, before, op, requiresGrad);
    CreatorsIndex(rules, before, "", Shape(0, 0), 0, op, requiresGrad);
    if r.Ok? {
      ResultOfOperationKeeps(rules, before, op, requiresGrad);
      ResultWeightIds(rules, before, op, requiresGrad);
      var c := ResultOfOperation(rules, before, op, requiresGrad).value;
      assert after.nodes[r.value.idx] == after.nodes[|before.nodes|];
    }
  }

  // The initialisation settings.

  /** The ids of the weights in the arena. */
  function WeightIds(nodes: seq<NodeData>): set<string>
  {
    set k | 0 <= k < |nodes| && nodes[k].parent.None? && nodes[k].requiresGrad && nodes[k].id.Some? ::
      nodes[k].id.value
  }

  lemma WeightIdsSnoc(nodes: seq<NodeData>, d: NodeData)
    ensures WeightIds(nodes + [d]) ==
      WeightIds(nodes) + (if d.parent.None? && d.requiresGrad && d.id.Some? then {d.id.value} else {})
  {
    var nodes' := nodes + [d];
    assert forall k :: 0 <= k < |nodes| ==> nodes'[k] == nodes[k];
    assert nodes'[|nodes|] == d;
  }

  /** The weight initialiser of `new_affine_custom`: a normal distribution of mean zero and
      standard deviation `1 / sqrt(inputSize * biasCols)`. */
  function AffineInit(inputSize: nat, biasCols: nat): InitSettings
  {
    Normal(0.0, InverseSqrt(inputSize * biasCols))
  }

  /** Inputs and operation results leave the weight ids as they are; a new weight adds its id. */
  lemma DenseInputWeightIds(rules: Rules, st: BuilderState, id: string, shape: Shape)
    ensures DenseInput(rules, st, id, shape).Ok? ==>
      WeightIds(DenseInput(rules, st, id, shape).value.state.nodes) == WeightIds(st.nodes)
  {
    if DenseInput(rules, st, id, shape).Ok? {
      var c := DenseInput(rules, st, id, shape).value;
      WeightIdsSnoc(st.nodes, c.state.nodes[|st.nodes|]);
      assert c.state.nodes == st.nodes + [c.state.nodes[|st.nodes|]];
    }
  }

  lemma SparseInputWeightIds(rules: Rules, st: BuilderState, id: string, shape: Shape, nnz: nat)
    ensures SparseInput(rules, st, id, shape, nnz).Ok? ==>
      WeightIds(SparseInput(rules, st, id, shape, nnz).value.state.nodes) == WeightIds(st.nodes)
  {
    if SparseInput(rules, st, id, shape, nnz).Ok? {
      var c := SparseInput(rules, st, id, shape, nnz).value;
      WeightIdsSnoc(st.nodes, c.state.nodes[|st.nodes|]);
      assert c.state.nodes == st.nodes + [c.state.nodes[|st.nodes|]];
    }
  }

  lemma WeightsWeightIds(rules: Rules, st: BuilderState, id: string, shape: Shape)
    ensures Weights(rules, st, id, shape).Ok? ==>
      WeightIds(Weights(rules, st, id, shape).value.state.nodes) == WeightIds(st.nodes) + {id}
  {
    if Weights(rules, st, id, shape).Ok? {
      var c := Weights(rules, st, id, shape).value;
      WeightIdsSnoc(st.nodes, c.state.nodes[|st.nodes|]);
      assert c.state.nodes == st.nodes + [c.state.nodes[|st.nodes|]];
    }
  }

  lemma ResultWeightIds(rules: Rules, st: BuilderState, op: Operation, requiresGrad: bool)
    ensures ResultOfOperation(rules, st, op, requiresGrad).Ok? ==>
      WeightIds(ResultOfOperation(rules, st, op, requiresGrad).value.state.nodes) == WeightIds(st.nodes)
  {
    if ResultOfOperation(rules, st, op, requiresGrad).Ok? {
      var c := ResultOfOperation(rules, st, op, requiresGrad).value;
      WeightIdsSnoc(st.nodes, c.state.nodes[|st.nodes|]);
      assert c.state.nodes == st.nodes + [c.state.nodes[|st.nodes|]];
    }
  }

  /** The weight ids are the keys of the graph's weights map. */
  lemma WeightIdsAreMapKeys(rules: Rules, st: BuilderState)
    requires WellFormed(rules, st)
    ensures WeightIds(st.nodes) == IdMap(rules, st, true).Keys
  {
    var m := IdMap(rules, st, true);
    LeavesHaveIds(rules, st, true);
    IdMapSpec(rules, st, true);
    forall s | s in WeightIds(st.nodes) ensures s in m {
      var k :| 0 <= k < |st.nodes| && st.nodes[k].parent.None? && st.nodes[k].requiresGrad &&
        st.nodes[k].id.Some? && st.nodes[k].id.value == s;
      var n := st.nodes[k].own;
      assert n in LeafSet(st.nodes, true);
      assert n in m.Values;
      var s' :| s' in m && m[s'] == n;
      assert n.idx == k;
    }
    forall s | s in m ensures s in WeightIds(st.nodes) {
      var n := m[s];
      assert n in m.Values;
      assert n in LeafSet(st.nodes, true);
    }
  }

  // Building.

  /** `ReduceAcrossBatch(n)` reads n: the one fact about the operand rules the wrapping in
      `build` relies on. */
  ghost predicate ReductionReadsInput(rules: Rules)
  {
    forall n :: n in rules.operands(ReduceAcrossBatch(n))
  }

  /** Wrapping the single root in the reduction leaves the reduction as the single root. */
  lemma WrappedRootIsSole(rules: Rules, st: BuilderState, root: Node)
    requires WellFormed(rules, st) && st.roots == {root} && ReductionReadsInput(rules)
    requires ResultOfOperation(rules, st, ReduceAcrossBatch(root), true).Ok?
    ensures var c := ResultOfOperation(rules, st, ReduceAcrossBatch(root), true).value;
      c.state.roots == {c.node} && c.node.idx == |st.nodes| &&
      c.state.nodes[c.node.idx].requiresGrad && c.node !in c.state.weights
  {
    var c := ResultOfOperation(rules, st, ReduceAcrossBatch(root), true).value;
    assert root in rules.operands(ReduceAcrossBatch(root));
    RootIndexed(rules, st.nodes, root);
    ResultOfOperationKeeps(rules, st, ReduceAcrossBatch(root), true);
    assert c.node !in LeafSet(c.state.nodes, true);
  }

  /** The arena after wrapping the root: with the reduction appended, or unchanged when the
      reduction cannot be created. */
  function Wrapped(rules: Rules, st: BuilderState, root: Node): BuilderState
  {
    match ResultOfOperation(rules, st, ReduceAcrossBatch(root), true)
    case Ok(c) => c.state
    case Err(_) => st
  }

  /** `build` from an arena whose single root is `root`. */
  function BuildNetwork<T, E>(rules: Rules, st: BuilderState, root: Node, init: map<string, InitSettings>,
                              allocate: NodeData -> Result<T, E>): Result<Network<T>, NetError<E>>
    requires WellFormed(rules, st) && st.roots == {root} && ReductionReadsInput(rules)
  {
    match ResultOfOperation(rules, st, ReduceAcrossBatch(root), true)
    case Err(e) => Err(CreateFailed(e))
    case Ok(c) =>
      ResultOfOperationKeeps(rules, st, ReduceAcrossBatch(root), true);
      WrappedRootIsSole(rules, st, root);
      match BuildResult(rules, c.state, c.node, allocate)
      case Err(e) => Err(BuildFailed(e))
      case Ok(g) => Ok(Network(g, init))
  }

  /** A network that builds holds an initialisation setting for exactly the ids of its weights,
      and its output is the reduction, a 1x1 node that needs gradients. */
  lemma BuildNetworkInit<T, E>(rules: Rules, st: BuilderState, root: Node, init: map<string, InitSettings>,
                               allocate: NodeData -> Result<T, E>)
    requires WellFormed(rules, st) && st.roots == {root} && ReductionReadsInput(rules)
    requires init.Keys == WeightIds(st.nodes)
    ensures BuildNetwork(rules, st, root, init, allocate).Ok? ==>
      var n := BuildNetwork(rules, st, root, init, allocate).value;
      var after := Wrapped(rules, st, root);
      n.init == init && n.init.Keys == n.graph.weights.Keys && n.graph.root.shape == Shape(1, 1) &&
      n.graph.root.idx == |st.nodes| && after.nodes[n.graph.root.idx].parent == Some(ReduceAcrossBatch(root))
  {
    if BuildNetwork(rules, st, root, init, allocate).Ok? {
      var c := ResultOfOperation(rules, st, ReduceAcrossBatch(root), true).value;
      ResultOfOperationKeeps(rules, st, ReduceAcrossBatch(root), true);
      ResultWeightIds(rules, st, ReduceAcrossBatch(root), true);
      WeightIdsAreMapKeys(rules, c.state);
      BuildSucceeds(rules, c.state, c.node, allocate);
    }
  }

  /** `NetworkBuilder`: the graph builder and the initialisation settings by weight id. */
  class NetworkBuilder {
    const builder: GraphBuilder
    var initData: map<string, InitSettings>

    /** The builder is well formed and exactly its weights have settings. */
    ghost predicate Valid()
      reads this, builder
    {
      builder.Valid() && initData.Keys == WeightIds(builder.nodes)
    }

    constructor (rules: Rules)
      ensures fresh(builder) && builder.rules == rules && builder.State() == Empty
      ensures initData == map[] && Valid()
    {
      builder := new GraphBuilder(rules);
      initData := map[];
    }

    /** `new_dense_input`. */
    method NewDenseInput(id: string, shape: Shape) returns (r: Result<Node, CreateError>)
      requires Valid()
      modifies builder
      ensures Valid() && initData == old(initData)
      ensures match DenseInput(builder.rules, old(builder.State()), id, shape)
        case Ok(c) => r == Ok(c.node) && builder.State() == c.state
        case Err(e) => r == Err(e) && builder.State() == old(builder.State())
    {
      DenseInputWeightIds(builder.rules, builder.State(), id, shape);
      r := builder.CreateDenseInput(id, shape);
    }

    /** `new_sparse_input`. */
    method NewSparseInput(id: string, shape: Shape, nnz: nat) returns (r: Result<Node, CreateError>)
      requires Valid()
      modifies builder
      ensures Valid() && initData == old(initData)
      ensures match SparseInput(builder.rules, old(builder.State()), id, shape, nnz)
        case Ok(c) => r == Ok(c.node) && builder.State() == c.state
        case Err(e) => r == Err(e) && builder.State() == old(builder.State())
    {
      SparseInputWeightIds(builder.rules, builder.State(), id, shape, nnz);
      r := builder.CreateSparseInput(id, shape, nnz);
    }

    /** `new_weights`: register the weights, then record their setting under their id. */
    method NewWeights(id: string, shape: Shape, init: InitSettings) returns (r: Result<Node, CreateError>)
      requires Valid()
      modifies this, builder
      ensures Valid()
      ensures match Weights(builder.rules, old(builder.State()), id, shape)
        case Ok(c) => r == Ok(c.node) && builder.State() == c.state && initData == old(initData)[id := init]
        case Err(e) => r == Err(e) && builder.State() == old(builder.State()) && initData == old(initData)
    {
      WeightsWeightIds(builder.rules, builder.State(), id, shape);
      r := builder.CreateWeights(id, shape);
      if r.Ok? {
        initData := initData[id := init];
      }
    }

    /** `new_affine_custom`: weights `id + "w"` of shape (outputSize, inputSize) with the
        affine initialiser, then bias `id + "b"` of shape (outputSize, biasCols), zeroed. */
    method NewAffineCustom(id: string, inputSize: nat, outputSize: nat, biasCols: nat)
      returns (r: Result<AffineLayer, CreateError>)
      requires Valid()
      modifies this, builder
      ensures Valid()
      ensures match Weights(builder.rules, old(builder.State()), id + "w", Shape(outputSize, inputSize))
        case Err(e) => r == Err(e) && builder.State() == old(builder.State()) && initData == old(initData)
        case Ok(cw) =>
          match Weights(builder.rules, cw.state, id + "b", Shape(outputSize, biasCols))
          case Err(e) => r == Err(e) && builder.State() == cw.state &&
            initData == old(initData)[id + "w" := AffineInit(inputSize, biasCols)]
          case Ok(cb) => (r == Ok(AffineLayer(cw.node, cb.node)) && builder.State() == cb.state &&
            initData == old(initData)[id + "w" := AffineInit(inputSize, biasCols)][id + "b" := Zeroed])
    {
      var weights := NewWeights(id + "w", Shape(outputSize, inputSize), AffineInit(inputSize, biasCols));
      if weights.Err? {
        return Err(weights.error);
      }
      var bias := NewWeights(id + "b", Shape(outputSize, biasCols), Zeroed);
      if bias.Err? {
        return Err(bias.error);
      }
      return Ok(AffineLayer(weights.value, bias.value));
    }

    /** `new_affine`: a custom affine layer with one bias column. */
    method NewAffine(id: string, inputSize: nat, outputSize: nat) returns (r: Result<AffineLayer, CreateError>)
      requires Valid()
      modifies this, builder
      ensures Valid()
      ensures match Weights(builder.rules, old(builder.State()), id + "w", Shape(outputSize, inputSize))
        case Err(e) => r == Err(e) && builder.State() == old(builder.State()) && initData == old(initData)
        case Ok(cw) =>
          match Weights(builder.rules, cw.state, id + "b", Shape(outputSize, 1))
          case Err(e) => r == Err(e) && builder.State() == cw.state &&
            initData == old(initData)[id + "w" := AffineInit(inputSize, 1)]
          case Ok(cb) => (r == Ok(AffineLayer(cw.node, cb.node)) && builder.State() == cb.state &&
            initData == old(initData)[id + "w" := AffineInit(inputSize, 1)][id + "b" := Zeroed])
    {
      r := NewAffineCustom(id, inputSize, outputSize, 1);
    }

    /** `apply`: the result of an operation, with gradients. */
    method Apply(op: Operation) returns (r: Result<Node, CreateError>)
      requires Valid()
      modifies builder
      ensures Valid() && initData == old(initData)
      ensures Applied(builder.rules, old(builder.State()), builder.State(), op, true, r)
    {
      ResultWeightIds(builder.rules, builder.State(), op, true);
      r := builder.CreateResultOfOperation(op, true);
    }

    /** `linear_comb`: `alpha * a + beta * b`. */
    method LinearComb(a: Node, alpha: real, b: Node, beta: real) returns (r: Result<Node, CreateError>)
      requires Valid()
      modifies builder
      ensures Valid() && initData == old(initData)
      ensures Applied(builder.rules, old(builder.State()), builder.State(), LinearCombination(alpha, a, beta, b), true, r)
      ensures r.Ok? ==> NewResult(builder.rules, old(builder.State()), builder.State(),
                                  LinearCombination(alpha, a, beta, b), true, r.value)
      ensures r.Err? ==> builder.State() == old(builder.State())
    {
      ghost var before := builder.State();
      r := Apply(LinearCombination(alpha, a, beta, b));
      AppliedOutcome(builder.rules, before, builder.State(), LinearCombination(alpha, a, beta, b), true, r);
    }

    /** `a + b`: the linear combination with both coefficients 1. */
    method Add(a: Node, b: Node) returns (r: Result<Node, CreateError>)
      requires Valid()
      modifies builder
      ensures Valid() && initData == old(initData)
      ensures Applied(builder.rules, old(builder.State()), builder.State(), LinearCombination(1.0, a, 1.0, b), true, r)
      ensures r.Ok? ==> NewResult(builder.rules, old(builder.State()), builder.State(),
                                  LinearCombination(1.0, a, 1.0, b), true, r.value)
      ensures r.Err? ==> builder.State() == old(builder.State())
    {
      r := LinearComb(a, 1.0, b, 1.0);
    }

    /** `a - b`: the linear combination with coefficients 1 and -1. */
    method Sub(a: Node, b: Node) returns (r: Result<Node, CreateError>)
      requires Valid()
      modifies builder
      ensures Valid() && initData == old(initData)
      ensures Applied(builder.rules, old(builder.State()), builder.State(), LinearCombination(1.0, a, -1.0, b), true, r)
      ensures r.Ok? ==> NewResult(builder.rules, old(builder.State()), builder.State(),
                                  LinearCombination(1.0, a, -1.0, b), true, r.value)
      ensures r.Err? ==> builder.State() == old(builder.State())
    {
      r := LinearComb(a, 1.0, b, -1.0);
    }

    /** `matmul`: the new node's operation is the sparse affine kernel exactly when the right
        operand is sparse. */
    method Matmul(a: Node, b: Node) returns (r: Result<Node, CreateError>)
      requires Valid()
      modifies builder
      ensures Valid() && initData == old(initData)
      ensures Applied(builder.rules, old(builder.State()), builder.State(), MatmulOp(a, b), true, r)
      ensures r.Ok? ==> NewResult(builder.rules, old(builder.State()), builder.State(), MatmulOp(a, b), true, r.value)
      ensures r.Ok? ==> (builder.nodes[r.value.idx].parent.value.SparseAffine? <==> IsSparse(b))
      ensures r.Err? ==> builder.State() == old(builder.State())
    {
      ghost var before := builder.State();
      if IsSparse(b) {
        r := Apply(SparseAffine(a, b, None));
      } else {
        r := Apply(Operation.Matmul(a, false, b, false));
      }
      AppliedOutcome(builder.rules, before, builder.State(), MatmulOp(a, b), true, r);
    }

    /** `mpe`: the power error of `a` against the targets. */
    method Mpe(a: Node, targets: Node, power: real) returns (r: Result<Node, CreateError>)
      requires Valid()
      modifies builder
      ensures Valid() && initData == old(initData)
      ensures Applied(builder.rules, old(builder.State()), builder.State(), PowerError(a, targets, power), true, r)
      ensures r.Ok? ==> NewResult(builder.rules, old(builder.State()), builder.State(),
                                  PowerError(a, targets, power), true, r.value)
      ensures r.Err? ==> builder.State() == old(builder.State())
    {
      ghost var before := builder.State();
      r := Apply(PowerError(a, targets, power));
      AppliedOutcome(builder.rules, before, builder.State(), PowerError(a, targets, power), true, r);
    }

    /** `mse`: the power error with power 2. */
    method Mse(a: Node, targets: Node) returns (r: Result<Node, CreateError>)
      requires Valid()
      modifies builder
      ensures Valid() && initData == old(initData)
      ensures Applied(builder.rules, old(builder.State()), builder.State(), PowerError(a, targets, 2.0), true, r)
      ensures r.Ok? ==> NewResult(builder.rules, old(builder.State()), builder.State(),
                                  PowerError(a, targets, 2.0), true, r.value)
      ensures r.Err? ==> builder.State() == old(builder.State())
    {
      r := Mpe(a, targets, 2.0);
    }

    /** `pairwise_mul` (`postAffineDual` false) and `pairwise_mul_post_affine_dual` (true). */
    method PairwiseMul(input: Node, postAffineDual: bool) returns (r: Result<Node, CreateError>)
      requires Valid()
      modifies builder
      ensures Valid() && initData == old(initData)
      ensures Applied(builder.rules, old(builder.State()), builder.State(),
                      Operation.PairwiseMul(input, postAffineDual), true, r)
      ensures r.Ok? ==> NewResult(builder.rules, old(builder.State()), builder.State(),
                                  Operation.PairwiseMul(input, postAffineDual), true, r.value)
      ensures r.Err? ==> builder.State() == old(builder.State())
    {
      ghost var before := builder.State();
      r := Apply(Operation.PairwiseMul(input, postAffineDual));
      AppliedOutcome(builder.rules, before, builder.State(), Operation.PairwiseMul(input, postAffineDual), true, r);
    }

    /** `masked_softmax_crossentropy_loss`: the mask goes first among the operands. */
    method MaskedLoss(input: Node, targets: Node, mask: Node) returns (r: Result<Node, CreateError>)
      requires Valid()
      modifies builder
      ensures Valid() && initData == old(initData)
      ensures Applied(builder.rules, old(builder.State()), builder.State(),
                      MaskedSoftmaxCrossEntropyLoss(mask, input, targets), true, r)
      ensures r.Ok? ==> NewResult(builder.rules, old(builder.State()), builder.State(),
                                  MaskedSoftmaxCrossEntropyLoss(mask, input, targets), true, r.value)
      ensures r.Ok? ==> builder.nodes[r.value.idx].parent.value.mask == mask
      ensures r.Err? ==> builder.State() == old(builder.State())
    {
      ghost var before := builder.State();
      r := Apply(MaskedSoftmaxCrossEntropyLoss(mask, input, targets));
      AppliedOutcome(builder.rules, before, builder.State(), MaskedSoftmaxCrossEntropyLoss(mask, input, targets), true, r);
    }

    /** `Affine::forward`: the new node's operation is the sparse affine kernel exactly when
        the input is sparse, and it reads the layer's bias either way. */
    method Forward(layer: AffineLayer, input: Node) returns (r: Result<Node, CreateError>)
      requires Valid()
      modifies builder
      ensures Valid() && initData == old(initData)
      ensures Applied(builder.rules, old(builder.State()), builder.State(), ForwardOp(layer, input), true, r)
      ensures r.Ok? ==> NewResult(builder.rules, old(builder.State()), builder.State(),
                                  ForwardOp(layer, input), true, r.value)
      ensures r.Ok? ==> var op := builder.nodes[r.value.idx].parent.value;
        (op.SparseAffine? <==> IsSparse(input)) &&
        (op.SparseAffine? ==> op.sparseBias == Some(layer.bias)) && (op.Affine? ==> op.bias == layer.bias)
      ensures r.Err? ==> builder.State() == old(builder.State())
    {
      ghost var before := builder.State();
      if IsSparse(input) {
        r := Apply(SparseAffine(layer.weights, input, Some(layer.bias)));
      } else {
        r := Apply(Affine(layer.weights, input, layer.bias));
      }
      AppliedOutcome(builder.rules, before, builder.State(), ForwardOp(layer, input), true, r);
    }

    /** `to_dense`: the one combinator whose result needs no gradients. */
    method ToDenseNode(n: Node) returns (r: Result<Node, CreateError>)
      requires Valid()
      modifies builder
      ensures Valid() && initData == old(initData)
      ensures Applied(builder.rules, old(builder.State()), builder.State(), ToDense(n), false, r)
      ensures r.Ok? ==> NewResult(builder.rules, old(builder.State()), builder.State(), ToDense(n), false, r.value)
      ensures r.Err? ==> builder.State() == old(builder.State())
    {
      ghost var before := builder.State();
      ResultWeightIds(builder.rules, before, ToDense(n), false);
      r := builder.CreateResultOfOperation(ToDense(n), false);
      AppliedOutcome(builder.rules, before, builder.State(), ToDense(n), false, r);
    }

    /** `build`: take the single root, wrap it in `ReduceAcrossBatch` with gradients, and
        build the graph from the wrapped root; the network carries every weight's setting. */
    method Build<T, E>(allocate: NodeData -> Result<T, E>) returns (r: Result<Network<T>, NetError<E>>)
      requires Valid() && ReductionReadsInput(builder.rules)
      modifies builder
      ensures |old(builder.roots)| != 1 ==>
        r == Err(BuildFailed(NotSingleOutput)) && builder.State() == old(builder.State())
      ensures forall root :: old(builder.roots) == {root} ==>
        r == BuildNetwork(builder.rules, old(builder.State()), root, initData, allocate) &&
        builder.State() == Wrapped(builder.rules, old(builder.State()), root)
      ensures r.Ok? ==> r.value.init.Keys == r.value.graph.weights.Keys
    {
      var root := builder.Root();
      if root.None? {
        return Err(BuildFailed(NotSingleOutput));
      }
      ghost var before := builder.State();
      assert before.roots == {root.value};
      var wrapped := Apply(ReduceAcrossBatch(root.value));
      if wrapped.Err? {
        return Err(CreateFailed(wrapped.error));
      }
      WrappedRootIsSole(builder.rules, before, root.value);
      var graph := builder.Build(allocate);
      if graph.Err? {
        return Err(BuildFailed(graph.error));
      }
      BuildNetworkInit(builder.rules, before, root.value, initData, allocate);
      return Ok(Network(graph.value, initData));
    }
  }
}
