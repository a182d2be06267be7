/** The graph construction engine (`GraphBuilder` in crates/bullet_core/src/graph/builder.rs).

    The builder keeps an arena of node records and hands out `Node` handles (arena index,
    shape, sparsity). Alongside the arena it keeps four sets up to date: the roots (nodes no
    later node consumes), the inputs, the weights and the ids in use. `build` checks that the
    graph ends in a single trainable scalar and allocates one tensor per arena slot.

    `Operation` lives in a file that is not part of this model. Its variants are the ones the
    front end emits; which nodes an operation reads and what shape it produces are given to
    the builder as the uninterpreted functions of a `Rules` value. */
module Builder {
  import opened Wrappers

  /** `usize::MAX` on a 64-bit target. */
  const UsizeMax: nat := 0xFFFF_FFFF_FFFF_FFFF

  datatype Shape = Shape(rows: nat, cols: nat)
  {
    /** The number of elements. */
    function Size(): nat
    {
      rows * cols
    }
  }

  type NonZero = n: nat | n > 0 witness 1

  /** A node handle: its arena index, its shape and, for a sparse input, the number of
      non-zeros per column. */
  datatype Node = Node(idx: nat, shape: Shape, sparse: Option<NonZero>)

  datatype ReshapeError = MismatchedInputShapes(shapes: seq<Shape>)

  /** `Node::reshape`: the same node seen with another shape of the same element count. */
  function Reshape(n: Node, shape: Shape): (r: Result<Node, ReshapeError>)
    ensures r.Ok? <==> n.shape.Size() == shape.Size()
    ensures r.Ok? ==> r.value.idx == n.idx && r.value.sparse == n.sparse && r.value.shape == shape
    ensures r.Err? ==> r.error == MismatchedInputShapes([n.shape, shape])
  {
    if n.shape.Size() == shape.Size() then Ok(n.(shape := shape))
    else Err(MismatchedInputShapes([n.shape, shape]))
  }

  /** Reshaping back to the original shape gives the original node, and two reshapes in a row
      are one reshape to the final shape. */
  lemma ReshapeRoundTrip(n: Node, s1: Shape, s2: Shape)
    requires Reshape(n, s1).Ok?
    ensures Reshape(Reshape(n, s1).value, n.shape) == Ok(n)
    ensures Reshape(Reshape(n, s1).value, s2).Ok? <==> Reshape(n, s2).Ok?
    ensures Reshape(Reshape(n, s1).value, s2).Ok? ==> Reshape(Reshape(n, s1).value, s2) == Reshape(n, s2)
  {
  }

  /** `Node::is_sparse`: the handle carries a non-zero count, which only a sparse input's
      handle does (`SparseHandles`). */
  function IsSparse(n: Node): bool
  {
    n.sparse.Some?
  }

  /** An activation function, named by its code; the activations themselves are not part of
      this model. */
  datatype Activation = Activation(code: nat)

  /** The operations the front end builds. */
  datatype Operation =
    | Activate(input: Node, activation: Activation)
    | Select(input: Node, buckets: Node)
    | Concat(left: Node, right: Node)
    | LinearCombination(alpha: real, a: Node, beta: real, b: Node)
    | Matmul(a: Node, transA: bool, b: Node, transB: bool)
    | SparseAffine(weights: Node, input: Node, sparseBias: Option<Node>)
    | Affine(weights: Node, input: Node, bias: Node)
    | PowerError(input: Node, targets: Node, power: real)
    | PairwiseMul(input: Node, postAffineDual: bool)
    | Mask(input: Node, mask: Node)
    | Gather(input: Node, indices: Node)
    | SoftmaxCrossEntropyLoss(input: Node, targets: Node)
    | MaskedSoftmaxCrossEntropyLoss(mask: Node, input: Node, targets: Node)
    | Slice(input: Node, start: nat, end: nat)
    | ToDense(input: Node)
    | ReduceAcrossBatch(input: Node)
    | SparseAffineDualActivate(weights: Node, stm: Node, ntm: Node, bias: Node, activation: Activation)

  /** `Operation::nodes` and `Operation::output_shape`, whose definitions are not part of this
      model. An output shape of None is a shape-rule failure. */
  datatype Rules = Rules(operands: Operation -> seq<Node>, outputShape: Operation -> Option<Shape>)

  /** One arena slot. */
  datatype NodeData = NodeData(id: Option<string>, size: nat, requiresGrad: bool,
                               parent: Option<Operation>, own: Node)

  /** `NodeData::new`: the handle is a placeholder until the node is inserted. */
  function NewNodeData(id: Option<string>, parent: Option<Operation>, size: nat, requiresGrad: bool,
                       sparse: Option<NonZero>): NodeData
  {
    NodeData(id, size, requiresGrad, parent, Node(UsizeMax, Shape(UsizeMax, UsizeMax), sparse))
  }

  /** The places where the builder panics. */
  datatype CreateError =
    | DuplicateId(id: string)            // `assert!(self.ids.insert(..))`
    | ZeroNonZeros                       // `NonZeroUsize::try_from(0).unwrap()`
    | InvalidOperation(op: Operation)    // `output_shape` failed

  datatype BuildError<E> =
    | NotSingleOutput    // "Graph must have a single output!"
    | OutputIsInput      // "Output cannot be an input!"
    | OutputIsWeights    // "Can't output trainable weights!"
    | OutputNotScalar    // "Graph output must be scalar!"
    | Allocation(error: E)

  /** The builder's fields. */
  datatype BuilderState = BuilderState(nodes: seq<NodeData>, roots: set<Node>, inputs: set<Node>,
                                       weights: set<Node>, ids: set<string>)

  const Empty := BuilderState([], {}, {}, {}, {})

  function OperandsOf(rules: Rules, parent: Option<Operation>): seq<Node>
  {
    match parent
    case None => []
    case Some(op) => rules.operands(op)
  }

  // The root set.

  /** Node k is consumed once a later node's operation reads a node with index k. */
  predicate Consumed(rules: Rules, nodes: seq<NodeData>, k: nat)
  {
    exists j, o :: k < j < |nodes| && o in OperandsOf(rules, nodes[j].parent) && o.idx == k
  }

  /** The nodes that no later node consumes. */
  function RootSet(rules: Rules, nodes: seq<NodeData>): set<Node>
  {
    set k | 0 <= k < |nodes| && !Consumed(rules, nodes, k) :: nodes[k].own
  }

  /** The roots left once the operands are removed by index. */
  function RemoveOperands(roots: set<Node>, operands: seq<Node>): (r: set<Node>)
    ensures forall x :: x in r <==> x in roots && forall o :: o in operands ==> o.idx != x.idx
  {
    set x | x in roots && forall o :: o in operands ==> o.idx != x.idx
  }

  /** The root update of `create_node`, removing each operand's root by index. */
  function RootsAfterInsert(roots: set<Node>, operands: seq<Node>, node: Node): set<Node>
  {
    RemoveOperands(roots, operands) + {node}
  }

  /** The root update as written: `roots.remove(parent)` looks the operand up by its whole
      value, shape included. */
  function RootsAfterInsertAsWritten(roots: set<Node>, operands: seq<Node>, node: Node): set<Node>
  {
    (roots - (set o | o in operands)) + {node}
  }

  /** An operand handle that was reshaped differs from the root it came from: removal by value
      leaves that root in place, so the graph keeps a second root and cannot be built, while
      removal by index drops it. */
  lemma ReshapedOperandStaysRoot()
    ensures var x := Node(0, Shape(4, 1), None);
      var y := Node(0, Shape(2, 2), None);
      var out := Node(1, Shape(2, 2), None);
      Reshape(x, Shape(2, 2)) == Ok(y) &&
      RootsAfterInsertAsWritten({x}, [y], out) == {x, out} &&
      RootsAfterInsert({x}, [y], out) == {out}
  {
    var x := Node(0, Shape(4, 1), None);
    var y := Node(0, Shape(2, 2), None);
    var out := Node(1, Shape(2, 2), None);
    assert x != y;
    assert (set o | o in [y]) == {y};
    assert RemoveOperands({x}, [y]) == {};
  }

  /** Removing by value and removing by index agree exactly when every operand is its root's
      own handle. */
  lemma RootsAfterInsertAgree(rules: Rules, st: BuilderState, operands: seq<Node>, node: Node)
    requires WellFormed(rules, st)
    requires forall o :: o in operands && o.idx < |st.nodes| ==> o == st.nodes[o.idx].own
    ensures RootsAfterInsertAsWritten(st.roots, operands, node) == RootsAfterInsert(st.roots, operands, node)
  {
    forall x | x in st.roots
      ensures (x in (set o | o in operands)) <==> (exists o :: o in operands && o.idx == x.idx)
    {
      RootIndexed(rules, st.nodes, x);
    }
  }

  lemma RootIndexed(rules: Rules, nodes: seq<NodeData>, x: Node)
    requires NodesIndexed(nodes) && x in RootSet(rules, nodes)
    ensures x.idx < |nodes| && nodes[x.idx].own == x && !Consumed(rules, nodes, x.idx)
  {
  }

  // Well-formed states.

  /** Every slot holds the handle of its own index, its element count, and an id exactly when
      it is a leaf. */
  predicate NodesIndexed(nodes: seq<NodeData>)
  {
    forall k :: 0 <= k < |nodes| ==>
      nodes[k].own.idx == k && nodes[k].size == nodes[k].own.shape.Size() &&
      (nodes[k].id.Some? <==> nodes[k].parent.None?)
  }

  predicate IdsUnique(nodes: seq<NodeData>)
  {
    forall j, k :: 0 <= j < k < |nodes| && nodes[j].id.Some? && nodes[k].id.Some? ==>
      nodes[j].id.value != nodes[k].id.value
  }

  function IdSet(nodes: seq<NodeData>): set<string>
  {
    set k | 0 <= k < |nodes| && nodes[k].id.Some? :: nodes[k].id.value
  }

  /** The leaves with or without gradients: weights and inputs. */
  function LeafSet(nodes: seq<NodeData>, grad: bool): set<Node>
  {
    set k | 0 <= k < |nodes| && nodes[k].parent.None? && nodes[k].requiresGrad == grad :: nodes[k].own
  }

  /** Only an input's handle carries a non-zero count. */
  predicate SparseAreInputs(nodes: seq<NodeData>)
  {
    forall k :: 0 <= k < |nodes| && IsSparse(nodes[k].own) ==> nodes[k].parent.None? && !nodes[k].requiresGrad
  }

  /** What the builder keeps true between calls: the four sets are the ones the arena
      determines. */
  ghost predicate WellFormed(rules: Rules, st: BuilderState)
  {
    NodesIndexed(st.nodes) && IdsUnique(st.nodes) &&
    st.ids == IdSet(st.nodes) &&
    st.inputs == LeafSet(st.nodes, false) &&
    st.weights == LeafSet(st.nodes, true) &&
    st.roots == RootSet(rules, st.nodes)
  }

  lemma EmptyWellFormed(rules: Rules)
    ensures WellFormed(rules, Empty)
  {
  }

  // The transitions, on states.

  datatype Created = Created(state: BuilderState, node: Node)

  /** `create_node`: fail on an id already in use; otherwise the node gets the next index,
      its parent's operands stop being roots and it becomes one. */
  function Insert(rules: Rules, st: BuilderState, data: NodeData, shape: Shape, sparse: Option<NonZero>)
    : (r: Result<Created, CreateError>)
    ensures r.Err? <==> data.id.Some? && data.id.value in st.ids
    ensures r.Err? ==> r.error == DuplicateId(data.id.value)
    ensures r.Ok? ==> var c := r.value;
      c.node == Node(|st.nodes|, shape, sparse) &&
      c.state.nodes == st.nodes + [data.(own := c.node)] &&
      c.state.inputs == st.inputs && c.state.weights == st.weights &&
      c.state.ids == st.ids + (if data.id.Some? then {data.id.value} else {}) &&
      forall x :: x in c.state.roots <==>
        x == c.node || (x in st.roots && forall o :: o in OperandsOf(rules, data.parent) ==> o.idx != x.idx)
  {
    if data.id.Some? && data.id.value in st.ids then Err(DuplicateId(data.id.value))
    else
      var node := Node(|st.nodes|, shape, sparse);
      Ok(Created(st.(nodes := st.nodes + [data.(own := node)],
                     roots := RootsAfterInsert(st.roots, OperandsOf(rules, data.parent), node),
                     ids := if data.id.Some? then st.ids + {data.id.value} else st.ids), node))
  }

  /** `create_dense_input`. */
  function DenseInput(rules: Rules, st: BuilderState, id: string, shape: Shape): Result<Created, CreateError>
  {
    match Insert(rules, st, NewNodeData(Some(id), None, shape.Size(), false, None), shape, None)
    case Err(e) => Err(e)
    case Ok(c) => Ok(c.(state := c.state.(inputs := c.state.inputs + {c.node})))
  }

  /** `create_sparse_input`: fails on zero non-zeros before anything changes. */
  function SparseInput(rules: Rules, st: BuilderState, id: string, shape: Shape, nnz: nat): Result<Created, CreateError>
  {
    if nnz == 0 then Err(ZeroNonZeros)
    else
      match Insert(rules, st, NewNodeData(Some(id), None, shape.Size(), false, None), shape, Some(nnz))
      case Err(e) => Err(e)
      case Ok(c) => Ok(c.(state := c.state.(inputs := c.state.inputs + {c.node})))
  }

  /** `create_weights`. */
  function Weights(rules: Rules, st: BuilderState, id: string, shape: Shape): Result<Created, CreateError>
  {
    match Insert(rules, st, NewNodeData(Some(id), None, shape.Size(), true, None), shape, None)
    case Err(e) => Err(e)
    case Ok(c) => Ok(c.(state := c.state.(weights := c.state.weights + {c.node})))
  }

  /** `create_result_of_operation`: fails, inserting nothing, when the shape rule fails. */
  function ResultOfOperation(rules: Rules, st: BuilderState, op: Operation, requiresGrad: bool)
    : Result<Created, CreateError>
  {
    match rules.outputShape(op)
    case None => Err(InvalidOperation(op))
    case Some(shape) => Insert(rules, st, NewNodeData(None, Some(op), shape.Size(), requiresGrad, None), shape, None)
  }

  // What the transitions promise.

  /** The leaf creators: an input is a gradient-free dense or sparse leaf registered in
      `inputs` and nowhere else, a weight a trainable leaf registered in `weights`; each fails
      exactly on a duplicate id (or zero non-zeros), and then with that error. */
  lemma LeafCreators(rules: Rules, st: BuilderState, id: string, shape: Shape, nnz: nat)
    ensures DenseInput(rules, st, id, shape).Err? <==> id in st.ids
    ensures SparseInput(rules, st, id, shape, nnz).Err? <==> nnz == 0 || id in st.ids
    ensures Weights(rules, st, id, shape).Err? <==> id in st.ids
    ensures nnz == 0 ==> SparseInput(rules, st, id, shape, nnz) == Err(ZeroNonZeros)
    ensures id in st.ids ==> (DenseInput(rules, st, id, shape) == Err(DuplicateId(id)) &&
      Weights(rules, st, id, shape) == Err(DuplicateId(id)) &&
      (nnz > 0 ==> SparseInput(rules, st, id, shape, nnz) == Err(DuplicateId(id))))
    ensures DenseInput(rules, st, id, shape).Ok? ==> var c := DenseInput(rules, st, id, shape).value;
      c.node == Node(|st.nodes|, shape, None) && c.state.nodes[|st.nodes|].id == Some(id) &&
      !c.state.nodes[|st.nodes|].requiresGrad &&
      c.state.inputs == st.inputs + {c.node} && c.state.weights == st.weights
    ensures SparseInput(rules, st, id, shape, nnz).Ok? ==> var c := SparseInput(rules, st, id, shape, nnz).value;
      c.node == Node(|st.nodes|, shape, Some(nnz)) && c.state.nodes[|st.nodes|].id == Some(id) &&
      !c.state.nodes[|st.nodes|].requiresGrad &&
      c.state.inputs == st.inputs + {c.node} && c.state.weights == st.weights
    ensures Weights(rules, st, id, shape).Ok? ==> var c := Weights(rules, st, id, shape).value;
      c.node == Node(|st.nodes|, shape, None) && c.state.nodes[|st.nodes|].id == Some(id) &&
      c.state.nodes[|st.nodes|].requiresGrad &&
      c.state.weights == st.weights + {c.node} && c.state.inputs == st.inputs
  {
  }

  /** An operation result fails exactly when its shape rule does; otherwise it is an id-less
      node of the rule's shape, the requested gradient flag and the operation as parent. */
  lemma OperationResult(rules: Rules, st: BuilderState, op: Operation, requiresGrad: bool)
    ensures ResultOfOperation(rules, st, op, requiresGrad).Err? <==> rules.outputShape(op).None?
    ensures ResultOfOperation(rules, st, op, requiresGrad).Err? ==>
      ResultOfOperation(rules, st, op, requiresGrad).error == InvalidOperation(op)
    ensures ResultOfOperation(rules, st, op, requiresGrad).Ok? ==>
      var c := ResultOfOperation(rules, st, op, requiresGrad).value;
      var d := c.state.nodes[|st.nodes|];
      c.node == Node(|st.nodes|, rules.outputShape(op).value, None) &&
      d.id == None && d.parent == Some(op) && d.requiresGrad == requiresGrad &&
      c.state.ids == st.ids && c.state.inputs == st.inputs && c.state.weights == st.weights
  {
  }

  /** The arena only grows: a successful insertion keeps every earlier slot. */
  lemma InsertExtends(rules: Rules, st: BuilderState, data: NodeData, shape: Shape, sparse: Option<NonZero>)
    requires Insert(rules, st, data, shape, sparse).Ok?
    ensures var nodes := Insert(rules, st, data, shape, sparse).value.state.nodes;
      |nodes| == |st.nodes| + 1 && nodes[..|st.nodes|] == st.nodes
  {
    var nodes := Insert(rules, st, data, shape, sparse).value.state.nodes;
    assert nodes[..|st.nodes|] == st.nodes;
  }

  /** Once consumed, a node stays consumed however the arena grows: it never returns to the
      root set. */
  lemma ConsumedStays(rules: Rules, nodes: seq<NodeData>, more: seq<NodeData>, k: nat)
    requires Consumed(rules, nodes, k)
    ensures Consumed(rules, nodes + more, k)
    ensures nodes + more != [] && k < |nodes + more| ==> (nodes + more)[k] == nodes[k]
  {
    var j, o :| k < j < |nodes| && o in OperandsOf(rules, nodes[j].parent) && o.idx == k;
    assert (nodes + more)[j] == nodes[j];
  }

  /** The root set after one more node is the incremental update of the old one. */
  lemma {:induction false} RootSetSnoc(rules: Rules, nodes: seq<NodeData>, d: NodeData)
    requires NodesIndexed(nodes) && d.own.idx == |nodes|
    ensures RootSet(rules, nodes + [d]) == RootsAfterInsert(RootSet(rules, nodes), OperandsOf(rules, d.parent), d.own)
  {
    var nodes' := nodes + [d];
    var ops := OperandsOf(rules, d.parent);
    forall k | 0 <= k < |nodes|
      ensures Consumed(rules, nodes', k) <==> Consumed(rules, nodes, k) || exists o :: o in ops && o.idx == k
    {
      assert nodes'[k] == nodes[k];
      if Consumed(rules, nodes', k) {
        var j, o :| k < j < |nodes'| && o in OperandsOf(rules, nodes'[j].parent) && o.idx == k;
        if j < |nodes| {
          assert nodes'[j] == nodes[j];
        } else {
          assert nodes'[j] == d;
        }
      }
      if Consumed(rules, nodes, k) {
        ConsumedStays(rules, nodes, [d], k);
      }
      if exists o :: o in ops && o.idx == k {
        var o :| o in ops && o.idx == k;
        assert nodes'[|nodes|] == d;
        assert k < |nodes| < |nodes'| && o in OperandsOf(rules, nodes'[|nodes|].parent);
      }
    }
    assert !Consumed(rules, nodes', |nodes|);
    forall x
      ensures x in RootSet(rules, nodes') <==> x in RootsAfterInsert(RootSet(rules, nodes), ops, d.own)
    {
      if x in RootSet(rules, nodes') {
        var k :| 0 <= k < |nodes'| && !Consumed(rules, nodes', k) && nodes'[k].own == x;
        if k < |nodes| {
          assert nodes'[k] == nodes[k];
          assert x in RootSet(rules, nodes);
        }
      }
      if x in RootSet(rules, nodes) && forall o :: o in ops ==> o.idx != x.idx {
        var k :| 0 <= k < |nodes| && !Consumed(rules, nodes, k) && nodes[k].own == x;
        assert nodes'[k] == nodes[k];
      }
      if x == d.own {
        assert nodes'[|nodes|] == d;
      }
    }
  }

  lemma IdSetSnoc(nodes: seq<NodeData>, d: NodeData)
    ensures IdSet(nodes + [d]) == IdSet(nodes) + (if d.id.Some? then {d.id.value} else {})
  {
    var nodes' := nodes + [d];
    assert forall k :: 0 <= k < |nodes| ==> nodes'[k] == nodes[k];
    assert nodes'[|nodes|] == d;
  }

  lemma LeafSetSnoc(nodes: seq<NodeData>, d: NodeData, grad: bool)
    ensures LeafSet(nodes + [d], grad) ==
      LeafSet(nodes, grad) + (if d.parent.None? && d.requiresGrad == grad then {d.own} else {})
  {
    var nodes' := nodes + [d];
    assert forall k :: 0 <= k < |nodes| ==> nodes'[k] == nodes[k];
    assert nodes'[|nodes|] == d;
  }

  /** Inserting a node whose record is consistent keeps the arena and the root and id sets
      well formed, and adds the node to the leaf set it belongs to. */
  lemma InsertKeeps(rules: Rules, st: BuilderState, data: NodeData, shape: Shape, sparse: Option<NonZero>)
    requires WellFormed(rules, st)
    requires data.size == shape.Size() && (data.id.Some? <==> data.parent.None?)
    requires Insert(rules, st, data, shape, sparse).Ok?
    ensures var c := Insert(rules, st, data, shape, sparse).value;
      var st' := c.state;
      NodesIndexed(st'.nodes) && IdsUnique(st'.nodes) && st'.ids == IdSet(st'.nodes) &&
      st'.roots == RootSet(rules, st'.nodes) &&
      LeafSet(st'.nodes, false) == st.inputs + (if data.parent.None? && !data.requiresGrad then {c.node} else {}) &&
      LeafSet(st'.nodes, true) == st.weights + (if data.parent.None? && data.requiresGrad then {c.node} else {})
  {
    var c := Insert(rules, st, data, shape, sparse).value;
    var d := data.(own := c.node);
    var nodes' := st.nodes + [d];
    assert c.state.nodes == nodes';
    forall k | 0 <= k < |st.nodes| ensures nodes'[k] == st.nodes[k] { }
    assert nodes'[|st.nodes|] == d;
    RootSetSnoc(rules, st.nodes, d);
    IdSetSnoc(st.nodes, d);
    LeafSetSnoc(st.nodes, d, false);
    LeafSetSnoc(st.nodes, d, true);
    if d.id.Some? {
      forall j | 0 <= j < |st.nodes| && st.nodes[j].id.Some?
        ensures st.nodes[j].id.value != d.id.value
      {
        assert st.nodes[j].id.value in IdSet(st.nodes);
      }
    }
  }

  /** A node inserted with a non-zero count is an input, so insertion keeps only inputs
      sparse. */
  lemma InsertKeepsSparse(rules: Rules, st: BuilderState, data: NodeData, shape: Shape, sparse: Option<NonZero>)
    requires SparseAreInputs(st.nodes) && (sparse.Some? ==> data.parent.None? && !data.requiresGrad)
    requires Insert(rules, st, data, shape, sparse).Ok?
    ensures SparseAreInputs(Insert(rules, st, data, shape, sparse).value.state.nodes)
  {
    var nodes' := Insert(rules, st, data, shape, sparse).value.state.nodes;
    forall k | 0 <= k < |nodes'| && IsSparse(nodes'[k].own)
      ensures nodes'[k].parent.None? && !nodes'[k].requiresGrad
    {
      if k < |st.nodes| {
        assert nodes'[k] == st.nodes[k];
      }
    }
  }

  /** In a well-formed builder whose sparse handles are inputs' (which `GraphBuilder` keeps),
      a slot's handle is sparse exactly when the slot is an input created by
      `create_sparse_input`: the sparse creator hands out a handle with its non-zero count,
      and no other creator hands out a sparse one. */
  lemma SparseHandles(rules: Rules, st: BuilderState, id: string, shape: Shape, nnz: nat,
                      op: Operation, requiresGrad: bool)
    requires WellFormed(rules, st) && SparseAreInputs(st.nodes)
    ensures forall k :: 0 <= k < |st.nodes| && IsSparse(st.nodes[k].own) ==> st.nodes[k].own in st.inputs
    ensures SparseInput(rules, st, id, shape, nnz).Ok? ==>
      var n := SparseInput(rules, st, id, shape, nnz).value.node;
      IsSparse(n) && n.sparse.value == nnz
    ensures DenseInput(rules, st, id, shape).Ok? ==> !IsSparse(DenseInput(rules, st, id, shape).value.node)
    ensures Weights(rules, st, id, shape).Ok? ==> !IsSparse(Weights(rules, st, id, shape).value.node)
    ensures ResultOfOperation(rules, st, op, requiresGrad).Ok? ==>
      !IsSparse(ResultOfOperation(rules, st, op, requiresGrad).value.node)
  {
    forall k | 0 <= k < |st.nodes| && IsSparse(st.nodes[k].own) ensures st.nodes[k].own in st.inputs {
      assert st.nodes[k].parent.None? && !st.nodes[k].requiresGrad;
    }
  }

  /** Every creator keeps the builder well formed. */
  lemma DenseInputKeeps(rules: Rules, st: BuilderState, id: string, shape: Shape)
    requires WellFormed(rules, st) && DenseInput(rules, st, id, shape).Ok?
    ensures WellFormed(rules, DenseInput(rules, st, id, shape).value.state)
  {
    InsertKeeps(rules, st, NewNodeData(Some(id), None, shape.Size(), false, None), shape, None);
  }

  lemma SparseInputKeeps(rules: Rules, st: BuilderState, id: string, shape: Shape, nnz: nat)
    requires WellFormed(rules, st) && SparseInput(rules, st, id, shape, nnz).Ok?
    ensures WellFormed(rules, SparseInput(rules, st, id, shape, nnz).value.state)
  {
    InsertKeeps(rules, st, NewNodeData(Some(id), None, shape.Size(), false, None), shape, Some(nnz));
  }

  lemma WeightsKeeps(rules: Rules, st: BuilderState, id: string, shape: Shape)
    requires WellFormed(rules, st) && Weights(rules, st, id, shape).Ok?
    ensures WellFormed(rules, Weights(rules, st, id, shape).value.state)
  {
    InsertKeeps(rules, st, NewNodeData(Some(id), None, shape.Size(), true, None), shape, None);
  }

  lemma ResultOfOperationKeeps(rules: Rules, st: BuilderState, op: Operation, requiresGrad: bool)
    requires WellFormed(rules, st) && ResultOfOperation(rules, st, op, requiresGrad).Ok?
    ensures WellFormed(rules, ResultOfOperation(rules, st, op, requiresGrad).value.state)
  {
    var s := rules.outputShape(op).value;
    InsertKeeps(rules, st, NewNodeData(None, Some(op), s.Size(), requiresGrad, None), s, None);
  }

  /** Each new handle has the next index, so indices are dense and increasing, and a
      failed creation leaves the arena as it was. */
  lemma CreatorsIndex(rules: Rules, st: BuilderState, id: string, shape: Shape, nnz: nat,
                      op: Operation, requiresGrad: bool)
    requires WellFormed(rules, st)
    ensures DenseInput(rules, st, id, shape).Ok? ==>
      var c := DenseInput(rules, st, id, shape).value;
      c.node.idx == |st.nodes| && c.node in c.state.roots &&
      |c.state.nodes| == |st.nodes| + 1 && c.state.nodes[..|st.nodes|] == st.nodes
    ensures ResultOfOperation(rules, st, op, requiresGrad).Ok? ==>
      var c := ResultOfOperation(rules, st, op, requiresGrad).value;
      c.node.idx == |st.nodes| && c.node in c.state.roots &&
      |c.state.nodes| == |st.nodes| + 1 && c.state.nodes[..|st.nodes|] == st.nodes &&
      forall o :: o in rules.operands(op) ==> forall x :: x in c.state.roots && x.idx == o.idx ==> x == c.node
  {
    var input := NewNodeData(Some(id), None, shape.Size(), false, None);
    if Insert(rules, st, input, shape, None).Ok? {
      InsertExtends(rules, st, input, shape, None);
    }
    if rules.outputShape(op).Some? {
      var s := rules.outputShape(op).value;
      var result := NewNodeData(None, Some(op), s.Size(), requiresGrad, None);
      if Insert(rules, st, result, s, None).Ok? {
        InsertExtends(rules, st, result, s, None);
      }
    }
  }

  // Building.

  /** The outcome of one `Tensor::new` per slot, in index order, up to the first failure. */
  function AllocateAll<T, E>(allocate: NodeData -> Result<T, E>, nodes: seq<NodeData>): Result<seq<T>, E>
  {
    if nodes == [] then Ok([])
    else
      match AllocateAll(allocate, nodes[..|nodes| - 1])
      case Err(e) => Err(e)
      case Ok(front) =>
        match allocate(nodes[|nodes| - 1])
        case Err(e) => Err(e)
        case Ok(t) => Ok(front + [t])
  }

  /** Allocation succeeds exactly when every slot's does, giving one tensor per slot in order;
      otherwise its error is that of the first slot that fails. */
  lemma {:induction false} AllocateAllSpec<T, E>(allocate: NodeData -> Result<T, E>, nodes: seq<NodeData>)
    ensures AllocateAll(allocate, nodes).Ok? <==> forall k :: 0 <= k < |nodes| ==> allocate(nodes[k]).Ok?
    ensures AllocateAll(allocate, nodes).Ok? ==> var ts := AllocateAll(allocate, nodes).value;
      |ts| == |nodes| && forall k :: 0 <= k < |nodes| ==> ts[k] == allocate(nodes[k]).value
    ensures AllocateAll(allocate, nodes).Err? ==> exists k :: (0 <= k < |nodes| &&
      allocate(nodes[k]) == Err(AllocateAll(allocate, nodes).error) &&
      forall j :: 0 <= j < k ==> allocate(nodes[j]).Ok?)
  {
    if nodes != [] {
      var front := nodes[..|nodes| - 1];
      AllocateAllSpec(allocate, front);
      assert forall k :: 0 <= k < |front| ==> front[k] == nodes[k];
      if AllocateAll(allocate, front).Err? {
        var k :| 0 <= k < |front| && allocate(front[k]) == Err(AllocateAll(allocate, front).error) &&
          forall j :: 0 <= j < k ==> allocate(front[j]).Ok?;
        assert allocate(nodes[k]) == Err(AllocateAll(allocate, nodes).error);
      } else if allocate(nodes[|nodes| - 1]).Err? {
        assert forall j :: 0 <= j < |nodes| - 1 ==> allocate(nodes[j]).Ok?;
      }
    }
  }

  lemma {:induction false} AllocatePrefixFails<T, E>(allocate: NodeData -> Result<T, E>, nodes: seq<NodeData>, n: nat)
    requires n <= |nodes| && AllocateAll(allocate, nodes[..n]).Err?
    ensures AllocateAll(allocate, nodes) == Err(AllocateAll(allocate, nodes[..n]).error)
    decreases |nodes| - n
  {
    if n < |nodes| {
      assert nodes[..n + 1][..n] == nodes[..n];
      AllocatePrefixFails(allocate, nodes, n + 1);
    } else {
      assert nodes[..n] == nodes;
    }
  }

  /** The built graph: one tensor per slot, the root, and the id-to-node maps. */
  datatype Graph<T> = Graph(tensors: seq<T>, root: Node, inputs: map<string, Node>, weights: map<string, Node>)

  /** The id stored in a node's slot. */
  function IdOf(st: BuilderState, n: Node): string
  {
    if n.idx < |st.nodes| && st.nodes[n.idx].id.Some? then st.nodes[n.idx].id.value else ""
  }

  lemma LeavesHaveIds(rules: Rules, st: BuilderState, grad: bool)
    requires WellFormed(rules, st)
    ensures forall n :: n in LeafSet(st.nodes, grad) ==>
      n.idx < |st.nodes| && st.nodes[n.idx].own == n && st.nodes[n.idx].id == Some(IdOf(st, n))
    ensures forall n, m :: n in LeafSet(st.nodes, grad) && m in LeafSet(st.nodes, grad) && IdOf(st, n) == IdOf(st, m) ==> n == m
  {
    forall n, m | n in LeafSet(st.nodes, grad) && m in LeafSet(st.nodes, grad) && IdOf(st, n) == IdOf(st, m)
      ensures n == m
    {
      var a :| 0 <= a < |st.nodes| && st.nodes[a].parent.None? && st.nodes[a].requiresGrad == grad && st.nodes[a].own == n;
      var b :| 0 <= b < |st.nodes| && st.nodes[b].parent.None? && st.nodes[b].requiresGrad == grad && st.nodes[b].own == m;
      assert st.nodes[a].id.value == st.nodes[b].id.value;
    }
  }

  /** The id of every leaf in the set mapped to its node. */
  function IdMap(rules: Rules, st: BuilderState, grad: bool): map<string, Node>
    requires WellFormed(rules, st)
  {
    LeavesHaveIds(rules, st, grad);
    map n | n in LeafSet(st.nodes, grad) :: IdOf(st, n) := n
  }

  /** The map holds exactly the leaves of that kind, each under the id of its slot. */
  lemma IdMapSpec(rules: Rules, st: BuilderState, grad: bool)
    requires WellFormed(rules, st)
    ensures IdMap(rules, st, grad).Values == LeafSet(st.nodes, grad)
    ensures forall id :: id in IdMap(rules, st, grad) ==>
      IdMap(rules, st, grad)[id].idx < |st.nodes| && st.nodes[IdMap(rules, st, grad)[id].idx].id == Some(id)
  {
    LeavesHaveIds(rules, st, grad);
    var leaves := LeafSet(st.nodes, grad);
    var m := IdMap(rules, st, grad);
    assert forall n :: n in leaves ==> IdOf(st, n) in m && m[IdOf(st, n)] == n;
  }

  /** `build` on the single root: the four checks on the root in the source's order, then
      the allocations. */
  function BuildResult<T, E>(rules: Rules, st: BuilderState, root: Node, allocate: NodeData -> Result<T, E>)
    : Result<Graph<T>, BuildError<E>>
    requires WellFormed(rules, st) && root in st.roots
  {
    RootIndexed(rules, st.nodes, root);
    var data := st.nodes[root.idx];
    if !data.requiresGrad then Err(OutputIsInput)
    else if root in st.weights then Err(OutputIsWeights)
    else if root.shape != Shape(1, 1) || data.size != 1 then Err(OutputNotScalar)
    else
      match AllocateAll(allocate, st.nodes)
      case Err(e) => Err(Allocation(e))
      case Ok(tensors) => Ok(Graph(tensors, root, IdMap(rules, st, false), IdMap(rules, st, true)))
  }

  /** A single root builds exactly when it needs gradients, is not a weight and is a 1x1
      scalar, and every allocation succeeds. The graph then holds the slots' tensors in index
      order, that root, and maps from the ids of exactly the inputs and the weights to those
      nodes. */
  lemma BuildSucceeds<T, E>(rules: Rules, st: BuilderState, root: Node, allocate: NodeData -> Result<T, E>)
    requires WellFormed(rules, st) && root in st.roots
    ensures BuildResult(rules, st, root, allocate).Ok? <==>
      st.nodes[root.idx].requiresGrad && root !in st.weights && root.shape == Shape(1, 1) &&
      forall k :: 0 <= k < |st.nodes| ==> allocate(st.nodes[k]).Ok?
    ensures BuildResult(rules, st, root, allocate).Ok? ==> var g := BuildResult(rules, st, root, allocate).value;
      g.root == root && |g.tensors| == |st.nodes| &&
      (forall k :: 0 <= k < |st.nodes| ==> g.tensors[k] == allocate(st.nodes[k]).value) &&
      g.inputs.Values == st.inputs && g.weights.Values == st.weights &&
      (forall id :: id in g.inputs ==> st.nodes[g.inputs[id].idx].id == Some(id)) &&
      (forall id :: id in g.weights ==> st.nodes[g.weights[id].idx].id == Some(id))
  {
    RootIndexed(rules, st.nodes, root);
    AllocateAllSpec(allocate, st.nodes);
    IdMapSpec(rules, st, false);
    IdMapSpec(rules, st, true);
  }

  /** A root that is an input, or a weight, never builds: the output must be computed. */
  lemma LeafRootNeverBuilds<T, E>(rules: Rules, st: BuilderState, root: Node, allocate: NodeData -> Result<T, E>)
    requires WellFormed(rules, st) && root in st.roots && (root in st.inputs || root in st.weights)
    ensures BuildResult(rules, st, root, allocate).Err?
    ensures root in st.inputs ==> BuildResult(rules, st, root, allocate) == Err(OutputIsInput)
  {
    RootIndexed(rules, st.nodes, root);
  }

  // Scenarios.

  /** Registering weights "w" twice fails the second time with a duplicate id, leaving the
      arena at one node. */
  lemma DuplicateWeights(rules: Rules)
    ensures var first := Weights(rules, Empty, "w", Shape(1, 4));
      first.Ok? && |first.value.state.nodes| == 1 &&
      Weights(rules, first.value.state, "w", Shape(4, 1)) == Err(DuplicateId("w"))
  {
  }

  // The scalar-loss scenario: weights `w` (1x4) times input `x` (4x1), the power error of the
  // product against a 1x1 target `t`, reduced across the batch.

  const W := Node(0, Shape(1, 4), None)
  const X := Node(1, Shape(4, 1), None)
  const T := Node(2, Shape(1, 1), None)
  const WX := Node(3, Shape(1, 1), None)
  const Loss := Node(4, Shape(1, 1), None)
  const Out := Node(5, Shape(1, 1), None)

  const ProductOp := Matmul(W, false, X, false)
  const LossOp := PowerError(WX, T, 2.0)
  const OutOp := ReduceAcrossBatch(Loss)

  /** Shape rules that make the three results 1x1 and that read the operands they name. */
  predicate ScenarioRules(rules: Rules)
  {
    rules.outputShape(ProductOp) == Some(Shape(1, 1)) && rules.operands(ProductOp) == [W, X] &&
    rules.outputShape(LossOp) == Some(Shape(1, 1)) && rules.operands(LossOp) == [WX, T] &&
    rules.outputShape(OutOp) == Some(Shape(1, 1)) && rules.operands(OutOp) == [Loss]
  }

  const S1 := BuilderState([NodeData(Some("w"), 4, true, None, W)], {W}, {}, {W}, {"w"})
  const S2 := BuilderState(
    [NodeData(Some("w"), 4, true, None, W), NodeData(Some("x"), 4, false, None, X)],
    {W, X}, {X}, {W}, {"w", "x"})
  const S3 := BuilderState(
    [NodeData(Some("w"), 4, true, None, W), NodeData(Some("x"), 4, false, None, X),
     NodeData(Some("t"), 1, false, None, T)],
    {W, X, T}, {X, T}, {W}, {"w", "x", "t"})

  /** The three leaves, one step each. */
  lemma ScenarioWeights(rules: Rules)
    ensures Weights(rules, Empty, "w", Shape(1, 4)) == Ok(Created(S1, W))
  {
    var c := Weights(rules, Empty, "w", Shape(1, 4)).value;
    assert c.node == W;
    assert c.state.nodes == S1.nodes;
    assert c.state.roots == {W};
    assert c.state.ids == {"w"};
    assert c.state.weights == {W};
    assert c.state.inputs == {};
    assert c.state == S1;
  }

  lemma ScenarioInput(rules: Rules)
    ensures DenseInput(rules, S1, "x", Shape(4, 1)) == Ok(Created(S2, X))
  {
    var c := DenseInput(rules, S1, "x", Shape(4, 1)).value;
    assert c.node == X;
    assert c.state.nodes == S2.nodes;
    assert c.state.roots == {W, X};
    assert c.state.ids == {"w", "x"};
    assert c.state.inputs == {X};
    assert c.state == S2;
  }

  lemma ScenarioTarget(rules: Rules)
    ensures DenseInput(rules, S2, "t", Shape(1, 1)) == Ok(Created(S3, T))
  {
    var c := DenseInput(rules, S2, "t", Shape(1, 1)).value;
    assert c.node == T;
    assert c.state.nodes == S3.nodes;
    assert c.state.roots == {W, X, T};
    assert c.state.ids == {"w", "x", "t"};
    assert c.state.inputs == {X, T};
    assert c.state == S3;
  }

  lemma ScenarioLeaves(rules: Rules)
    ensures Weights(rules, Empty, "w", Shape(1, 4)) == Ok(Created(S1, W))
    ensures DenseInput(rules, S1, "x", Shape(4, 1)) == Ok(Created(S2, X))
    ensures DenseInput(rules, S2, "t", Shape(1, 1)) == Ok(Created(S3, T))
    ensures WellFormed(rules, S3)
  {
    EmptyWellFormed(rules);
    ScenarioWeights(rules);
    WeightsKeeps(rules, Empty, "w", Shape(1, 4));
    ScenarioInput(rules);
    DenseInputKeeps(rules, S1, "x", Shape(4, 1));
    ScenarioTarget(rules);
    DenseInputKeeps(rules, S2, "t", Shape(1, 1));
  }

  const S4 := S3.(nodes := S3.nodes + [NodeData(None, 1, true, Some(ProductOp), WX)], roots := {T, WX})
  const S5 := S4.(nodes := S4.nodes + [NodeData(None, 1, true, Some(LossOp), Loss)], roots := {Loss})
  const S6 := S5.(nodes := S5.nodes + [NodeData(None, 1, true, Some(OutOp), Out)], roots := {Out})

  /** The three operation results, each consuming its operands. */
  lemma ScenarioProduct(rules: Rules)
    requires ScenarioRules(rules)
    ensures ResultOfOperation(rules, S3, ProductOp, true) == Ok(Created(S4, WX))
  {
    assert ResultOfOperation(rules, S3, ProductOp, true).value.state.roots == {T, WX};
  }

  lemma ScenarioLoss(rules: Rules)
    requires ScenarioRules(rules)
    ensures ResultOfOperation(rules, S4, LossOp, true) == Ok(Created(S5, Loss))
  {
    assert ResultOfOperation(rules, S4, LossOp, true).value.state.roots == {Loss};
  }

  lemma ScenarioOutput(rules: Rules)
    requires ScenarioRules(rules)
    ensures ResultOfOperation(rules, S5, OutOp, true) == Ok(Created(S6, Out))
  {
    assert ResultOfOperation(rules, S5, OutOp, true).value.state.roots == {Out};
  }

  lemma ScenarioWellFormed(rules: Rules)
    requires ScenarioRules(rules)
    ensures WellFormed(rules, S6)
  {
    ScenarioLeaves(rules);
    ScenarioProduct(rules);
    ScenarioLoss(rules);
    ScenarioOutput(rules);
    ResultOfOperationKeeps(rules, S3, ProductOp, true);
    assert WellFormed(rules, S4);
    ResultOfOperationKeeps(rules, S4, LossOp, true);
    assert WellFormed(rules, S5);
    ResultOfOperationKeeps(rules, S5, OutOp, true);
  }

  /** The scenario builds: its single root is the 1x1 reduction, which needs gradients and is
      not a weight, so with allocations that succeed `build` gives the graph. */
  lemma ScalarLossBuilds<T, E>(rules: Rules, allocate: NodeData -> Result<T, E>)
    requires ScenarioRules(rules)
    requires forall d :: allocate(d).Ok?
    ensures WellFormed(rules, S6) && S6.roots == {Out} && Out.shape == Shape(1, 1)
    ensures BuildResult(rules, S6, Out, allocate).Ok?
  {
    ScenarioWellFormed(rules);
    assert S6.nodes[Out.idx].requiresGrad && Out !in S6.weights;
    BuildSucceeds(rules, S6, Out, allocate);
  }

  // The builder object.

  /** `GraphBuilder`: the arena and the four sets, changed in place. */
  class GraphBuilder {
    const rules: Rules
    var nodes: seq<NodeData>
    var roots: set<Node>
    var inputs: set<Node>
    var weights: set<Node>
    var ids: set<string>

    function State(): BuilderState
      reads this
    {
      BuilderState(nodes, roots, inputs, weights, ids)
    }

    ghost predicate Valid()
      reads this
    {
      WellFormed(rules, State()) && SparseAreInputs(nodes)
    }

    /** `GraphBuilder::default()`. */
    constructor (rules: Rules)
      ensures this.rules == rules && State() == Empty && Valid()
    {
      this.rules := rules;
      nodes, roots, inputs, weights, ids := [], {}, {}, {}, {};
      new;
      EmptyWellFormed(rules);
    }

    /** `create_node`: register the id (failing if it is taken), give the node the next
        index, remove each operand's root and make the node a root. */
    method CreateNode(data: NodeData, shape: Shape, sparse: Option<NonZero>) returns (r: Result<Node, CreateError>)
      modifies this
      ensures match Insert(rules, old(State()), data, shape, sparse)
        case Ok(c) => r == Ok(c.node) && State() == c.state
        case Err(e) => r == Err(e) && State() == old(State())
    {
      if data.id.Some? {
        if data.id.value in ids {
          return Err(DuplicateId(data.id.value));
        }
        ids := ids + {data.id.value};
      }
      var node := Node(|nodes|, shape, sparse);
      var ops := OperandsOf(rules, data.parent);
      var i := 0;
      while i < |ops|
        invariant i <= |ops|
        invariant roots == RemoveOperands(old(roots), ops[..i])
        invariant nodes == old(nodes) && inputs == old(inputs) && weights == old(weights)
        invariant ids == old(ids) + (if data.id.Some? then {data.id.value} else {})
      {
        var parent := ops[i];
        roots := set x | x in roots && x.idx != parent.idx;
        assert ops[..i + 1] == ops[..i] + [parent];
        i := i + 1;
      }
      assert ops[..i] == ops;
      nodes := nodes + [data.(own := node)];
      roots := roots + {node};
      return Ok(node);
    }

    /** `create_dense_input`. */
    method CreateDenseInput(id: string, shape: Shape) returns (r: Result<Node, CreateError>)
      requires Valid()
      modifies this
      ensures Valid()
      ensures match DenseInput(rules, old(State()), id, shape)
        case Ok(c) => r == Ok(c.node) && State() == c.state
        case Err(e) => r == Err(e) && State() == old(State())
    {
      var data := NewNodeData(Some(id), None, shape.Size(), false, None);
      if DenseInput(rules, State(), id, shape).Ok? {
        DenseInputKeeps(rules, State(), id, shape);
        InsertKeepsSparse(rules, State(), data, shape, None);
      }
      r := CreateNode(data, shape, None);
      if r.Ok? {
        inputs := inputs + {r.value};
      }
    }

    /** `create_sparse_input`: `nnz` must be non-zero. */
    method CreateSparseInput(id: string, shape: Shape, nnz: nat) returns (r: Result<Node, CreateError>)
      requires Valid()
      modifies this
      ensures Valid()
      ensures match SparseInput(rules, old(State()), id, shape, nnz)
        case Ok(c) => r == Ok(c.node) && State() == c.state
        case Err(e) => r == Err(e) && State() == old(State())
    {
      var data := NewNodeData(Some(id), None, shape.Size(), false, None);
      if SparseInput(rules, State(), id, shape, nnz).Ok? {
        SparseInputKeeps(rules, State(), id, shape, nnz);
        InsertKeepsSparse(rules, State(), data, shape, Some(nnz));
      }
      if nnz == 0 {
        return Err(ZeroNonZeros);
      }
      r := CreateNode(data, shape, Some(nnz));
      if r.Ok? {
        inputs := inputs + {r.value};
      }
    }

    /** `create_weights`. */
    method CreateWeights(id: string, shape: Shape) returns (r: Result<Node, CreateError>)
      requires Valid()
      modifies this
      ensures Valid()
      ensures match Weights(rules, old(State()), id, shape)
        case Ok(c) => r == Ok(c.node) && State() == c.state
        case Err(e) => r == Err(e) && State() == old(State())
    {
      var data := NewNodeData(Some(id), None, shape.Size(), true, None);
      if Weights(rules, State(), id, shape).Ok? {
        WeightsKeeps(rules, State(), id, shape);
        InsertKeepsSparse(rules, State(), data, shape, None);
      }
      r := CreateNode(data, shape, None);
      if r.Ok? {
        weights := weights + {r.value};
      }
    }

    /** `create_result_of_operation`. */
    method CreateResultOfOperation(op: Operation, requiresGrad: bool) returns (r: Result<Node, CreateError>)
      requires Valid()
      modifies this
      ensures Valid()
      ensures match ResultOfOperation(rules, old(State()), op, requiresGrad)
        case Ok(c) => r == Ok(c.node) && State() == c.state
        case Err(e) => r == Err(e) && State() == old(State())
    {
      if ResultOfOperation(rules, State(), op, requiresGrad).Ok? {
        ResultOfOperationKeeps(rules, State(), op, requiresGrad);
      }
      var shape := rules.outputShape(op);
      if shape.None? {
        return Err(InvalidOperation(op));
      }
      var data := NewNodeData(None, Some(op), shape.value.Size(), requiresGrad, None);
      if Insert(rules, State(), data, shape.value, None).Ok? {
        InsertKeepsSparse(rules, State(), data, shape.value, None);
      }
      r := CreateNode(data, shape.value, None);
    }

    /** `root`: the single root, or None where the source panics because there is not
        exactly one. */
    method Root() returns (r: Option<Node>)
      ensures r.Some? <==> |roots| == 1
      ensures r.Some? ==> roots == {r.value}
    {
      if |roots| != 1 {
        return None;
      }
      var root :| root in roots;
      assert roots == {root} by {
        assert |roots - {root}| == 0;
      }
      return Some(root);
    }

    /** `build`: check the single root, then allocate one tensor per slot in index order,
        stopping at the first allocation error. */
    method Build<T, E>(allocate: NodeData -> Result<T, E>) returns (r: Result<Graph<T>, BuildError<E>>)
      requires Valid()
      ensures |roots| != 1 ==> r == Err(NotSingleOutput)
      ensures forall root :: root in roots && |roots| == 1 ==> r == BuildResult(rules, State(), root, allocate)
    {
      var single := Root();
      if single.None? {
        return Err(NotSingleOutput);
      }
      var root := single.value;
      RootIndexed(rules, nodes, root);
      var data := nodes[root.idx];
      if !data.requiresGrad {
        return Err(OutputIsInput);
      }
      if root in weights {
        return Err(OutputIsWeights);
      }
      if root.shape != Shape(1, 1) || data.size != 1 {
        return Err(OutputNotScalar);
      }
      var tensors: seq<T> := [];
      var k := 0;
      while k < |nodes|
        invariant k <= |nodes|
        invariant AllocateAll(allocate, nodes[..k]) == Ok(tensors)
      {
        assert nodes[..k + 1][..k] == nodes[..k];
        var tensor := allocate(nodes[k]);
        if tensor.Err? {
          AllocatePrefixFails(allocate, nodes, k + 1);
          return Err(Allocation(tensor.error));
        }
        tensors := tensors + [tensor.value];
        k := k + 1;
      }
      assert nodes[..k] == nodes;
      return Ok(Graph(tensors, root, IdMap(rules, State(), false), IdMap(rules, State(), true)));
    }
  }
}
