/** Batch preparation for the default trainer (src/trainer/default/loader.rs): the mapping of a
    stored game-result index to a `GameResult`, and `DefaultDataPreparer::prepare`, which sizes
    the input, bucket and target buffers of a batch and fills them position by position.

    The source splits the batch into contiguous chunks, one per worker thread; each chunk
    starts at a multiple of the chunk length in every buffer, so a position's offsets inside
    its chunk agree with its offsets in the whole buffer. The model fills the buffers with one
    loop over the positions. */
module Loader {
  import opened Wrappers
  import opened Arith

  datatype GameResult = Loss | Draw | Win

  /** `GameResult as u8`: the `repr(u8)` discriminants Loss = 0, Draw = 1, Win = 2. */
  function ResultIndex(g: GameResult): (i: nat)
    ensures i < 3
    ensures i == 0 <==> g == Loss
    ensures i == 1 <==> g == Draw
    ensures i == 2 <==> g == Win
  {
    match g
    case Loss => 0
    case Draw => 1
    case Win => 2
  }

  /** `[Loss, Draw, Win][result_idx]`: None where the source indexes out of bounds and panics. */
  function ResultFromIndex(i: nat): (r: Option<GameResult>)
    ensures r.Some? <==> i < 3
    ensures r.Some? ==> ResultIndex(r.value) == i
  {
    if i == 0 then Some(Loss) else if i == 1 then Some(Draw) else if i == 2 then Some(Win) else None
  }

  /** The stored index of a result maps back to that result. */
  lemma ResultIndexRoundTrip(g: GameResult)
    ensures ResultFromIndex(ResultIndex(g)) == Some(g)
  {
  }

  type U8 = b: nat | b < 256

  /** One active input feature, as the side to move sees it and as its opponent does. */
  datatype Feature = Feature(our: nat, opp: nat)

  type I16 = x: int | -0x8000 <= x < 0x8000

  /** What `prepare` reads of one training position: the features the input getter maps it
      to (in the order it reports them), the output bucket the output getter assigns it, its
      stored game-result index and its score. */
  datatype Position = Position(features: seq<Feature>, bucket: U8, resultIdx: nat, score: I16)

  datatype Perspective = SideToMove | Opponent

  datatype PrepareError =
    | DivideByZero     // `div_ceil` by zero threads
    | ZeroChunkSize    // `chunks(0)` or `chunks_mut(0)`
    | WorkerPanicked   // a position with too many features or a bad result index

  function Pick(f: Feature, p: Perspective): nat
  {
    match p
    case SideToMove => f.our
    case Opponent => f.opp
  }

  function Repeat<T>(x: T, n: int): (s: seq<T>)
    ensures |s| == if n > 0 then n else 0
    ensures forall k :: 0 <= k < |s| ==> s[k] == x
  {
    seq(if n > 0 then n else 0, _ => x)
  }

  /** A buffer of length n whose first part is front and whose rest is still zero. */
  function Filled<T>(front: seq<T>, zero: T, n: nat): seq<T>
  {
    front + Repeat(zero, n - |front|)
  }

  /** The rows laid end to end. */
  function Concat<T>(rows: seq<seq<T>>): seq<T>
  {
    if rows == [] then [] else Concat(rows[..|rows| - 1]) + rows[|rows| - 1]
  }

  lemma {:induction false} ConcatLength<T>(rows: seq<seq<T>>, w: nat)
    requires forall i :: 0 <= i < |rows| ==> |rows[i]| == w
    ensures |Concat(rows)| == w * |rows|
  {
    if rows != [] {
      ConcatLength(rows[..|rows| - 1], w);
      assert w * |rows| == w * (|rows| - 1) + w;
    }
  }

  /** Entry j of row i sits at offset w * i + j when every row has width w. */
  lemma {:induction false} ConcatAt<T>(rows: seq<seq<T>>, w: nat, i: nat, j: nat)
    requires forall k :: 0 <= k < |rows| ==> |rows[k]| == w
    requires i < |rows| && j < w
    ensures w * i + j < |Concat(rows)| && Concat(rows)[w * i + j] == rows[i][j]
  {
    var front := rows[..|rows| - 1];
    ConcatLength(front, w);
    ConcatLength(rows, w);
    if i < |rows| - 1 {
      ConcatAt(front, w, i, j);
      assert rows[i] == front[i];
    } else {
      assert w * i == |Concat(front)|;
    }
  }

  /** No position has more features than a row holds. */
  predicate FitsActive(data: seq<Position>, maxActive: nat)
  {
    forall i :: 0 <= i < |data| ==> |data[i].features| <= maxActive
  }

  predicate ResultsValid(data: seq<Position>)
  {
    forall i :: 0 <= i < |data| ==> data[i].resultIdx < 3
  }

  /** The positions on which no worker panics. */
  predicate PositionsOk(data: seq<Position>, maxActive: nat)
  {
    FitsActive(data, maxActive) && ResultsValid(data)
  }

  /** Feature indices stay below the input size: the input getter's promise, on which the
      dense layout relies. */
  predicate FeaturesBelow(data: seq<Position>, inputSize: nat)
  {
    forall i, j :: 0 <= i < |data| && 0 <= j < |data[i].features| ==>
      data[i].features[j].our < inputSize && data[i].features[j].opp < inputSize
  }

  /** A position's sparse row of maxActive slots: its feature indices in order, then the
      sentinel -1 if there is room, then zeros. */
  function SparseRow(features: seq<Feature>, maxActive: nat, p: Perspective): (row: seq<int>)
    ensures |row| == maxActive
  {
    seq(maxActive, j =>
      if 0 <= j < |features| then Pick(features[j], p) as int
      else if j == |features| then -1
      else 0)
  }

  predicate HasFeature(features: seq<Feature>, p: Perspective, k: nat)
  {
    exists j :: 0 <= j < |features| && Pick(features[j], p) == k
  }

  /** A position's dense one-hot row of inputSize entries: one exactly at its features. */
  function DenseRow(features: seq<Feature>, inputSize: nat, p: Perspective): (row: seq<real>)
    ensures |row| == inputSize
  {
    seq(inputSize, k => if k >= 0 && HasFeature(features, p, k) then 1.0 else 0.0)
  }

  /** The three WDL targets of a result: one at the result's index. */
  function WdlRow(g: GameResult): (row: seq<real>)
    ensures |row| == 3
  {
    seq(3, c => if c == ResultIndex(g) then 1.0 else 0.0)
  }

  /** The single blended target: `blend * result / 2 + (1 - blend) * sigmoid(score / scale)`.
      The sigmoid of the scaled score is floating-point work and is given as `squash`. */
  function BlendTarget(pos: Position, blend: real, squash: int -> real): real
  {
    blend * (pos.resultIdx as real / 2.0) + (1.0 - blend) * squash(pos.score)
  }

  /** With the whole weight on the result, the blended target is the game's score for the
      side to move: 1 for a win, 1/2 for a draw, 0 for a loss. */
  lemma BlendTargetOfResult(pos: Position, squash: int -> real)
    requires pos.resultIdx < 3
    ensures var g := ResultFromIndex(pos.resultIdx).value;
      BlendTarget(pos, 1.0, squash) == (if g == Win then 1.0 else if g == Draw then 0.5 else 0.0)
  {
  }

  /** The targets of one position: its WDL row, or its blended target alone. */
  function TargetRow(pos: Position, wdl: bool, blend: real, squash: int -> real): (row: seq<real>)
    requires pos.resultIdx < 3
    ensures |row| == if wdl then 3 else 1
  {
    if wdl then WdlRow(ResultFromIndex(pos.resultIdx).value) else [BlendTarget(pos, blend, squash)]
  }

  function SparseBuffer(data: seq<Position>, maxActive: nat, p: Perspective): seq<int>
  {
    Concat(seq(|data|, i requires 0 <= i < |data| => SparseRow(data[i].features, maxActive, p)))
  }

  function DenseBuffer(data: seq<Position>, inputSize: nat, p: Perspective): seq<real>
  {
    Concat(seq(|data|, i requires 0 <= i < |data| => DenseRow(data[i].features, inputSize, p)))
  }

  function Buckets(data: seq<Position>): seq<int>
  {
    seq(|data|, i requires 0 <= i < |data| => data[i].bucket as int)
  }

  function Targets(data: seq<Position>, wdl: bool, blend: real, squash: int -> real): seq<real>
    requires ResultsValid(data)
  {
    Concat(seq(|data|, i requires 0 <= i < |data| => TargetRow(data[i], wdl, blend, squash)))
  }

  // Layout of the buffers.

  lemma BufferLengths(data: seq<Position>, maxActive: nat, inputSize: nat, wdl: bool,
                      blend: real, squash: int -> real)
    requires ResultsValid(data)
    ensures forall p: Perspective :: |SparseBuffer(data, maxActive, p)| == maxActive * |data|
    ensures forall p: Perspective :: |DenseBuffer(data, inputSize, p)| == inputSize * |data|
    ensures |Buckets(data)| == |data|
    ensures |Targets(data, wdl, blend, squash)| == (if wdl then 3 else 1) * |data|
  {
    forall p: Perspective
      ensures |SparseBuffer(data, maxActive, p)| == maxActive * |data|
      ensures |DenseBuffer(data, inputSize, p)| == inputSize * |data|
    {
      ConcatLength(seq(|data|, i requires 0 <= i < |data| => SparseRow(data[i].features, maxActive, p)), maxActive);
      ConcatLength(seq(|data|, i requires 0 <= i < |data| => DenseRow(data[i].features, inputSize, p)), inputSize);
    }
    ConcatLength(seq(|data|, i requires 0 <= i < |data| => TargetRow(data[i], wdl, blend, squash)),
                 if wdl then 3 else 1);
  }

  /** In sparse mode the j-th slot of position i is at maxActive * i + j: the j-th feature
      index, else the sentinel -1 right after the last feature, else 0. */
  lemma SparseBufferAt(data: seq<Position>, maxActive: nat, p: Perspective, i: nat, j: nat)
    requires i < |data| && j < maxActive
    ensures maxActive * i + j < |SparseBuffer(data, maxActive, p)|
    ensures var f := data[i].features;
      SparseBuffer(data, maxActive, p)[maxActive * i + j] ==
        if j < |f| then Pick(f[j], p) as int else if j == |f| then -1 else 0
  {
    var rows := seq(|data|, k requires 0 <= k < |data| => SparseRow(data[k].features, maxActive, p));
    ConcatAt(rows, maxActive, i, j);
  }

  /** In dense mode entry k of position i is at inputSize * i + k, and it is one exactly when
      one of the position's features has index k. */
  lemma DenseBufferAt(data: seq<Position>, inputSize: nat, p: Perspective, i: nat, k: nat)
    requires i < |data| && k < inputSize
    ensures inputSize * i + k < |DenseBuffer(data, inputSize, p)|
    ensures DenseBuffer(data, inputSize, p)[inputSize * i + k] ==
      if HasFeature(data[i].features, p, k) then 1.0 else 0.0
  {
    var rows := seq(|data|, j requires 0 <= j < |data| => DenseRow(data[j].features, inputSize, p));
    ConcatAt(rows, inputSize, i, k);
  }

  /** With WDL targets, entry c of position i is at 3 * i + c, and it is one exactly at the
      position's result index; otherwise entry i is the blended target of position i. */
  lemma TargetsAt(data: seq<Position>, wdl: bool, blend: real, squash: int -> real, i: nat, c: nat)
    requires ResultsValid(data) && i < |data| && c < (if wdl then 3 else 1)
    ensures (if wdl then 3 * i + c else i) < |Targets(data, wdl, blend, squash)|
    ensures wdl ==> Targets(data, wdl, blend, squash)[3 * i + c] == if c == data[i].resultIdx then 1.0 else 0.0
    ensures !wdl ==> Targets(data, wdl, blend, squash)[i] == BlendTarget(data[i], blend, squash)
  {
    var rows := seq(|data|, j requires 0 <= j < |data| => TargetRow(data[j], wdl, blend, squash));
    ConcatAt(rows, if wdl then 3 else 1, i, c);
  }

  // Growing the buffers by one position.

  lemma ConcatSnoc<T>(rows: seq<seq<T>>, x: seq<T>)
    ensures Concat(rows + [x]) == Concat(rows) + x
  {
    assert (rows + [x])[..|rows|] == rows;
  }

  /** Each buffer of front + [pos] is the buffer of front followed by the rows of pos: the
      sparse buffers, the dense buffers, then the buckets and targets. */
  lemma SparseSnoc(front: seq<Position>, pos: Position, maxActive: nat, p: Perspective)
    ensures SparseBuffer(front + [pos], maxActive, p) == SparseBuffer(front, maxActive, p) + SparseRow(pos.features, maxActive, p)
  {
    var d := front + [pos];
    var rs := seq(|front|, k requires 0 <= k < |front| => SparseRow(front[k].features, maxActive, p));
    assert seq(|d|, k requires 0 <= k < |d| => SparseRow(d[k].features, maxActive, p)) ==
      rs + [SparseRow(pos.features, maxActive, p)];
    ConcatSnoc(rs, SparseRow(pos.features, maxActive, p));
  }

  lemma DenseSnoc(front: seq<Position>, pos: Position, inputSize: nat, p: Perspective)
    ensures DenseBuffer(front + [pos], inputSize, p) == DenseBuffer(front, inputSize, p) + DenseRow(pos.features, inputSize, p)
  {
    var d := front + [pos];
    var rd := seq(|front|, k requires 0 <= k < |front| => DenseRow(front[k].features, inputSize, p));
    assert seq(|d|, k requires 0 <= k < |d| => DenseRow(d[k].features, inputSize, p)) ==
      rd + [DenseRow(pos.features, inputSize, p)];
    ConcatSnoc(rd, DenseRow(pos.features, inputSize, p));
  }

  lemma BucketsTargetsSnoc(front: seq<Position>, pos: Position, wdl: bool, blend: real, squash: int -> real)
    requires ResultsValid(front) && pos.resultIdx < 3
    ensures ResultsValid(front + [pos])
    ensures Buckets(front + [pos]) == Buckets(front) + [pos.bucket as int]
    ensures Targets(front + [pos], wdl, blend, squash) ==
      Targets(front, wdl, blend, squash) + TargetRow(pos, wdl, blend, squash)
  {
    var d := front + [pos];
    assert forall k :: 0 <= k < |front| ==> d[k] == front[k];
    assert d[|front|] == pos;
    assert Buckets(d) == Buckets(front) + [pos.bucket as int];
    var rt := seq(|front|, k requires 0 <= k < |front| => TargetRow(front[k], wdl, blend, squash));
    assert seq(|d|, k requires 0 <= k < |d| => TargetRow(d[k], wdl, blend, squash)) ==
      rt + [TargetRow(pos, wdl, blend, squash)];
    ConcatSnoc(rt, TargetRow(pos, wdl, blend, squash));
  }

  /** Past front, a filled buffer is still zero. */
  lemma FilledTail<T>(front: seq<T>, zero: T, n: nat)
    requires |front| <= n
    ensures |Filled(front, zero, n)| == n
    ensures forall k :: |front| <= k < n ==> Filled(front, zero, n)[k] == zero
  {
  }

  /** Writing a row over the zeros that follow front gives the buffer filled up to front + row. */
  lemma SpliceFilled<T>(front: seq<T>, row: seq<T>, zero: T, n: nat)
    requires |front| + |row| <= n
    ensures var b := Filled(front, zero, n);
      |b| == n && b[..|front|] + row + b[|front| + |row|..] == Filled(front + row, zero, n)
  {
    var b := Filled(front, zero, n);
    assert b[..|front|] == front;
    assert b[|front| + |row|..] == Repeat(zero, n - |front| - |row|);
  }

  // Writing one position.

  /** The sparse slots of one position: each feature at offset + j, then the sentinel when
      there is room, over the zeros that follow the positions already written. */
  method WriteSparseRow(stm: array<int>, nstm: array<int>, offset: nat, features: seq<Feature>, maxActive: nat,
                        ghost frontS: seq<int>, ghost frontO: seq<int>)
    requires stm != nstm && |features| <= maxActive
    requires offset == |frontS| == |frontO| && offset + maxActive <= stm.Length && offset + maxActive <= nstm.Length
    requires stm[..] == Filled(frontS, 0, stm.Length) && nstm[..] == Filled(frontO, 0, nstm.Length)
    modifies stm, nstm
    ensures stm[..] == Filled(frontS + SparseRow(features, maxActive, SideToMove), 0, stm.Length)
    ensures nstm[..] == Filled(frontO + SparseRow(features, maxActive, Opponent), 0, nstm.Length)
  {
    var j := 0;
    while j < |features|
      invariant j <= |features|
      invariant forall k :: 0 <= k < stm.Length ==>
        stm[k] == if offset <= k < offset + j then features[k - offset].our as int else old(stm[k])
      invariant forall k :: 0 <= k < nstm.Length ==>
        nstm[k] == if offset <= k < offset + j then features[k - offset].opp as int else old(nstm[k])
    {
      stm[offset + j] := features[j].our as int;
      nstm[offset + j] := features[j].opp as int;
      j := j + 1;
    }
    if j < maxActive {
      stm[offset + j] := -1;
      nstm[offset + j] := -1;
    }
    ghost var newS := Filled(frontS + SparseRow(features, maxActive, SideToMove), 0, stm.Length);
    ghost var newO := Filled(frontO + SparseRow(features, maxActive, Opponent), 0, nstm.Length);
    assert forall k :: 0 <= k < stm.Length ==> stm[k] == newS[k];
    assert forall k :: 0 <= k < nstm.Length ==> nstm[k] == newO[k];
    assert stm[..] == newS;
    assert nstm[..] == newO;
  }

  lemma HasFeatureSnoc(fs: seq<Feature>, f: Feature, p: Perspective, k: nat)
    ensures HasFeature(fs + [f], p, k) == (HasFeature(fs, p, k) || Pick(f, p) == k)
  {
    if HasFeature(fs, p, k) {
      var j :| 0 <= j < |fs| && Pick(fs[j], p) == k;
      assert (fs + [f])[j] == fs[j];
    }
    if Pick(f, p) == k {
      assert (fs + [f])[|fs|] == f;
    }
  }

  /** The dense one-hot row of one position: a one at offset + each feature index, over the
      zeros that follow the positions already written. */
  method WriteDenseRow(dstm: array<real>, dnstm: array<real>, offset: nat, features: seq<Feature>, inputSize: nat,
                       ghost frontS: seq<real>, ghost frontO: seq<real>)
    requires dstm != dnstm
    requires offset == |frontS| == |frontO| && offset + inputSize <= dstm.Length && offset + inputSize <= dnstm.Length
    requires forall j :: 0 <= j < |features| ==> features[j].our < inputSize && features[j].opp < inputSize
    requires dstm[..] == Filled(frontS, 0.0, dstm.Length) && dnstm[..] == Filled(frontO, 0.0, dnstm.Length)
    modifies dstm, dnstm
    ensures dstm[..] == Filled(frontS + DenseRow(features, inputSize, SideToMove), 0.0, dstm.Length)
    ensures dnstm[..] == Filled(frontO + DenseRow(features, inputSize, Opponent), 0.0, dnstm.Length)
  {
    var j := 0;
    while j < |features|
      invariant j <= |features|
      invariant forall k :: 0 <= k < dstm.Length ==>
        dstm[k] == if offset <= k < offset + inputSize && HasFeature(features[..j], SideToMove, k - offset) then 1.0 else old(dstm[k])
      invariant forall k :: 0 <= k < dnstm.Length ==>
        dnstm[k] == if offset <= k < offset + inputSize && HasFeature(features[..j], Opponent, k - offset) then 1.0 else old(dnstm[k])
    {
      ghost var before := features[..j];
      assert features[..j + 1] == before + [features[j]];
      forall k | 0 <= k < inputSize
        ensures HasFeature(features[..j + 1], SideToMove, k) == (HasFeature(before, SideToMove, k) || features[j].our == k)
        ensures HasFeature(features[..j + 1], Opponent, k) == (HasFeature(before, Opponent, k) || features[j].opp == k)
      {
        HasFeatureSnoc(before, features[j], SideToMove, k);
        HasFeatureSnoc(before, features[j], Opponent, k);
      }
      dstm[offset + features[j].our] := 1.0;
      dnstm[offset + features[j].opp] := 1.0;
      j := j + 1;
    }
    assert features[..j] == features;
    ghost var newS := Filled(frontS + DenseRow(features, inputSize, SideToMove), 0.0, dstm.Length);
    ghost var newO := Filled(frontO + DenseRow(features, inputSize, Opponent), 0.0, dnstm.Length);
    assert forall k :: 0 <= k < dstm.Length ==> dstm[k] == newS[k];
    assert forall k :: 0 <= k < dnstm.Length ==> dnstm[k] == newO[k];
    assert dstm[..] == newS;
    assert dnstm[..] == newO;
  }

  /** `buckets_chunk[i] = bucket`. */
  method WriteBucket(buckets: array<int>, i: nat, bucket: U8, ghost front: seq<int>)
    requires i == |front| < buckets.Length && buckets[..] == Filled(front, 0, buckets.Length)
    modifies buckets
    ensures buckets[..] == Filled(front + [bucket as int], 0, buckets.Length)
  {
    buckets[i] := bucket as int;
    ghost var b := Filled(front + [bucket as int], 0, buckets.Length);
    assert forall k :: 0 <= k < buckets.Length ==> buckets[k] == b[k];
    assert buckets[..] == b;
  }

  /** The targets of position i: a one at the result's index among its three WDL slots, or
      its blended target. */
  method WriteTargets(targets: array<real>, i: nat, pos: Position, wdl: bool, blend: real, squash: int -> real,
                      ghost front: seq<real>)
    requires pos.resultIdx < 3
    requires |front| == (if wdl then 3 * i else i) && |front| + (if wdl then 3 else 1) <= targets.Length
    requires targets[..] == Filled(front, 0.0, targets.Length)
    modifies targets
    ensures targets[..] == Filled(front + TargetRow(pos, wdl, blend, squash), 0.0, targets.Length)
  {
    if wdl {
      targets[3 * i + pos.resultIdx] := 1.0;
    } else {
      targets[i] := BlendTarget(pos, blend, squash);
    }
    ghost var t := Filled(front + TargetRow(pos, wdl, blend, squash), 0.0, targets.Length);
    assert forall k :: 0 <= k < targets.Length ==> targets[k] == t[k];
    assert targets[..] == t;
  }

  /** The buffers of a batch (the fields of `DefaultDataPreparer`), with the dimensions their
      shapes record. */
  class PreparedBatch {
    const batchSize: nat
    const maxActive: nat
    const inputSize: nat
    const outputSize: nat
    const stm: array<int>
    const nstm: array<int>
    const dstm: array<real>
    const dnstm: array<real>
    const buckets: array<int>
    const targets: array<real>

    /** The zero-filled buffers, `vec![0; n]` each. */
    constructor (batchSize: nat, maxActive: nat, inputSize: nat, outputSize: nat,
                 sparseSize: nat, denseSize: nat)
      ensures this.batchSize == batchSize && this.maxActive == maxActive
      ensures this.inputSize == inputSize && this.outputSize == outputSize
      ensures fresh(stm) && fresh(nstm) && fresh(dstm) && fresh(dnstm) && fresh(buckets) && fresh(targets)
      ensures Distinct()
      ensures stm[..] == Repeat(0, sparseSize) && nstm[..] == Repeat(0, sparseSize)
      ensures dstm[..] == Repeat(0.0, denseSize) && dnstm[..] == Repeat(0.0, denseSize)
      ensures buckets[..] == Repeat(0, batchSize)
      ensures targets[..] == Repeat(0.0, outputSize * batchSize)
    {
      this.batchSize, this.maxActive := batchSize, maxActive;
      this.inputSize, this.outputSize := inputSize, outputSize;
      stm := new int[sparseSize](_ => 0);
      nstm := new int[sparseSize](_ => 0);
      dstm := new real[denseSize](_ => 0.0);
      dnstm := new real[denseSize](_ => 0.0);
      buckets := new int[batchSize](_ => 0);
      targets := new real[outputSize * batchSize](_ => 0.0);
    }

    /** The six buffers are separate vectors. */
    predicate Distinct()
    {
      stm != nstm && stm != buckets && nstm != buckets &&
      dstm != dnstm && dstm != targets && dnstm != targets
    }

    /** The buffer lengths `prepare` allocates, in dense or sparse mode. */
    predicate Shaped(dense: bool, wdl: bool)
    {
      outputSize == (if wdl then 3 else 1) &&
      stm.Length == nstm.Length == (if dense then batchSize else maxActive * batchSize) &&
      dstm.Length == dnstm.Length == (if dense then inputSize * batchSize else batchSize) &&
      buckets.Length == batchSize && targets.Length == outputSize * batchSize
    }

    /** The sparse buffers hold the rows of data (in sparse mode) and zeros after them. */
    ghost predicate SparseFilled(data: seq<Position>, dense: bool)
      reads stm, nstm
    {
      stm[..] == Filled(if dense then [] else SparseBuffer(data, maxActive, SideToMove), 0, stm.Length) &&
      nstm[..] == Filled(if dense then [] else SparseBuffer(data, maxActive, Opponent), 0, nstm.Length)
    }

    /** The dense buffers hold the rows of data (in dense mode) and zeros after them. */
    ghost predicate DenseFilled(data: seq<Position>, dense: bool)
      reads dstm, dnstm
    {
      dstm[..] == Filled(if dense then DenseBuffer(data, inputSize, SideToMove) else [], 0.0, dstm.Length) &&
      dnstm[..] == Filled(if dense then DenseBuffer(data, inputSize, Opponent) else [], 0.0, dnstm.Length)
    }

    /** The positions in data are written and the rest of every buffer is still zero. */
    ghost predicate FilledUpTo(data: seq<Position>, dense: bool, wdl: bool, blend: real, squash: int -> real)
      reads stm, nstm, dstm, dnstm, buckets, targets
      requires ResultsValid(data)
    {
      SparseFilled(data, dense) && DenseFilled(data, dense) &&
      buckets[..] == Filled(Buckets(data), 0, buckets.Length) &&
      targets[..] == Filled(Targets(data, wdl, blend, squash), 0.0, targets.Length)
    }

    /** The body of a worker's loop for position i, the positions before it written. */
    method WritePosition(data: seq<Position>, i: nat, dense: bool, wdl: bool, blend: real, squash: int -> real)
      requires Distinct() && Shaped(dense, wdl)
      requires i < |data| == batchSize
      requires ResultsValid(data[..i]) && |data[i].features| <= maxActive && data[i].resultIdx < 3
      requires dense ==> FeaturesBelow(data, inputSize)
      requires FilledUpTo(data[..i], dense, wdl, blend, squash)
      modifies stm, nstm, dstm, dnstm, buckets, targets
      ensures ResultsValid(data[..i + 1])
      ensures FilledUpTo(data[..i + 1], dense, wdl, blend, squash)
    {
      WriteFeatures(data, i, dense, wdl);
      WriteLabels(data, i, dense, wdl, blend, squash);
    }

    /** The feature rows of position i: its sparse rows or its dense rows. */
    method WriteFeatures(data: seq<Position>, i: nat, dense: bool, wdl: bool)
      requires Distinct() && Shaped(dense, wdl)
      requires i < |data| == batchSize
      requires ResultsValid(data[..i]) && |data[i].features| <= maxActive
      requires dense ==> FeaturesBelow(data, inputSize)
      requires SparseFilled(data[..i], dense) && DenseFilled(data[..i], dense)
      modifies stm, nstm, dstm, dnstm
      ensures SparseFilled(data[..i + 1], dense) && DenseFilled(data[..i + 1], dense)
    {
      var pos := data[i];
      ghost var front := data[..i];
      assert data[..i + 1] == front + [pos];
      BufferLengths(front, maxActive, inputSize, wdl, 0.0, x => 0.0);
      if dense {
        DenseSnoc(front, pos, inputSize, SideToMove);
        DenseSnoc(front, pos, inputSize, Opponent);
        MulStep(inputSize, i, batchSize);
        assert forall j :: 0 <= j < |pos.features| ==> pos.features[j].our < inputSize && pos.features[j].opp < inputSize;
        WriteDenseRow(dstm, dnstm, inputSize * i, pos.features, inputSize,
                      DenseBuffer(front, inputSize, SideToMove), DenseBuffer(front, inputSize, Opponent));
      } else {
        SparseSnoc(front, pos, maxActive, SideToMove);
        SparseSnoc(front, pos, maxActive, Opponent);
        MulStep(maxActive, i, batchSize);
        WriteSparseRow(stm, nstm, maxActive * i, pos.features, maxActive,
                       SparseBuffer(front, maxActive, SideToMove), SparseBuffer(front, maxActive, Opponent));
      }
    }

    /** The bucket and the targets of position i. */
    method WriteLabels(data: seq<Position>, i: nat, dense: bool, wdl: bool, blend: real, squash: int -> real)
      requires Shaped(dense, wdl)
      requires i < |data| == batchSize
      requires ResultsValid(data[..i]) && data[i].resultIdx < 3
      requires buckets[..] == Filled(Buckets(data[..i]), 0, buckets.Length)
      requires targets[..] == Filled(Targets(data[..i], wdl, blend, squash), 0.0, targets.Length)
      modifies buckets, targets
      ensures ResultsValid(data[..i + 1])
      ensures buckets[..] == Filled(Buckets(data[..i + 1]), 0, buckets.Length)
      ensures targets[..] == Filled(Targets(data[..i + 1], wdl, blend, squash), 0.0, targets.Length)
    {
      var pos := data[i];
      ghost var front := data[..i];
      assert data[..i + 1] == front + [pos];
      BufferLengths(front, maxActive, inputSize, wdl, blend, squash);
      BucketsTargetsSnoc(front, pos, wdl, blend, squash);
      WriteBucket(buckets, i, pos.bucket, Buckets(front));
      MulStep(outputSize, i, batchSize);
      WriteTargets(targets, i, pos, wdl, blend, squash, Targets(front, wdl, blend, squash));
    }

    /** Once every position is written the buffers are exactly the rows of the batch. */
    lemma FilledComplete(data: seq<Position>, dense: bool, wdl: bool, blend: real, squash: int -> real)
      requires Shaped(dense, wdl) && |data| == batchSize && ResultsValid(data)
      requires FilledUpTo(data, dense, wdl, blend, squash)
      ensures stm[..] == (if dense then Repeat(0, |data|) else SparseBuffer(data, maxActive, SideToMove))
      ensures nstm[..] == (if dense then Repeat(0, |data|) else SparseBuffer(data, maxActive, Opponent))
      ensures dstm[..] == (if dense then DenseBuffer(data, inputSize, SideToMove) else Repeat(0.0, |data|))
      ensures dnstm[..] == (if dense then DenseBuffer(data, inputSize, Opponent) else Repeat(0.0, |data|))
      ensures buckets[..] == Buckets(data)
      ensures targets[..] == Targets(data, wdl, blend, squash)
    {
      BufferLengths(data, maxActive, inputSize, wdl, blend, squash);
      if dense {
        FilledFull(DenseBuffer(data, inputSize, SideToMove), 0.0, dstm.Length);
        FilledFull(DenseBuffer(data, inputSize, Opponent), 0.0, dnstm.Length);
      } else {
        FilledFull(SparseBuffer(data, maxActive, SideToMove), 0, stm.Length);
        FilledFull(SparseBuffer(data, maxActive, Opponent), 0, nstm.Length);
      }
      FilledFull(Buckets(data), 0, buckets.Length);
      FilledFull(Targets(data, wdl, blend, squash), 0.0, targets.Length);
    }

    /** The workers' loops over all positions, stopping at the first one on which a worker
        panics. */
    method Fill(data: seq<Position>, dense: bool, wdl: bool, blend: real, squash: int -> real) returns (ok: bool)
      requires Distinct() && Shaped(dense, wdl) && |data| == batchSize
      requires dense ==> FeaturesBelow(data, inputSize)
      requires FilledUpTo([], dense, wdl, blend, squash)
      modifies stm, nstm, dstm, dnstm, buckets, targets
      ensures ok <==> PositionsOk(data, maxActive)
      ensures ok ==> FilledUpTo(data, dense, wdl, blend, squash)
    {
      var i := 0;
      assert data[..0] == [];
      while i < batchSize
        invariant i <= batchSize
        invariant PositionsOk(data[..i], maxActive)
        invariant FilledUpTo(data[..i], dense, wdl, blend, squash)
      {
        var pos := data[i];
        if |pos.features| > maxActive || pos.resultIdx >= 3 {
          return false;
        }
        WritePosition(data, i, dense, wdl, blend, squash);
        assert PositionsOk(data[..i + 1], maxActive) by {
          assert data[..i + 1] == data[..i] + [pos];
        }
        i := i + 1;
      }
      assert data[..i] == data;
      return true;
    }
  }

  /** `DefaultDataPreparer::prepare`: size the buffers from the batch and the input getter's
      dimensions, then fill in every position. It fails where the source panics: zero
      threads (`div_ceil` by zero), a chunk length of zero (an empty batch, or a zero row
      width in the mode in use), or a worker meeting a position with more than maxActive
      features (in either mode) or an out-of-range result index. */
  method Prepare(data: seq<Position>, threads: nat, maxActive: nat, inputSize: nat, wdl: bool,
                 dense: bool, blend: real, squash: int -> real)
    returns (r: Result<PreparedBatch, PrepareError>)
    requires dense ==> FeaturesBelow(data, inputSize)
    ensures threads == 0 <==> r == Err(DivideByZero)
    ensures r == Err(ZeroChunkSize) <==>
      threads > 0 && (|data| == 0 || (if dense then inputSize == 0 else maxActive == 0))
    ensures r == Err(WorkerPanicked) <==>
      threads > 0 && |data| > 0 && (if dense then inputSize > 0 else maxActive > 0) &&
      !PositionsOk(data, maxActive)
    ensures r.Ok? <==>
      threads > 0 && |data| > 0 && (if dense then inputSize > 0 else maxActive > 0) &&
      PositionsOk(data, maxActive)
    ensures r.Ok? ==> var b := r.value;
      fresh(b.stm) && fresh(b.nstm) && fresh(b.dstm) && fresh(b.dnstm) && fresh(b.buckets) && fresh(b.targets) &&
      b.batchSize == |data| && b.maxActive == maxActive && b.inputSize == inputSize &&
      b.outputSize == (if wdl then 3 else 1) &&
      b.stm[..] == (if dense then Repeat(0, |data|) else SparseBuffer(data, maxActive, SideToMove)) &&
      b.nstm[..] == (if dense then Repeat(0, |data|) else SparseBuffer(data, maxActive, Opponent)) &&
      b.dstm[..] == (if dense then DenseBuffer(data, inputSize, SideToMove) else Repeat(0.0, |data|)) &&
      b.dnstm[..] == (if dense then DenseBuffer(data, inputSize, Opponent) else Repeat(0.0, |data|)) &&
      b.buckets[..] == Buckets(data) &&
      b.targets[..] == Targets(data, wdl, blend, squash)
  {
    if threads == 0 {
      return Err(DivideByZero);
    }
    var batchSize := |data|;
    var chunkSize := (batchSize + threads - 1) / threads;
    var outputSize := if wdl then 3 else 1;
    var sparseSize := if dense then batchSize else maxActive * batchSize;
    var denseSize := if dense then inputSize * batchSize else batchSize;
    var prep := new PreparedBatch(batchSize, maxActive, inputSize, outputSize, sparseSize, denseSize);
    var sparseChunkSize := if dense then 1 else maxActive * chunkSize;
    var denseChunkSize := if dense then inputSize * chunkSize else 1;
    ChunkSizesPositive(batchSize, threads, maxActive, inputSize, dense);
    if chunkSize == 0 || sparseChunkSize == 0 || denseChunkSize == 0 {
      return Err(ZeroChunkSize);
    }
    EmptyBuffers(maxActive, inputSize, wdl, blend, squash);
    var ok := prep.Fill(data, dense, wdl, blend, squash);
    if !ok {
      return Err(WorkerPanicked);
    }
    prep.FilledComplete(data, dense, wdl, blend, squash);
    return Ok(prep);
  }

  /** Before any position is written every buffer is all zeros. */
  lemma EmptyBuffers(maxActive: nat, inputSize: nat, wdl: bool, blend: real, squash: int -> real)
    ensures forall p: Perspective :: SparseBuffer([], maxActive, p) == [] && DenseBuffer([], inputSize, p) == []
    ensures Buckets([]) == [] && Targets([], wdl, blend, squash) == []
    ensures forall n: nat :: Filled([], 0, n) == Repeat(0, n) && Filled([], 0.0, n) == Repeat(0.0, n)
  {
    forall p: Perspective
      ensures SparseBuffer([], maxActive, p) == [] && DenseBuffer([], inputSize, p) == []
    {
      assert seq(0, i requires 0 <= i < 0 => SparseRow([], maxActive, p)) == [];
    }
  }

  /** A buffer filled to its end is its front. */
  lemma FilledFull<T>(front: seq<T>, zero: T, n: nat)
    requires |front| == n
    ensures Filled(front, zero, n) == front
  {
  }

  /** The three chunk lengths are positive exactly when the batch is not empty and the row
      width of the mode in use is not zero. */
  lemma ChunkSizesPositive(batchSize: nat, threads: nat, maxActive: nat, inputSize: nat, dense: bool)
    requires threads > 0
    ensures var chunkSize := (batchSize + threads - 1) / threads;
      (chunkSize == 0 || (if dense then inputSize * chunkSize == 0 else maxActive * chunkSize == 0)) <==>
      (batchSize == 0 || (if dense then inputSize == 0 else maxActive == 0))
  {
    DivCeilPositive(batchSize, threads);
  }

  /** `div_ceil` by a positive thread count is zero exactly for an empty batch. */
  lemma DivCeilPositive(n: nat, t: nat)
    requires t > 0
    ensures ((n + t - 1) / t == 0) <==> n == 0
  {
    if n > 0 {
      assert n + t - 1 >= t;
    }
  }
}
