/** Identifiers, their order, and the stable in-place sort by id that checkpoint loading applies
    to the (id, buffer) lists it reads (`sort_by_key(|(id, _)| id.clone())`). */
module IdOrder {

  /** One record of a checkpoint file: a weight id and its buffer. */
  datatype Entry = Entry(id: string, values: seq<real>)

  /** Rust's order on `String`: lexicographic on bytes, which for UTF-8 is lexicographic on
      code points, so here lexicographic on characters. */
  predicate Less(a: string, b: string)
  {
    if b == [] then false
    else if a == [] then true
    else if a[0] != b[0] then a[0] < b[0]
    else Less(a[1..], b[1..])
  }

  lemma {:induction false} LessIrreflexive(a: string)
    ensures !Less(a, a)
  {
    if a != [] {
      LessIrreflexive(a[1..]);
    }
  }

  lemma {:induction false} LessTrans(a: string, b: string, c: string)
    requires Less(a, b) && Less(b, c)
    ensures Less(a, c)
  {
    if a != [] && a[0] == b[0] && b[0] == c[0] {
      LessTrans(a[1..], b[1..], c[1..]);
    }
  }

  lemma {:induction false} LessTotal(a: string, b: string)
    ensures a == b || Less(a, b) || Less(b, a)
  {
    if a != [] && b != [] && a[0] == b[0] {
      LessTotal(a[1..], b[1..]);
      if a[1..] == b[1..] {
        assert a == [a[0]] + a[1..] && b == [b[0]] + b[1..];
      }
    }
  }

  /** "Not after" is transitive. */
  lemma NotAfterTrans(a: string, b: string, c: string)
    requires !Less(b, a) && !Less(c, b)
    ensures !Less(c, a)
  {
    LessTotal(a, b);
    LessTotal(b, c);
    if Less(c, a) {
      if Less(a, b) {
        LessTrans(c, a, b);
        if Less(b, c) {
          LessTrans(b, c, b);
          LessIrreflexive(b);
        }
      }
    }
  }

  /** Ids in non-decreasing order. */
  ghost predicate Sorted(s: seq<Entry>)
  {
    forall i, j :: 0 <= i < j < |s| ==> !Less(s[j].id, s[i].id)
  }

  function Ids(s: seq<Entry>): (ids: seq<string>)
    ensures |ids| == |s| && forall i :: 0 <= i < |s| ==> ids[i] == s[i].id
  {
    seq(|s|, i requires 0 <= i < |s| => s[i].id)
  }

  /** The entries with id k, in their order. */
  function WithId(s: seq<Entry>, k: string): seq<Entry>
  {
    if s == [] then []
    else WithId(s[..|s| - 1], k) + (if s[|s| - 1].id == k then [s[|s| - 1]] else [])
  }

  /** x placed after every entry of t whose id is not after its own. */
  function Insert(t: seq<Entry>, x: Entry): (r: seq<Entry>)
    ensures |r| == |t| + 1
  {
    if t == [] || !Less(x.id, t[|t| - 1].id) then t + [x]
    else Insert(t[..|t| - 1], x) + [t[|t| - 1]]
  }

  /** The stable sort by id, insertion by insertion. */
  function SortByKey(s: seq<Entry>): (r: seq<Entry>)
    ensures |r| == |s|
  {
    if s == [] then [] else Insert(SortByKey(s[..|s| - 1]), s[|s| - 1])
  }

  lemma {:induction false} InsertMultiset(t: seq<Entry>, x: Entry)
    ensures multiset(Insert(t, x)) == multiset(t) + multiset{x}
  {
    if t != [] && Less(x.id, t[|t| - 1].id) {
      InsertMultiset(t[..|t| - 1], x);
      assert t == t[..|t| - 1] + [t[|t| - 1]];
    }
  }

  lemma SortedSnoc(t: seq<Entry>, x: Entry)
    requires Sorted(t) && forall i :: 0 <= i < |t| ==> !Less(x.id, t[i].id)
    ensures Sorted(t + [x])
  {
    var r := t + [x];
    forall i, j | 0 <= i < j < |r| ensures !Less(r[j].id, r[i].id) {
      if j < |t| {
        assert r[i] == t[i] && r[j] == t[j];
      }
    }
  }

  /** x is not before last, so nothing of front is after it. */
  lemma {:induction false} InsertSorted(t: seq<Entry>, x: Entry)
    requires Sorted(t)
    ensures Sorted(Insert(t, x))
  {
    if t == [] || !Less(x.id, t[|t| - 1].id) {
      forall i | 0 <= i < |t| ensures !Less(x.id, t[i].id) {
        if i < |t| - 1 {
          NotAfterTrans(t[i].id, t[|t| - 1].id, x.id);
        }
      }
      SortedSnoc(t, x);
    } else {
      var front := t[..|t| - 1];
      var last := t[|t| - 1];
      var ins := Insert(front, x);
      assert Sorted(front);
      InsertSorted(front, x);
      InsertMultiset(front, x);
      forall i | 0 <= i < |ins| ensures !Less(last.id, ins[i].id) {
        var e := ins[i];
        assert e in multiset(ins);
        if e == x {
          LessTotal(x.id, last.id);
          if Less(last.id, x.id) {
            LessTrans(x.id, last.id, x.id);
            LessIrreflexive(x.id);
          }
        } else {
          assert e in multiset(front);
          var j :| 0 <= j < |front| && front[j] == e;
          assert t[j] == e;
        }
      }
      SortedSnoc(ins, last);
    }
  }

  /** The sort orders by id and is a permutation. */
  lemma {:induction false} SortByKeySorted(s: seq<Entry>)
    ensures Sorted(SortByKey(s)) && multiset(SortByKey(s)) == multiset(s)
  {
    if s != [] {
      SortByKeySorted(s[..|s| - 1]);
      InsertSorted(SortByKey(s[..|s| - 1]), s[|s| - 1]);
      InsertMultiset(SortByKey(s[..|s| - 1]), s[|s| - 1]);
      assert s == s[..|s| - 1] + [s[|s| - 1]];
    }
  }

  lemma {:induction false} WithIdAppend(a: seq<Entry>, b: seq<Entry>, k: string)
    ensures WithId(a + b, k) == WithId(a, k) + WithId(b, k)
    decreases |b|
  {
    if b == [] {
      assert a + b == a;
    } else {
      var b' := b[..|b| - 1];
      assert (a + b)[..|a + b| - 1] == a + b';
      WithIdAppend(a, b', k);
    }
  }

  lemma WithIdSingle(x: Entry, k: string)
    ensures WithId([x], k) == (if x.id == k then [x] else [])
  {
    assert [x][..0] == [];
  }

  lemma {:induction false} InsertWithId(t: seq<Entry>, x: Entry, k: string)
    ensures WithId(Insert(t, x), k) == WithId(t, k) + WithId([x], k)
  {
    if t == [] || !Less(x.id, t[|t| - 1].id) {
      assert Insert(t, x) == t + [x];
      WithIdAppend(t, [x], k);
    } else {
      var front := t[..|t| - 1];
      var last := t[|t| - 1];
      var ins := Insert(front, x);
      assert t == front + [last];
      assert Insert(t, x) == ins + [last];
      InsertWithId(front, x, k);
      WithIdAppend(ins, [last], k);
      WithIdAppend(front, [last], k);
      WithIdSingle(x, k);
      WithIdSingle(last, k);
      if x.id == k && last.id == k {
        LessIrreflexive(k);
      }
    }
  }

  /** Stability: for every id the entries carrying it keep their relative order. */
  lemma {:induction false} SortByKeyStable(s: seq<Entry>, k: string)
    ensures WithId(SortByKey(s), k) == WithId(s, k)
  {
    if s != [] {
      var front := s[..|s| - 1];
      SortByKeyStable(front, k);
      InsertWithId(SortByKey(front), s[|s| - 1], k);
      WithIdAppend(front, [s[|s| - 1]], k);
      assert s == front + [s[|s| - 1]];
    }
  }

  lemma IdsAppend(a: seq<Entry>, b: seq<Entry>)
    ensures Ids(a + b) == Ids(a) + Ids(b)
  {
  }

  lemma {:induction false} InsertIds(t1: seq<Entry>, t2: seq<Entry>, x1: Entry, x2: Entry)
    requires Ids(t1) == Ids(t2) && x1.id == x2.id
    ensures Ids(Insert(t1, x1)) == Ids(Insert(t2, x2))
  {
    if t1 != [] {
      assert t1[|t1| - 1].id == Ids(t1)[|t1| - 1] == t2[|t2| - 1].id;
    }
    if t1 == [] || !Less(x1.id, t1[|t1| - 1].id) {
      IdsAppend(t1, [x1]);
      IdsAppend(t2, [x2]);
    } else {
      var f1 := t1[..|t1| - 1];
      var f2 := t2[..|t2| - 1];
      assert Ids(f1) == Ids(f2) by {
        forall i | 0 <= i < |f1| ensures Ids(f1)[i] == Ids(f2)[i] {
          assert Ids(t1)[i] == Ids(t2)[i];
        }
      }
      InsertIds(f1, f2, x1, x2);
      IdsAppend(Insert(f1, x1), [t1[|t1| - 1]]);
      IdsAppend(Insert(f2, x2), [t2[|t2| - 1]]);
    }
  }

  /** The order of the sorted ids depends on the ids alone. */
  lemma {:induction false} SortByKeyIds(s1: seq<Entry>, s2: seq<Entry>)
    requires Ids(s1) == Ids(s2)
    ensures Ids(SortByKey(s1)) == Ids(SortByKey(s2))
  {
    if s1 != [] {
      var f1 := s1[..|s1| - 1];
      var f2 := s2[..|s2| - 1];
      assert Ids(f1) == Ids(f2) by {
        forall i | 0 <= i < |f1| ensures Ids(f1)[i] == Ids(f2)[i] {
          assert Ids(s1)[i] == Ids(s2)[i];
        }
      }
      assert s1[|s1| - 1].id == Ids(s1)[|s1| - 1];
      SortByKeyIds(f1, f2);
      InsertIds(SortByKey(f1), SortByKey(f2), s1[|s1| - 1], s2[|s2| - 1]);
    }
  }

  /** One step of the insertion: x passes an entry whose id is after its own. */
  lemma InsertStep(t: seq<Entry>, x: Entry, j: nat)
    requires 0 < j <= |t| && Less(x.id, t[j - 1].id)
    ensures Insert(t[..j], x) + t[j..] == Insert(t[..j - 1], x) + t[j - 1..]
  {
    assert t[..j][..j - 1] == t[..j - 1];
    assert t[j - 1..] == [t[j - 1]] + t[j..];
  }

  /** The insertion stops at an entry whose id is not after that of x. */
  lemma InsertStop(t: seq<Entry>, x: Entry, j: nat)
    requires j <= |t| && (j == 0 || !Less(x.id, t[j - 1].id))
    ensures Insert(t[..j], x) == t[..j] + [x]
  {
  }

  lemma Assemble(r: seq<Entry>, t: seq<Entry>, x: Entry, j: nat)
    requires |r| == |t| + 1 && j <= |t| && r[j] == x
    requires forall k :: 0 <= k < j ==> r[k] == t[k]
    requires forall k :: j < k < |r| ==> r[k] == t[k - 1]
    ensures r == t[..j] + [x] + t[j..]
  {
  }

  /** Insertion of a[i] into the sorted prefix a[..i], shifting the entries after it right. */
  method InsertInto(a: array<Entry>, i: nat)
    requires i < a.Length
    modifies a
    ensures a[..i + 1] == Insert(old(a[..i]), old(a[i]))
    ensures a[i + 1..] == old(a[i + 1..])
  {
    ghost var t := a[..i];
    var x := a[i];
    var j := i;
    assert t[..j] == t && t[j..] == [];
    while j > 0 && Less(x.id, a[j - 1].id)
      invariant 0 <= j <= i
      invariant forall k :: 0 <= k < j ==> a[k] == t[k]
      invariant forall k :: j < k <= i ==> a[k] == t[k - 1]
      invariant a[i + 1..] == old(a[i + 1..])
      invariant Insert(t, x) == Insert(t[..j], x) + t[j..]
    {
      InsertStep(t, x, j);
      a[j] := a[j - 1];
      j := j - 1;
    }
    InsertStop(t, x, j);
    a[j] := x;
    Assemble(a[..i + 1], t, x, j);
  }

  /** `sort_by_key` on the ids: an insertion sort in place (the library's algorithm differs,
      but a stable sort has one result). */
  method SortById(a: array<Entry>)
    modifies a
    ensures a[..] == SortByKey(old(a[..]))
  {
    ghost var s := a[..];
    var i := 0;
    while i < a.Length
      invariant 0 <= i <= a.Length
      invariant a[..i] == SortByKey(s[..i])
      invariant a[i..] == s[i..]
    {
      assert s[..i + 1][..i] == s[..i];
      assert a[i] == s[i];
      InsertInto(a, i);
      assert a[i + 1..] == s[i + 1..];
      i := i + 1;
    }
    assert a[..] == a[..a.Length] && s[..a.Length] == s;
  }
}

/** The Adam optimiser state of one weight (`Adam` in crates/bullet_core/src/optimiser/adam.rs):
    its momentum and velocity buffers and its parameters, with the checks `update` makes before
    calling the device kernel, and checkpointing of a named collection of states. */
module AdamOptimiser {
  import opened Wrappers
  import opened IdOrder

  datatype AdamParams = AdamParams(beta1: real, beta2: real)

  /** `AdamParams::default()`. */
  const DefaultParams: AdamParams := AdamParams(0.9, 0.999)

  /** A dense matrix: its value buffer and its batch dimension, if any. */
  datatype DenseMatrix = DenseMatrix(values: seq<real>, batchSize: Option<nat>)

  function Zeros(n: nat): (z: seq<real>)
    ensures |z| == n && forall i :: 0 <= i < n ==> z[i] == 0.0
  {
    seq(n, _ => 0.0)
  }

  /** The arguments of the device's `adam` kernel (its last argument is always `true` here) and
      what it writes back. */
  datatype KernelCall = KernelCall(size: nat, weights: seq<real>, grads: seq<real>,
                                   momentum: seq<real>, velocity: seq<real>, beta1: real, beta2: real,
                                   gradientFactor: real, learningRate: real, lastFlag: bool)
  datatype KernelResult = KernelResult(weights: seq<real>, momentum: seq<real>, velocity: seq<real>)

  /** The kernel writes through `&mut` slices, so each buffer it hands back has the length of
      the buffer it was given. */
  ghost predicate InPlace(kernel: KernelCall -> KernelResult)
  {
    forall c :: |kernel(c).weights| == |c.weights| && |kernel(c).momentum| == |c.momentum| &&
      |kernel(c).velocity| == |c.velocity|
  }

  /** The assertion of `update` that fails first. */
  datatype UpdateError = WeightsBatched | MomentumBatched | VelocityBatched
                       | MomentumSizeMismatch | VelocitySizeMismatch

  /** The checks of `update`, in their order; the gradients are not checked. */
  function UpdateCheck(weights: DenseMatrix, momentum: DenseMatrix, velocity: DenseMatrix): (r: Outcome<UpdateError>)
    ensures r == Pass <==>
      weights.batchSize.None? && momentum.batchSize.None? && velocity.batchSize.None? &&
      |momentum.values| == |weights.values| && |velocity.values| == |weights.values|
    ensures r == Fail(WeightsBatched) <==> weights.batchSize.Some?
    ensures r == Fail(MomentumBatched) <==> weights.batchSize.None? && momentum.batchSize.Some?
    ensures r == Fail(VelocityBatched) <==>
      weights.batchSize.None? && momentum.batchSize.None? && velocity.batchSize.Some?
    ensures r == Fail(MomentumSizeMismatch) <==>
      weights.batchSize.None? && momentum.batchSize.None? && velocity.batchSize.None? &&
      |momentum.values| != |weights.values|
    ensures r == Fail(VelocitySizeMismatch) <==>
      weights.batchSize.None? && momentum.batchSize.None? && velocity.batchSize.None? &&
      |momentum.values| == |weights.values| && |velocity.values| != |weights.values|
  {
    if weights.batchSize.Some? then Fail(WeightsBatched)
    else if momentum.batchSize.Some? then Fail(MomentumBatched)
    else if velocity.batchSize.Some? then Fail(VelocityBatched)
    else if |weights.values| != |momentum.values| then Fail(MomentumSizeMismatch)
    else if |weights.values| != |velocity.values| then Fail(VelocitySizeMismatch)
    else Pass
  }

  class Adam {
    var momentum: DenseMatrix
    var velocity: DenseMatrix
    var params: AdamParams

    /** Both buffers have no batch dimension and the same size. */
    ghost predicate Matched()
      reads this
    {
      momentum.batchSize.None? && velocity.batchSize.None? && |momentum.values| == |velocity.values|
    }

    /** `new`: two zeroed buffers of the given size. */
    constructor (size: nat, defaultParams: AdamParams)
      ensures momentum == DenseMatrix(Zeros(size), None) && velocity == DenseMatrix(Zeros(size), None)
      ensures params == defaultParams && Matched()
    {
      momentum := DenseMatrix(Zeros(size), None);
      velocity := DenseMatrix(Zeros(size), None);
      params := defaultParams;
    }

    /** `update`: the checks first, touching nothing when one fails; then the kernel's result
        for the weights and both buffers. */
    method Update(weights: DenseMatrix, grads: DenseMatrix, gradientFactor: real, learningRate: real,
                  kernel: KernelCall -> KernelResult)
      returns (r: Result<DenseMatrix, UpdateError>)
      requires InPlace(kernel)
      modifies this
      ensures params == old(params)
      ensures r.Ok? ==> (|r.value.values| == |weights.values| && Matched() &&
        |momentum.values| == |old(momentum.values)| && |velocity.values| == |old(velocity.values)|)
      ensures old(Matched()) ==> Matched()
      ensures match UpdateCheck(weights, old(momentum), old(velocity))
        case Fail(e) => r == Err(e) && momentum == old(momentum) && velocity == old(velocity)
        case Pass =>
          var out := kernel(KernelCall(|weights.values|, weights.values, grads.values, old(momentum.values),
                                       old(velocity.values), params.beta1, params.beta2,
                                       gradientFactor, learningRate, true));
          r == Ok(DenseMatrix(out.weights, None)) &&
          momentum == DenseMatrix(out.momentum, None) && velocity == DenseMatrix(out.velocity, None)
    {
      var check := UpdateCheck(weights, momentum, velocity);
      if check.Fail? {
        return Err(check.error);
      }
      var out := kernel(KernelCall(|weights.values|, weights.values, grads.values, momentum.values,
                                   velocity.values, params.beta1, params.beta2,
                                   gradientFactor, learningRate, true));
      momentum := DenseMatrix(out.momentum, None);
      velocity := DenseMatrix(out.velocity, None);
      r := Ok(DenseMatrix(out.weights, None));
    }

    /** `reset`: both buffers zeroed in place; sizes and parameters stay. */
    method Reset()
      modifies this
      ensures momentum == DenseMatrix(Zeros(|old(momentum.values)|), old(momentum.batchSize))
      ensures velocity == DenseMatrix(Zeros(|old(velocity.values)|), old(velocity.batchSize))
      ensures params == old(params)
      ensures old(Matched()) ==> Matched()
    {
      momentum := DenseMatrix(Zeros(|momentum.values|), momentum.batchSize);
      velocity := DenseMatrix(Zeros(|velocity.values|), velocity.batchSize);
    }

    /** `set_params`: the buffers stay. */
    method SetParams(p: AdamParams)
      modifies this
      ensures params == p && momentum == old(momentum) && velocity == old(velocity)
    {
      params := p;
    }
  }

  // Checkpoints.

  /** The momentum buffers of a collection by id. */
  function MomentumValues(m: map<string, Adam>): map<string, seq<real>>
    reads m.Values
  {
    map id | id in m :: m[id].momentum.values
  }

  function VelocityValues(m: map<string, Adam>): map<string, seq<real>>
    reads m.Values
  {
    map id | id in m :: m[id].velocity.values
  }

  /** The (id, buffer) list written for one kind of buffer, in the map's iteration order. */
  function Written(order: seq<string>, buffers: map<string, seq<real>>): (w: seq<Entry>)
    requires forall i :: 0 <= i < |order| ==> order[i] in buffers
    ensures Ids(w) == order
    ensures forall i :: 0 <= i < |order| ==> w[i].values == buffers[order[i]]
  {
    seq(|order|, i requires 0 <= i < |order| => Entry(order[i], buffers[order[i]]))
  }

  /** `write_to_checkpoint`: the momentum and velocity lists, both in the one iteration order
      of the map (`order` lists its keys). */
  function WriteToCheckpoint(m: map<string, Adam>, order: seq<string>): (r: (seq<Entry>, seq<Entry>))
    requires forall id :: id in order <==> id in m
    reads m.Values
    ensures Ids(r.0) == order && Ids(r.1) == order
    ensures forall i :: 0 <= i < |order| ==>
      r.0[i].values == m[order[i]].momentum.values && r.1[i].values == m[order[i]].velocity.values
  {
    (Written(order, MomentumValues(m)), Written(order, VelocityValues(m)))
  }

  /** A paired assertion of `load_from_checkpoint` that fails. */
  datatype LoadError = IdMismatch(momentumId: string, velocityId: string) | MissingId(id: string)

  /** The buffers loaded into the state with the given id. */
  datatype Load = Load(id: string, momentum: seq<real>, velocity: seq<real>)

  /** The loads done before the pairing stops, and how it stops. */
  datatype Pairs = Pairs(loads: seq<Load>, outcome: Outcome<LoadError>)

  /** The pairing loop over the zipped lists (the shorter list bounds it): equal ids, an id
      present in the collection, then the load. */
  function Pairing(ms: seq<Entry>, vs: seq<Entry>, keys: set<string>): Pairs
  {
    if ms == [] || vs == [] then Pairs([], Pass)
    else if CheckPair(ms[0], vs[0], keys).Fail? then Pairs([], CheckPair(ms[0], vs[0], keys))
    else
      var rest := Pairing(ms[1..], vs[1..], keys);
      Pairs([Load(ms[0].id, ms[0].values, vs[0].values)] + rest.loads, rest.outcome)
  }

  /** The two assertions on one zipped pair: `assert_eq!(id1, id2)`, then the lookup. */
  function CheckPair(mom: Entry, vel: Entry, keys: set<string>): Outcome<LoadError>
  {
    if mom.id != vel.id then Fail(IdMismatch(mom.id, vel.id))
    else if mom.id !in keys then Fail(MissingId(mom.id))
    else Pass
  }

  /** The pairing loads the i-th entries of both lists for every i before it stops; it passes
      exactly when every zipped pair has equal ids present in the collection, and otherwise
      stops at the first pair that does not, naming its fault. */
  lemma {:induction false} PairingSpec(ms: seq<Entry>, vs: seq<Entry>, keys: set<string>)
    ensures var p := Pairing(ms, vs, keys); var k := |p.loads|;
      k <= |ms| && k <= |vs| &&
      (forall i :: 0 <= i < k ==>
        ms[i].id == vs[i].id && ms[i].id in keys && p.loads[i] == Load(ms[i].id, ms[i].values, vs[i].values)) &&
      (p.outcome == Pass <==> k == |ms| || k == |vs|) &&
      (p.outcome.Fail? ==>
        k < |ms| && k < |vs| &&
        p.outcome.error == (if ms[k].id != vs[k].id then IdMismatch(ms[k].id, vs[k].id) else MissingId(ms[k].id)) &&
        (ms[k].id == vs[k].id ==> ms[k].id !in keys))
    ensures Pairing(ms, vs, keys).outcome == Pass <==>
      forall i :: 0 <= i < |ms| && i < |vs| ==> ms[i].id == vs[i].id && ms[i].id in keys
  {
    if ms != [] && vs != [] && ms[0].id == vs[0].id && ms[0].id in keys {
      PairingSpec(ms[1..], vs[1..], keys);
      var p := Pairing(ms, vs, keys);
      var rest := Pairing(ms[1..], vs[1..], keys);
      assert p.loads == [Load(ms[0].id, ms[0].values, vs[0].values)] + rest.loads;
      forall i | 0 <= i < |p.loads|
        ensures ms[i].id == vs[i].id && ms[i].id in keys && p.loads[i] == Load(ms[i].id, ms[i].values, vs[i].values)
      {
        if i > 0 {
          assert p.loads[i] == rest.loads[i - 1];
          assert ms[1..][i - 1] == ms[i] && vs[1..][i - 1] == vs[i];
        }
      }
      if p.outcome == Pass {
        forall i | 0 <= i < |ms| && i < |vs| ensures ms[i].id == vs[i].id && ms[i].id in keys {
          if i > 0 {
            assert ms[1..][i - 1] == ms[i] && vs[1..][i - 1] == vs[i];
          }
        }
      } else {
        var k := |rest.loads|;
        assert ms[1..][k] == ms[k + 1] && vs[1..][k] == vs[k + 1];
      }
    }
  }

  /** The momentum a state holds after the loads: that of the last load with its id. */
  function LoadedMomentum(loads: seq<Load>, id: string, init: DenseMatrix): DenseMatrix
  {
    if loads == [] then init
    else if loads[|loads| - 1].id == id then DenseMatrix(loads[|loads| - 1].momentum, None)
    else LoadedMomentum(loads[..|loads| - 1], id, init)
  }

  function LoadedVelocity(loads: seq<Load>, id: string, init: DenseMatrix): DenseMatrix
  {
    if loads == [] then init
    else if loads[|loads| - 1].id == id then DenseMatrix(loads[|loads| - 1].velocity, None)
    else LoadedVelocity(loads[..|loads| - 1], id, init)
  }

  /** When every load with an id carries the same buffers and one exists, the state with that
      id ends up holding them. */
  lemma {:induction false} LoadedAgreeing(loads: seq<Load>, id: string, mom: seq<real>, vel: seq<real>, init: DenseMatrix)
    requires exists i :: 0 <= i < |loads| && loads[i].id == id
    requires forall i :: 0 <= i < |loads| && loads[i].id == id ==> loads[i].momentum == mom && loads[i].velocity == vel
    ensures LoadedMomentum(loads, id, init) == DenseMatrix(mom, None)
    ensures LoadedVelocity(loads, id, init) == DenseMatrix(vel, None)
  {
    var last := loads[|loads| - 1];
    if last.id != id {
      var front := loads[..|loads| - 1];
      var i :| 0 <= i < |loads| && loads[i].id == id;
      assert front[i] == loads[i];
      forall j | 0 <= j < |front| && front[j].id == id ensures front[j].momentum == mom && front[j].velocity == vel {
        assert front[j] == loads[j];
      }
      LoadedAgreeing(front, id, mom, vel, init);
    }
  }

  /** Every entry of a permutation of a written list carries the buffer of its id. */
  lemma PermutedWritten(order: seq<string>, buffers: map<string, seq<real>>, s: seq<Entry>)
    requires forall i :: 0 <= i < |order| ==> order[i] in buffers
    requires multiset(s) == multiset(Written(order, buffers))
    ensures forall i :: 0 <= i < |s| ==> s[i].id in buffers && s[i].values == buffers[s[i].id]
  {
    var w := Written(order, buffers);
    forall i | 0 <= i < |s| ensures s[i].id in buffers && s[i].values == buffers[s[i].id] {
      assert s[i] in multiset(s);
      var j :| 0 <= j < |w| && w[j] == s[i];
      assert Ids(w)[j] == order[j];
    }
  }

  /** The two sorted lists pair up entry by entry under equal ids. */
  lemma SortedWrittenPairs(order: seq<string>, moms: map<string, seq<real>>, vels: map<string, seq<real>>)
    requires forall k :: k in order ==> k in moms && k in vels
    ensures var sm := SortByKey(Written(order, moms)); var sv := SortByKey(Written(order, vels));
      |sm| == |sv| == |order| &&
      forall i :: 0 <= i < |sm| ==>
        sm[i].id == sv[i].id && sm[i].id in moms && sm[i].values == moms[sm[i].id] &&
        sv[i].id in vels && sv[i].values == vels[sv[i].id]
  {
    var wm := Written(order, moms);
    var wv := Written(order, vels);
    var sm := SortByKey(wm);
    var sv := SortByKey(wv);
    SortByKeyIds(wm, wv);
    SortByKeySorted(wm);
    SortByKeySorted(wv);
    PermutedWritten(order, moms, sm);
    PermutedWritten(order, vels, sv);
    forall i | 0 <= i < |sm| ensures sm[i].id == sv[i].id {
      assert Ids(sm)[i] == Ids(sv)[i];
    }
  }

  /** A written id appears in the sorted list. */
  lemma WrittenIdSorted(order: seq<string>, buffers: map<string, seq<real>>, id: string)
    requires forall k :: k in order ==> k in buffers
    requires id in order
    ensures exists i :: 0 <= i < |order| && SortByKey(Written(order, buffers))[i].id == id
  {
    var w := Written(order, buffers);
    var s := SortByKey(w);
    SortByKeySorted(w);
    var j :| 0 <= j < |order| && order[j] == id;
    assert Ids(w)[j] == id;
    assert w[j] in multiset(s);
    var i :| 0 <= i < |s| && s[i] == w[j];
  }

  /** The sorted written lists pair up completely, each load carrying both buffers of its id. */
  lemma WrittenPairingPasses(order: seq<string>, moms: map<string, seq<real>>, vels: map<string, seq<real>>)
    requires forall k :: k in order ==> k in moms && k in vels
    ensures var sm := SortByKey(Written(order, moms));
      var p := Pairing(sm, SortByKey(Written(order, vels)), moms.Keys);
      p.outcome == Pass && |p.loads| == |order| &&
      forall i :: 0 <= i < |order| ==>
        p.loads[i].id == sm[i].id && p.loads[i].id in moms && p.loads[i].id in vels &&
        p.loads[i].momentum == moms[p.loads[i].id] && p.loads[i].velocity == vels[p.loads[i].id]
  {
    var sm := SortByKey(Written(order, moms));
    var sv := SortByKey(Written(order, vels));
    SortedWrittenPairs(order, moms, vels);
    PairingSpec(sm, sv, moms.Keys);
    forall i | 0 <= i < |sm| && i < |sv| ensures sm[i].id == sv[i].id && sm[i].id in moms.Keys {
    }
  }

  /** Writing a collection and loading it back into one with the same ids: the pairing passes
      and every state ends up with the buffers that were written for its id. */
  lemma CheckpointRoundTrip(order: seq<string>, moms: map<string, seq<real>>, vels: map<string, seq<real>>,
                            id: string, init: DenseMatrix)
    requires forall k :: k in order <==> k in moms
    requires moms.Keys == vels.Keys && id in moms
    ensures var p := Pairing(SortByKey(Written(order, moms)), SortByKey(Written(order, vels)), moms.Keys);
      p.outcome == Pass &&
      LoadedMomentum(p.loads, id, init) == DenseMatrix(moms[id], None) &&
      LoadedVelocity(p.loads, id, init) == DenseMatrix(vels[id], None)
  {
    var sm := SortByKey(Written(order, moms));
    var p := Pairing(sm, SortByKey(Written(order, vels)), moms.Keys);
    WrittenPairingPasses(order, moms, vels);
    WrittenIdSorted(order, moms, id);
    var i :| 0 <= i < |order| && sm[i].id == id;
    assert p.loads[i].id == id;
    LoadedAgreeing(p.loads, id, moms[id], vels[id], init);
  }

  /** The pairing of the suffixes from i on, joined to the loads before i, gives the whole. */
  ghost predicate PairedUpTo(whole: Pairs, ms: seq<Entry>, vs: seq<Entry>, keys: set<string>, i: nat, loads: seq<Load>)
    requires i <= |ms| && i <= |vs|
  {
    whole == Pairs(loads + Pairing(ms[i..], vs[i..], keys).loads, Pairing(ms[i..], vs[i..], keys).outcome)
  }

  lemma PairingStart(ms: seq<Entry>, vs: seq<Entry>, keys: set<string>)
    ensures PairedUpTo(Pairing(ms, vs, keys), ms, vs, keys, 0, [])
  {
    assert ms[0..] == ms && vs[0..] == vs;
  }

  /** A pair that passes its checks adds its load. */
  lemma PairingAdvance(whole: Pairs, ms: seq<Entry>, vs: seq<Entry>, keys: set<string>, i: nat, loads: seq<Load>)
    requires i < |ms| && i < |vs| && PairedUpTo(whole, ms, vs, keys, i, loads)
    requires CheckPair(ms[i], vs[i], keys) == Pass
    ensures PairedUpTo(whole, ms, vs, keys, i + 1, loads + [Load(ms[i].id, ms[i].values, vs[i].values)])
  {
    assert ms[i..][0] == ms[i] && vs[i..][0] == vs[i];
    assert ms[i..][1..] == ms[i + 1..] && vs[i..][1..] == vs[i + 1..];
    var l := Load(ms[i].id, ms[i].values, vs[i].values);
    var rest := Pairing(ms[i + 1..], vs[i + 1..], keys);
    assert loads + ([l] + rest.loads) == loads + [l] + rest.loads;
  }

  /** A pair that fails a check ends the pairing with that failure. */
  lemma PairingStops(whole: Pairs, ms: seq<Entry>, vs: seq<Entry>, keys: set<string>, i: nat, loads: seq<Load>)
    requires i < |ms| && i < |vs| && PairedUpTo(whole, ms, vs, keys, i, loads)
    requires CheckPair(ms[i], vs[i], keys).Fail?
    ensures whole == Pairs(loads, CheckPair(ms[i], vs[i], keys))
  {
    assert ms[i..][0] == ms[i] && vs[i..][0] == vs[i];
    assert loads + [] == loads;
  }

  /** The shorter list running out ends the pairing with success. */
  lemma PairingEnds(whole: Pairs, ms: seq<Entry>, vs: seq<Entry>, keys: set<string>, i: nat, loads: seq<Load>)
    requires (i == |ms| && i <= |vs|) || (i == |vs| && i <= |ms|)
    requires PairedUpTo(whole, ms, vs, keys, i, loads)
    ensures whole == Pairs(loads, Pass)
  {
    assert ms[i..] == [] || vs[i..] == [];
    assert loads + [] == loads;
  }

  lemma LoadedSnoc(loads: seq<Load>, l: Load, id: string, init: DenseMatrix)
    ensures LoadedMomentum(loads + [l], id, init) ==
      if l.id == id then DenseMatrix(l.momentum, None) else LoadedMomentum(loads, id, init)
    ensures LoadedVelocity(loads + [l], id, init) ==
      if l.id == id then DenseMatrix(l.velocity, None) else LoadedVelocity(loads, id, init)
  {
    assert (loads + [l])[..|loads|] == loads;
  }

  /** Distinct ids name distinct states. */
  ghost predicate Distinct(m: map<string, Adam>)
  {
    forall a, b :: a in m && b in m && a != b ==> m[a] != m[b]
  }

  /** The buffers and parameters of one state. */
  datatype Snapshot = Snapshot(momentum: DenseMatrix, velocity: DenseMatrix, params: AdamParams)

  ghost function Snapshots(m: map<string, Adam>): map<string, Snapshot>
    reads m.Values
  {
    map id | id in m :: Snapshot(m[id].momentum, m[id].velocity, m[id].params)
  }

  /** Every state holds what the loads leave in it, starting from its snapshot. */
  ghost predicate Holds(m: map<string, Adam>, loads: seq<Load>, snap: map<string, Snapshot>)
    reads m.Values
  {
    forall id :: id in m ==>
      (id in snap &&
       m[id].momentum == LoadedMomentum(loads, id, snap[id].momentum) &&
       m[id].velocity == LoadedVelocity(loads, id, snap[id].velocity) &&
       m[id].params == snap[id].params)
  }

  /** One load: `load_from_slice` into both buffers of the state with the load's id. */
  method LoadOne(m: map<string, Adam>, l: Load, ghost loads: seq<Load>, ghost snap: map<string, Snapshot>)
    requires l.id in m && Distinct(m)
    requires Holds(m, loads, snap)
    modifies m[l.id]
    ensures Holds(m, loads + [l], snap)
  {
    var single := m[l.id];
    single.momentum := DenseMatrix(l.momentum, None);
    single.velocity := DenseMatrix(l.velocity, None);
    forall id | id in m
      ensures LoadedMomentum(loads + [l], id, snap[id].momentum) ==
        (if id == l.id then DenseMatrix(l.momentum, None) else LoadedMomentum(loads, id, snap[id].momentum))
      ensures LoadedVelocity(loads + [l], id, snap[id].velocity) ==
        (if id == l.id then DenseMatrix(l.velocity, None) else LoadedVelocity(loads, id, snap[id].velocity))
    {
      LoadedSnoc(loads, l, id, snap[id].momentum);
      LoadedSnoc(loads, l, id, snap[id].velocity);
    }
  }

  /** The loop of `load_from_checkpoint` over the zipped sorted lists. */
  method LoadPairs(m: map<string, Adam>, momentum: array<Entry>, velocity: array<Entry>)
    returns (r: Outcome<LoadError>)
    requires Distinct(m)
    modifies m.Values
    ensures r == Pairing(momentum[..], velocity[..], m.Keys).outcome
    ensures Holds(m, Pairing(momentum[..], velocity[..], m.Keys).loads, old(Snapshots(m)))
  {
    ghost var ms := momentum[..];
    ghost var vs := velocity[..];
    ghost var whole := Pairing(ms, vs, m.Keys);
    ghost var snap := Snapshots(m);
    ghost var loads: seq<Load> := [];
    PairingStart(ms, vs, m.Keys);
    var i := 0;
    while i < momentum.Length && i < velocity.Length
      invariant 0 <= i <= momentum.Length && i <= velocity.Length
      invariant momentum[..] == ms && velocity[..] == vs
      invariant PairedUpTo(whole, ms, vs, m.Keys, i, loads)
      invariant Holds(m, loads, snap)
    {
      var mom := momentum[i];
      var vel := velocity[i];
      var check := CheckPair(mom, vel, m.Keys);
      if check.Fail? {
        PairingStops(whole, ms, vs, m.Keys, i, loads);
        return check;
      }
      var l := Load(mom.id, mom.values, vel.values);
      LoadOne(m, l, loads, snap);
      PairingAdvance(whole, ms, vs, m.Keys, i, loads);
      loads := loads + [l];
      i := i + 1;
    }
    PairingEnds(whole, ms, vs, m.Keys, i, loads);
    return Pass;
  }

  /** `load_from_checkpoint` on the lists read from the two files: sort both by id in place,
      then pair them, loading each pair into the state with that id until a pair fails. The
      map's states are distinct objects, as the mutable borrows of the source are. */
  method LoadFromCheckpoint(m: map<string, Adam>, momentum: array<Entry>, velocity: array<Entry>)
    returns (r: Outcome<LoadError>)
    requires momentum != velocity
    requires forall a, b :: a in m && b in m && a != b ==> m[a] != m[b]
    modifies momentum, velocity, m.Values
    ensures momentum[..] == SortByKey(old(momentum[..])) && velocity[..] == SortByKey(old(velocity[..]))
    ensures var p := Pairing(momentum[..], velocity[..], m.Keys);
      r == p.outcome &&
      forall id :: id in m ==>
        m[id].momentum == LoadedMomentum(p.loads, id, old(m[id].momentum)) &&
        m[id].velocity == LoadedVelocity(p.loads, id, old(m[id].velocity)) &&
        m[id].params == old(m[id].params)
  {
    SortById(momentum);
    SortById(velocity);
    r := LoadPairs(m, momentum, velocity);
  }
}
