/** Quantisation of a buffer of weights into the bytes of a network file
    (`QuantTarget::quantise` in src/trainer/default/quant.rs).

    A weight is modelled as a real number; every finite `f32` is one. The integer targets
    multiply by the quantisation factor, truncate toward zero and check that the target width
    holds the result; the bytes are then the two's-complement little-endian encoding. */
module Quant {
  import opened Wrappers
  import opened Arith

  type Byte = b: int | 0 <= b < 256

  /** A factor of Rust type i16 for I8 and I16, i32 for I32. */
  type I16Factor = q: int | -0x8000 <= q < 0x8000
  type I32Factor = q: int | -0x8000_0000 <= q < 0x8000_0000

  datatype QuantTarget = Float | I8(q8: I16Factor) | I16(q16: I16Factor) | I32(q32: I32Factor)

  /** `io::ErrorKind::InvalidData`, "Failed quantisation from f32 to ...", naming the target. */
  datatype QuantError = FailedQuantisation(target: QuantTarget)

  /** The four bytes of `f32::to_le_bytes`, which this model does not compute. */
  type FloatBytes = s: seq<Byte> | |s| == 4 witness [0, 0, 0, 0]

  /** Rounding toward zero (`f64::trunc`). */
  function Trunc(x: real): (t: int)
    ensures 0.0 <= x ==> 0 <= t && t as real <= x < t as real + 1.0
    ensures x < 0.0 ==> t <= 0 && t as real - 1.0 < x <= t as real
  {
    if x >= 0.0 then x.Floor else -((-x).Floor)
  }

  function Pow256(n: nat): (p: nat)
    ensures p >= 1
  {
    if n == 0 then 1 else 256 * Pow256(n - 1)
  }

  /** Bytes per value of each target. */
  function Width(t: QuantTarget): (w: nat)
    ensures w == 1 || w == 2 || w == 4
  {
    match t
    case Float => 4
    case I8(_) => 1
    case I16(_) => 2
    case I32(_) => 4
  }

  /** x fits in a signed integer of n bytes. */
  predicate FitsSigned(x: int, n: nat)
    requires n > 0
  {
    -Half(n) <= x < Half(n)
  }

  /** 2^(8n - 1), the first value that no longer fits n signed bytes. */
  function Half(n: nat): int
    requires n > 0
  {
    Pow256(n) / 2
  }

  /** The n little-endian bytes of the unsigned value u modulo 256^n. */
  function UnsignedLE(u: nat, n: nat): (bs: seq<Byte>)
    ensures |bs| == n
  {
    if n == 0 then [] else [u % 256] + UnsignedLE(u / 256, n - 1)
  }

  function DecodeUnsignedLE(bs: seq<Byte>): (u: nat)
    ensures u < Pow256(|bs|)
  {
    if bs == [] then 0 else bs[0] + 256 * DecodeUnsignedLE(bs[1..])
  }

  /** Two's-complement little-endian encoding in n bytes (`to_le_bytes` of i8, i16, i32). */
  function EncodeSigned(x: int, n: nat): (bs: seq<Byte>)
    requires n > 0 && FitsSigned(x, n)
    ensures |bs| == n
  {
    UnsignedLE(if x < 0 then x + Pow256(n) else x, n)
  }

  /** Reading n little-endian bytes back as a two's-complement integer. */
  function DecodeSigned(bs: seq<Byte>): int
    requires |bs| > 0
  {
    var u := DecodeUnsignedLE(bs);
    if u < Half(|bs|) then u else u - Pow256(|bs|)
  }

  lemma {:induction false} UnsignedRoundTrip(u: nat, n: nat)
    requires u < Pow256(n)
    ensures DecodeUnsignedLE(UnsignedLE(u, n)) == u
  {
    if n > 0 {
      UnsignedRoundTrip(u / 256, n - 1);
      assert UnsignedLE(u, n)[1..] == UnsignedLE(u / 256, n - 1);
    }
  }

  /** Decoding the bytes of an in-range integer gives the integer back. */
  lemma SignedRoundTrip(x: int, n: nat)
    requires n > 0 && FitsSigned(x, n)
    ensures DecodeSigned(EncodeSigned(x, n)) == x
  {
    var p := Pow256(n);
    assert p == 256 * Pow256(n - 1);
    UnsignedRoundTrip(if x < 0 then x + p else x, n);
  }

  /** The encoding of one value, or None when the scaled value does not fit the target. */
  function QuantiseValue(t: QuantTarget, floatBytes: real -> FloatBytes, v: real): (r: Option<seq<Byte>>)
    ensures r.Some? ==> |r.value| == Width(t)
    ensures t.I8? ==> (r.Some? <==> -128 <= Scaled(t.q8, v) <= 127)
    ensures t.I16? ==> (r.Some? <==> -32768 <= Scaled(t.q16, v) <= 32767)
    ensures t.I32? ==> (r.Some? <==> -0x8000_0000 <= Scaled(t.q32, v) <= 0x7fff_ffff)
    ensures t.Float? ==> r == Some(floatBytes(v))
  {
    match t
    case Float => Some(floatBytes(v))
    case I8(q) => PowValues(); ScaledBytes(Scaled(q, v), 1)
    case I16(q) => PowValues(); ScaledBytes(Scaled(q, v), 2)
    case I32(q) => PowValues(); ScaledBytes(Scaled(q, v), 4)
  }

  /** The scaled value `trunc(q * v)`. The source computes the product in f64, where the
      product of an i16 and an f32 is exact. */
  function Scaled(q: int, v: real): int
  {
    Trunc(q as real * v)
  }

  lemma PowValues()
    ensures Pow256(1) == 0x100 && Pow256(2) == 0x1_0000 && Pow256(4) == 0x1_0000_0000
    ensures Half(1) == 0x80 && Half(2) == 0x8000 && Half(4) == 0x8000_0000
  {
    assert Pow256(1) == 0x100;
    assert Pow256(2) == 0x1_0000;
    assert Pow256(3) == 0x100_0000;
  }

  function ScaledBytes(x: int, n: nat): Option<seq<Byte>>
    requires n > 0
  {
    if FitsSigned(x, n) then Some(EncodeSigned(x, n)) else None
  }

  /** For every integer target a value that quantises gives back its scaled value when its
      bytes are decoded; an I8 value is the single byte x mod 256. */
  lemma QuantiseValueDecodes(t: QuantTarget, floatBytes: real -> FloatBytes, v: real)
    requires !t.Float? && QuantiseValue(t, floatBytes, v).Some?
    ensures var x := Scaled(ScaleOf(t), v);
      DecodeSigned(QuantiseValue(t, floatBytes, v).value) == x &&
      (t.I8? ==> QuantiseValue(t, floatBytes, v).value == [x % 256])
  {
    var x := Scaled(ScaleOf(t), v);
    PowValues();
    match t
    case I8(q) =>
      SignedRoundTrip(x, 1);
    case I16(q) =>
      SignedRoundTrip(x, 2);
    case I32(q) =>
      SignedRoundTrip(x, 4);
  }

  function ScaleOf(t: QuantTarget): int
    requires !t.Float?
  {
    match t
    case I8(q) => q
    case I16(q) => q
    case I32(q) => q
  }

  /** The whole buffer: the per-value encodings concatenated in order, or None as soon as one
      value fails. */
  function QuantiseAll(t: QuantTarget, floatBytes: real -> FloatBytes, buf: seq<real>): Option<seq<Byte>>
  {
    if buf == [] then Some([])
    else
      match QuantiseAll(t, floatBytes, buf[..|buf| - 1])
      case None => None
      case Some(front) =>
        match QuantiseValue(t, floatBytes, buf[|buf| - 1])
        case None => None
        case Some(last) => Some(front + last)
  }

  /** The buffer quantises exactly when every value does, and then holds Width bytes per
      value, the i-th group being the encoding of the i-th value. */
  lemma QuantiseAllSpec(t: QuantTarget, floatBytes: real -> FloatBytes, buf: seq<real>)
    ensures QuantiseAll(t, floatBytes, buf).Some? <==>
      forall i :: 0 <= i < |buf| ==> QuantiseValue(t, floatBytes, buf[i]).Some?
    ensures QuantiseAll(t, floatBytes, buf).Some? ==>
      var out := QuantiseAll(t, floatBytes, buf).value;
      |out| == Width(t) * |buf| &&
      forall i :: 0 <= i < |buf| ==>
        out[Width(t) * i .. Width(t) * i + Width(t)] == QuantiseValue(t, floatBytes, buf[i]).value
  {
    QuantiseAllSome(t, floatBytes, buf);
    if QuantiseAll(t, floatBytes, buf).Some? {
      QuantiseAllLayout(t, floatBytes, buf);
    }
  }

  lemma {:induction false} QuantiseAllSome(t: QuantTarget, floatBytes: real -> FloatBytes, buf: seq<real>)
    ensures QuantiseAll(t, floatBytes, buf).Some? <==>
      forall i :: 0 <= i < |buf| ==> QuantiseValue(t, floatBytes, buf[i]).Some?
  {
    if buf != [] {
      var front := buf[..|buf| - 1];
      QuantiseAllSome(t, floatBytes, front);
      forall i | 0 <= i < |front| ensures buf[i] == front[i] { }
      if QuantiseAll(t, floatBytes, buf).None? && QuantiseAll(t, floatBytes, front).None? {
        var i :| 0 <= i < |front| && QuantiseValue(t, floatBytes, front[i]).None?;
        assert buf[i] == front[i];
      }
    }
  }

  lemma {:induction false} QuantiseAllLayout(t: QuantTarget, floatBytes: real -> FloatBytes, buf: seq<real>)
    requires QuantiseAll(t, floatBytes, buf).Some?
    ensures var out := QuantiseAll(t, floatBytes, buf).value;
      |out| == Width(t) * |buf| &&
      forall i :: 0 <= i < |buf| ==>
        (QuantiseValue(t, floatBytes, buf[i]).Some? &&
         out[Width(t) * i .. Width(t) * i + Width(t)] == QuantiseValue(t, floatBytes, buf[i]).value)
  {
    QuantiseAllSome(t, floatBytes, buf);
    if buf != [] {
      var front := buf[..|buf| - 1];
      var w := Width(t);
      var f := QuantiseAll(t, floatBytes, front).value;
      QuantiseAllLayout(t, floatBytes, front);
      var out := QuantiseAll(t, floatBytes, buf).value;
      var last := QuantiseValue(t, floatBytes, buf[|buf| - 1]).value;
      assert out == f + last;
      assert |out| == w * |buf| by {
        assert w * |buf| == w * |front| + w;
      }
      forall i | 0 <= i < |buf|
        ensures QuantiseValue(t, floatBytes, buf[i]).Some? &&
          out[w * i .. w * i + w] == QuantiseValue(t, floatBytes, buf[i]).value
      {
        if i < |front| {
          MulStep(w, i, |front|);
          SliceOfAppend(f, last, w * i, w);
          assert buf[i] == front[i];
        } else {
          SliceOfAppend(f, last, w * i, w);
        }
      }
    }
  }

  /** A slice of f + last that lies in f, or that is exactly last. */
  lemma SliceOfAppend(f: seq<Byte>, last: seq<Byte>, m: nat, w: nat)
    requires m + w <= |f| || (m == |f| && w == |last|)
    ensures m + w <= |f| ==> (f + last)[m .. m + w] == f[m .. m + w]
    ensures m == |f| && w == |last| ==> (f + last)[m .. m + w] == last
  {
  }


  /** `quantise`: append the encoding of every value in order, returning the error of the
      target at the first value that does not fit, with no partial output. */
  method Quantise(t: QuantTarget, floatBytes: real -> FloatBytes, buf: seq<real>)
    returns (r: Result<seq<Byte>, QuantError>)
    ensures match QuantiseAll(t, floatBytes, buf)
      case Some(out) => r == Ok(out)
      case None => r == Err(FailedQuantisation(t))
  {
    var quantised: seq<Byte> := [];
    var i := 0;
    while i < |buf|
      invariant i <= |buf|
      invariant QuantiseAll(t, floatBytes, buf[..i]) == Some(quantised)
    {
      assert buf[..i + 1][..i] == buf[..i];
      var toWrite := QuantiseValue(t, floatBytes, buf[i]);
      if toWrite.None? {
        QuantiseAllPrefixFails(t, floatBytes, buf, i + 1);
        return Err(FailedQuantisation(t));
      }
      quantised := quantised + toWrite.value;
      i := i + 1;
    }
    assert buf[..i] == buf;
    r := Ok(quantised);
  }

  /** A failing prefix makes the whole buffer fail. */
  lemma {:induction false} QuantiseAllPrefixFails(t: QuantTarget, floatBytes: real -> FloatBytes, buf: seq<real>, n: nat)
    requires n <= |buf| && QuantiseAll(t, floatBytes, buf[..n]).None?
    ensures QuantiseAll(t, floatBytes, buf).None?
    decreases |buf| - n
  {
    if n < |buf| {
      assert buf[..n + 1][..n] == buf[..n];
      QuantiseAllPrefixFails(t, floatBytes, buf, n + 1);
    } else {
      assert buf[..n] == buf;
    }
  }
}
