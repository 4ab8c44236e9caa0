/** Tensors. A `Tensor` is the value of a CoreML multi-array (its shape and its
    elements in row-major order); a `MultiArray` is a multi-array object on the
    heap, used where the source writes into one in place (`fill(value:)`). */
module MultiArrays {

  /** Number of elements of a multi-array of the given shape. */
  function Count(shape: seq<nat>): nat
  {
    if shape == [] then 1 else shape[0] * Count(shape[1..])
  }

  datatype Tensor = Tensor(shape: seq<nat>, elems: seq<real>)

  /** A tensor of the given shape, every element of which is zero. */
  predicate IsZeroTensor(t: Tensor, shape: seq<nat>)
  {
    && t.shape == shape
    && |t.elems| == Count(shape)
    && forall i :: 0 <= i < |t.elems| ==> t.elems[i] == 0.0
  }

  /** The contents `s` take after every element has been set to `v`. */
  function Filled(s: seq<real>, v: real): (r: seq<real>)
    ensures |r| == |s|
    ensures forall i :: 0 <= i < |r| ==> r[i] == v
  {
    if s == [] then [] else [v] + Filled(s[1..], v)
  }

  /** Filling depends only on the number of elements, not on what they held. */
  lemma {:induction false} FilledForgetsContents(s: seq<real>, t: seq<real>, v: real)
    requires |s| == |t|
    ensures Filled(s, v) == Filled(t, v)
  {
    if s != [] {
      FilledForgetsContents(s[1..], t[1..], v);
    }
  }

  /** Filling twice with the same value is filling once. */
  lemma FilledIdempotent(s: seq<real>, v: real)
    ensures Filled(Filled(s, v), v) == Filled(s, v)
  {
    FilledForgetsContents(Filled(s, v), s, v);
  }

  /** The second of two fills decides the contents. */
  lemma FilledLastWins(s: seq<real>, a: real, b: real)
    ensures Filled(Filled(s, a), b) == Filled(s, b)
  {
    FilledForgetsContents(Filled(s, a), s, b);
  }

  class MultiArray {
    const shape: seq<nat>
    const data: array<real>

    /** `count` is the product of the shape. */
    ghost predicate Valid()
    {
      data.Length == Count(shape)
    }

    /** A freshly allocated multi-array; its contents are unspecified. */
    constructor (shape: seq<nat>)
      ensures Valid() && this.shape == shape && fresh(data)
    {
      this.shape := shape;
      data := new real[Count(shape)];
    }

    /** The current value of the multi-array. */
    function Snapshot(): (t: Tensor)
      reads data
      ensures t.shape == shape && |t.elems| == data.Length
    {
      Tensor(shape, data[..])
    }

    /** Sets each of the `count` elements to `value`, in place. */
    method Fill(value: real)
      modifies data
      ensures data[..] == Filled(old(data[..]), value)
    {
      for i := 0 to data.Length
        invariant forall k :: 0 <= k < i ==> data[k] == value
      {
        data[i] := value;
      }
    }
  }

  /** A zero-filled multi-array of the given shape, read back as a value: the
      allocate-then-`fill(value: 0)` idiom of the state initialisers. */
  method ZeroTensor(shape: seq<nat>) returns (t: Tensor)
    ensures IsZeroTensor(t, shape)
  {
    var m := new MultiArray(shape);
    m.Fill(0.0);
    t := m.Snapshot();
  }
}
