/** The recurrent state of the streaming Conformer encoder: per-layer attention
    and convolution caches, the three pre-encoder subsampling states, the number
    of frames consumed so far, and `processed_length`, the one-element
    multi-array the attention-mask sub-models read. */
module EncoderState {
  import opened MultiArrays

  const LayerCount: nat := 17

  const KvShape: seq<nat> := [1, 8, 70, 64]
  const ConvShape: seq<nat> := [1, 512, 8]
  const PreEncodeShape1: seq<nat> := [1, 1, 2, 80]
  const PreEncodeShape2: seq<nat> := [1, 256, 2, 41]
  const PreEncodeShape3: seq<nat> := [1, 256, 2, 21]
  const ProcessedLengthShape: seq<nat> := [1]

  /** `ConformerLayerState`: key cache, value cache and convolution state. */
  datatype LayerState = LayerState(k: Tensor, v: Tensor, conv: Tensor)

  /** `State` is a Swift struct; copying it copies every field, but
      `processedLength` is a reference, so copies share that one object. */
  datatype State = State(
    preEncode1: Tensor,
    preEncode2: Tensor,
    preEncode3: Tensor,
    layerStates: seq<LayerState>,
    processedLength: MultiArray,
    processed: int)

  predicate IsZeroLayerState(l: LayerState)
  {
    IsZeroTensor(l.k, KvShape) && IsZeroTensor(l.v, KvShape) && IsZeroTensor(l.conv, ConvShape)
  }

  /** What the value part of a state must be right after `State.init`. */
  predicate IsInitialValue(s: State)
  {
    && IsZeroTensor(s.preEncode1, PreEncodeShape1)
    && IsZeroTensor(s.preEncode2, PreEncodeShape2)
    && IsZeroTensor(s.preEncode3, PreEncodeShape3)
    && |s.layerStates| == LayerCount
    && (forall i :: 0 <= i < |s.layerStates| ==> IsZeroLayerState(s.layerStates[i]))
    && s.processed == 0
  }

  /** `processed_length` is a well-formed one-element multi-array. */
  ghost predicate HasLengthCell(s: State)
  {
    s.processedLength.Valid() && s.processedLength.shape == ProcessedLengthShape
  }

  /** The contents `step` leaves in `processed_length`: the running total. */
  predicate CellHoldsTotal(s: State)
    reads s.processedLength.data
  {
    s.processedLength.data[..] == [s.processed as real]
  }

  /** `ConformerLayerState.init`: three freshly allocated, zero-filled caches. */
  method NewLayerState() returns (l: LayerState)
    ensures IsZeroLayerState(l)
  {
    var k := ZeroTensor(KvShape);
    var v := ZeroTensor(KvShape);
    var conv := ZeroTensor(ConvShape);
    l := LayerState(k, v, conv);
  }

  /** `State.init`: zeroed pre-encoder states, 17 zeroed layer states, and a
      new `processed_length` object holding 0. */
  method NewState() returns (s: State)
    ensures IsInitialValue(s) && HasLengthCell(s) && CellHoldsTotal(s)
    ensures fresh(s.processedLength) && fresh(s.processedLength.data)
  {
    var p1 := ZeroTensor(PreEncodeShape1);
    var p2 := ZeroTensor(PreEncodeShape2);
    var p3 := ZeroTensor(PreEncodeShape3);
    var layers: seq<LayerState> := [];
    while |layers| < LayerCount
      invariant |layers| <= LayerCount
      invariant forall i :: 0 <= i < |layers| ==> IsZeroLayerState(layers[i])
    {
      var l := NewLayerState();
      layers := layers + [l];
    }
    var cell := new MultiArray(ProcessedLengthShape);
    cell.Fill(0 as real);
    s := State(p1, p2, p3, layers, cell, 0);
  }

  /** The value a state takes after `step(size:)`: only the total moves. */
  function Stepped(s: State, size: int): (t: State)
    ensures t.processed == s.processed + size
    ensures t.(processed := s.processed) == s
  {
    s.(processed := s.processed + size)
  }

  /** Steps accumulate. */
  lemma SteppedAccumulates(s: State, a: int, b: int)
    ensures Stepped(Stepped(s, a), b) == Stepped(s, a + b)
  {
  }

  /** `State.step(size:)`: adds `size` to the total and fills the shared
      `processed_length` object with the new total, in place. Every other
      field, layer states and pre-encoder states included, is unchanged. */
  method Step(s: State, size: int) returns (t: State)
    requires HasLengthCell(s)
    modifies s.processedLength.data
    ensures t == Stepped(s, size)
    ensures CellHoldsTotal(t)
  {
    t := Stepped(s, size);
    t.processedLength.Fill(t.processed as real);
  }
}
