/** `ConformerEncoder`: runs one feature chunk through the pre-encoder and the 17
    Conformer layers, threading one of two stored recurrent states. */
module Encoder {
  import opened Wrappers
  import opened MultiArrays
  import opened EncoderState
  import opened SubModels

  /** Frame counts of the 80 ms, 480 ms and 1040 ms feature chunks. */
  const Frames80: int := 16
  const Frames480: int := 56
  const Frames1040: int := 112

  datatype EncoderError = UnexpectedFeatShape(frames: int) | SubModelFailed(cause: ModelError)

  predicate KnownFrames(frames: int)
  {
    frames == Frames80 || frames == Frames480 || frames == Frames1040
  }

  /** The first `n` layers run in index order: layer `i` takes the previous
      output and slot `i` of the states and writes back slot `i` only. */
  function RunLayers(layers: seq<ConformerLayer>, n: nat, x: Tensor, mask: Tensor, posEmb: Tensor,
                     states: seq<LayerState>): (r: Result<(Tensor, seq<LayerState>), ModelError>)
    requires n <= |layers| && n <= |states|
    ensures r.Success? ==> |r.value.1| == |states|
    ensures r.Success? ==> forall j :: n <= j < |states| ==> r.value.1[j] == states[j]
    decreases n
  {
    if n == 0 then Success((x, states))
    else
      match RunLayers(layers, n - 1, x, mask, posEmb, states)
      case Failure(e) => Failure(e)
      case Success((out, sts)) =>
        match layers[n - 1](out, mask, sts[n - 1].k, sts[n - 1].v, sts[n - 1].conv, posEmb)
        case Failure(e) => Failure(e)
        case Success(o) => Success((o.out, sts[n - 1 := LayerState(o.k, o.v, o.conv)]))
  }

  /** When the first `n` layers succeed, every layer `j < n` succeeded on the
      output of the layers before it and on the ORIGINAL slot `j`, slot `j` of
      the result is what layer `j` returned, and the output is layer `n-1`'s. */
  lemma {:induction false} RunLayersSlot(layers: seq<ConformerLayer>, n: nat, x: Tensor, mask: Tensor,
                                         posEmb: Tensor, states: seq<LayerState>, j: nat)
    requires j < n <= |layers| && n <= |states|
    requires RunLayers(layers, n, x, mask, posEmb, states).Success?
    ensures RunLayers(layers, j, x, mask, posEmb, states).Success?
    ensures var input := RunLayers(layers, j, x, mask, posEmb, states).value.0;
            var o := layers[j](input, mask, states[j].k, states[j].v, states[j].conv, posEmb);
            && o.Success?
            && RunLayers(layers, n, x, mask, posEmb, states).value.1[j] == LayerState(o.value.k, o.value.v, o.value.conv)
            && (j == n - 1 ==> RunLayers(layers, n, x, mask, posEmb, states).value.0 == o.value.out)
  {
    if j < n - 1 {
      RunLayersSlot(layers, n - 1, x, mask, posEmb, states, j);
    }
  }

  /** If some layer fails, the whole run fails with that layer's error. */
  lemma {:induction false} RunLayersFailurePropagates(layers: seq<ConformerLayer>, n: nat, m: nat, x: Tensor,
                                                      mask: Tensor, posEmb: Tensor, states: seq<LayerState>)
    requires m <= n <= |layers| && n <= |states|
    requires RunLayers(layers, m, x, mask, posEmb, states).Failure?
    ensures RunLayers(layers, n, x, mask, posEmb, states) == RunLayers(layers, m, x, mask, posEmb, states)
  {
    if m < n {
      RunLayersFailurePropagates(layers, n - 1, m, x, mask, posEmb, states);
    }
  }

  class ConformerEncoder {
    const preEncoder: PreEncoder
    const mask80: Mask
    const mask480: Mask
    const mask1040: Mask
    const layers: seq<ConformerLayer>
    const posEmb80: Tensor
    const posEmb480: Tensor
    const posEmb1040: Tensor
    var longTerm: State
    var shortTerm: State
    ghost var Repr: set<object>

    /** Both stored states hold the same `processed_length` object. */
    predicate Shared()
      reads this
    {
      longTerm.processedLength == shortTerm.processedLength
    }

    /** The short-term state's cell always holds its own total; the long-term
        state's cell does so only while it is not shared with the short-term
        state (once shared, short-term steps overwrite it). */
    ghost predicate Valid()
      reads this, Repr
    {
      && Repr == {this, longTerm.processedLength.data, shortTerm.processedLength.data}
      && |layers| == LayerCount
      && |longTerm.layerStates| == LayerCount
      && |shortTerm.layerStates| == LayerCount
      && HasLengthCell(longTerm)
      && HasLengthCell(shortTerm)
      && (!Shared() ==> longTerm.processedLength.data != shortTerm.processedLength.data)
      && CellHoldsTotal(shortTerm)
      && (!Shared() ==> CellHoldsTotal(longTerm))
    }

    /** The sub-models are given already loaded; both states start as `State()`. */
    constructor (preEncoder: PreEncoder, mask80: Mask, mask480: Mask, mask1040: Mask,
                 layers: seq<ConformerLayer>, posEmb80: Tensor, posEmb480: Tensor, posEmb1040: Tensor)
      requires |layers| == LayerCount
      ensures Valid() && fresh(Repr)
      ensures this.preEncoder == preEncoder && this.layers == layers
      ensures this.mask80 == mask80 && this.mask480 == mask480 && this.mask1040 == mask1040
      ensures this.posEmb80 == posEmb80 && this.posEmb480 == posEmb480 && this.posEmb1040 == posEmb1040
      ensures IsInitialValue(longTerm) && IsInitialValue(shortTerm) && !Shared()
    {
      this.preEncoder := preEncoder;
      this.mask80, this.mask480, this.mask1040 := mask80, mask480, mask1040;
      this.layers := layers;
      this.posEmb80, this.posEmb480, this.posEmb1040 := posEmb80, posEmb480, posEmb1040;
      var long := NewState();
      var short := NewState();
      longTerm, shortTerm := long, short;
      Repr := {this, long.processedLength.data, short.processedLength.data};
    }

    /** 16 frames read the short-term state; 56 and 112 the long-term one. */
    function StateFor(frames: int): State
      reads this
    {
      if frames == Frames80 then shortTerm else longTerm
    }

    function MaskFor(frames: int): Mask
    {
      if frames == Frames80 then mask80 else if frames == Frames480 then mask480 else mask1040
    }

    function PosEmbFor(frames: int): Tensor
    {
      if frames == Frames80 then posEmb80 else if frames == Frames480 then posEmb480 else posEmb1040
    }

    /** The pre-encoder followed by the layers, on state `st` with the given
        mask and positional embedding: the output and the state before `step`. */
    function Advance(x: Tensor, st: State, mask: Tensor, posEmb: Tensor): (r: Result<(Tensor, State), ModelError>)
      requires |layers| <= |st.layerStates|
      ensures r.Success? ==> r.value.1.processed == st.processed
      ensures r.Success? ==> r.value.1.processedLength == st.processedLength
      ensures r.Success? ==> |r.value.1.layerStates| == |st.layerStates|
    {
      match preEncoder(x, st.preEncode1, st.preEncode2, st.preEncode3)
      case Failure(e) => Failure(e)
      case Success(p) =>
        match RunLayers(layers, |layers|, p.features, mask, posEmb, st.layerStates)
        case Failure(e) => Failure(e)
        case Success((out, ls)) =>
          Success((out, st.(preEncode1 := p.state1, preEncode2 := p.state2, preEncode3 := p.state3, layerStates := ls)))
    }

    /** The forward pass on state `st` whose `processed_length` currently holds
        `lengthCell`: the output tensor and the state to be written back. */
    function Forward(x: Tensor, st: State, lengthCell: Tensor): (r: Result<(Tensor, State), EncoderError>)
      requires |x.shape| >= 2 && |layers| <= |st.layerStates|
      ensures !KnownFrames(x.shape[1]) ==> r == Failure(UnexpectedFeatShape(x.shape[1]))
      ensures r.Success? ==> KnownFrames(x.shape[1])
      ensures r.Success? ==> r.value.1.processed == st.processed + x.shape[1]
      ensures r.Success? ==> r.value.1.processedLength == st.processedLength
      ensures r.Success? ==> |r.value.1.layerStates| == |st.layerStates|
    {
      var frames := x.shape[1];
      if !KnownFrames(frames) then Failure(UnexpectedFeatShape(frames))
      else
        match MaskFor(frames)(lengthCell)
        case Failure(e) => Failure(SubModelFailed(e))
        case Success(mask) =>
          match Advance(x, st, mask, PosEmbFor(frames))
          case Failure(e) => Failure(SubModelFailed(e))
          case Success((out, st')) => Success((out, Stepped(st', frames)))
    }

    /** Which stored state, mask model and positional embedding a window of
        `frames` frames uses: 16 frames the short-term state with the 80 ms
        mask and embedding; 56 and 112 frames the long-term state with the
        480 ms, respectively 1040 ms, mask and embedding. */
    lemma SelectionByFrames(frames: int)
      ensures frames == Frames80 ==>
                StateFor(frames) == shortTerm && MaskFor(frames) == mask80 && PosEmbFor(frames) == posEmb80
      ensures frames == Frames480 ==>
                StateFor(frames) == longTerm && MaskFor(frames) == mask480 && PosEmbFor(frames) == posEmb480
      ensures frames == Frames1040 ==>
                StateFor(frames) == longTerm && MaskFor(frames) == mask1040 && PosEmbFor(frames) == posEmb1040
    {
    }

    /** What `predict` computes from the current stored states: it fails on an
        unknown frame count, and on success it has stepped the state selected
        for that frame count by the frame count, keeping its cell. */
    ghost function Expected(x: Tensor): (r: Result<(Tensor, State), EncoderError>)
      reads this, Repr
      requires Valid() && |x.shape| >= 2
      ensures !KnownFrames(x.shape[1]) ==> r == Failure(UnexpectedFeatShape(x.shape[1]))
      ensures r.Success? ==> KnownFrames(x.shape[1])
      ensures r.Success? ==> r.value.1.processed == StateFor(x.shape[1]).processed + x.shape[1]
      ensures r.Success? ==> r.value.1.processedLength == StateFor(x.shape[1]).processedLength
      ensures r.Success? ==> |r.value.1.layerStates| == LayerCount
    {
      var st := StateFor(x.shape[1]);
      Forward(x, st, st.processedLength.Snapshot())
    }

    /** Every successful layer output has at least two dimensions. */
    ghost predicate OutputsRanked()
    {
      forall i, x, m, k, v, c, p :: 0 <= i < |layers| && layers[i](x, m, k, v, c, p).Success? ==>
        |layers[i](x, m, k, v, c, p).value.out.shape| >= 2
    }

    /** The `for (i, layer) in layers.enumerated()` loop: threads `out` through
        the layers in index order, rewriting slot `i` after layer `i`; the
        first failing layer ends the loop with its error. */
    method RunAllLayers(x: Tensor, mask: Tensor, posEmb: Tensor, states: seq<LayerState>)
      returns (r: Result<(Tensor, seq<LayerState>), ModelError>)
      requires |layers| <= |states|
      ensures r == RunLayers(layers, |layers|, x, mask, posEmb, states)
    {
      var out := x;
      var sts := states;
      var i := 0;
      while i < |layers|
        invariant 0 <= i <= |layers|
        invariant RunLayers(layers, i, x, mask, posEmb, states) == Success((out, sts))
      {
        var res := layers[i](out, mask, sts[i].k, sts[i].v, sts[i].conv, posEmb);
        if res.Failure? {
          RunLayersFailurePropagates(layers, |layers|, i + 1, x, mask, posEmb, states);
          return Failure(res.error);
        }
        out := res.value.out;
        sts := sts[i := LayerState(res.value.k, res.value.v, res.value.conv)];
        i := i + 1;
      }
      r := Success((out, sts));
    }

    /** Lines 79-94 of `predict`: the pre-encoder call, its three states
        written back, then the layer loop. */
    method RunAdvance(x: Tensor, st: State, mask: Tensor, posEmb: Tensor)
      returns (r: Result<(Tensor, State), ModelError>)
      requires |layers| <= |st.layerStates|
      ensures r == Advance(x, st, mask, posEmb)
      ensures OutputsRanked() && r.Success? && |layers| > 0 ==> |r.value.0.shape| >= 2
    {
      var pre := preEncoder(x, st.preEncode1, st.preEncode2, st.preEncode3);
      if pre.Failure? {
        return Failure(pre.error);
      }
      var st' := st.(preEncode1 := pre.value.state1, preEncode2 := pre.value.state2, preEncode3 := pre.value.state3);
      var run := RunAllLayers(pre.value.features, mask, posEmb, st'.layerStates);
      if run.Failure? {
        return Failure(run.error);
      }
      if |layers| > 0 {
        RunLayersSlot(layers, |layers|, pre.value.features, mask, posEmb, st'.layerStates, |layers| - 1);
      }
      r := Success((run.value.0, st'.(layerStates := run.value.1)));
    }

    /** Lines 96-105 of `predict`: `step` on the threaded state, then the
        write-back. 112 frames store it in both slots, 56 and 16 only in the
        short-term slot. Since `st` holds the selected state's
        `processed_length` object, a 56-frame window leaves both slots sharing
        the long-term state's object. */
    method StepAndStore(st: State, frames: int)
      requires Valid() && KnownFrames(frames)
      requires st.processedLength == StateFor(frames).processedLength
      requires |st.layerStates| == LayerCount
      modifies Repr
      ensures Valid() && Repr <= old(Repr)
      ensures shortTerm == Stepped(st, frames)
      ensures frames == Frames1040 ==> longTerm == Stepped(st, frames)
      ensures frames != Frames1040 ==> longTerm == old(longTerm)
      ensures frames != Frames80 ==> Shared()
      ensures old(Shared()) ==> Shared()
    {
      var t := Step(st, frames);
      if frames == Frames1040 {
        longTerm := t;
        shortTerm := t;
      } else if frames == Frames480 {
        shortTerm := t;
      } else if frames == Frames80 {
        shortTerm := t;
      }
      Repr := {this, longTerm.processedLength.data, shortTerm.processedLength.data};
    }

    /** `predict(x:)`. On success the new state goes to the short-term slot,
        and to the long-term slot only for 112 frames; on any failure nothing
        is reassigned and `step` has not run. */
    method Predict(x: Tensor) returns (r: Result<Tensor, EncoderError>)
      requires Valid() && |x.shape| >= 2
      modifies Repr
      ensures Valid() && Repr <= old(Repr)
      ensures r.Failure? <==> old(Expected(x)).Failure?
      ensures r.Failure? ==> r.error == old(Expected(x)).error
      ensures r.Failure? ==> unchanged(this)
      ensures r.Failure? ==> longTerm.processedLength.data[..] == old(longTerm.processedLength.data[..])
      ensures r.Failure? ==> shortTerm.processedLength.data[..] == old(shortTerm.processedLength.data[..])
      ensures r.Success? ==> r.value == old(Expected(x)).value.0
      ensures r.Success? ==> shortTerm == old(Expected(x)).value.1
      ensures r.Success? && x.shape[1] == Frames1040 ==> longTerm == old(Expected(x)).value.1
      ensures x.shape[1] != Frames1040 ==> longTerm == old(longTerm)
      ensures r.Success? && x.shape[1] != Frames80 ==> Shared()
      ensures old(Shared()) ==> Shared()
      ensures old(Shared()) && r.Success? ==> longTerm.processedLength.data[..] == [shortTerm.processed as real]
      ensures OutputsRanked() && r.Success? ==> |r.value.shape| >= 2
    {
      var frames := x.shape[1];
      var st: State;
      var maskOut: Result<Tensor, ModelError>;
      var posEmb: Tensor;
      if frames == Frames80 {
        st := shortTerm;
        maskOut := mask80(st.processedLength.Snapshot());
        posEmb := posEmb80;
      } else if frames == Frames480 {
        st := longTerm;
        maskOut := mask480(st.processedLength.Snapshot());
        posEmb := posEmb480;
      } else {
        if frames != Frames1040 {
          return Failure(UnexpectedFeatShape(frames));
        }
        st := longTerm;
        maskOut := mask1040(st.processedLength.Snapshot());
        posEmb := posEmb1040;
      }
      if maskOut.Failure? {
        return Failure(SubModelFailed(maskOut.error));
      }
      var mask := maskOut.value;

      var adv := RunAdvance(x, st, mask, posEmb);
      if adv.Failure? {
        return Failure(SubModelFailed(adv.error));
      }
      var out := adv.value.0;
      st := adv.value.1;

      StepAndStore(st, frames);
      r := Success(out);
    }

    /** `reset()`: both stored states become fresh, zeroed, unshared `State()`s. */
    method Reset()
      requires Valid()
      modifies this
      ensures Valid() && fresh(Repr - {this})
      ensures IsInitialValue(longTerm) && IsInitialValue(shortTerm) && !Shared()
      ensures fresh(longTerm.processedLength) && fresh(shortTerm.processedLength)
    {
      longTerm := NewState();
      shortTerm := NewState();
      Repr := {this, longTerm.processedLength.data, shortTerm.processedLength.data};
    }
  }
}
