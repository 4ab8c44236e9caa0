/** `OtosakuStreamingASR`: buffers raw samples, cuts windows by the schedule
    of `Windows`, turns them into features, and runs queued features through
    the encoder and the CTC decoder. */
module StreamingAsr {
  import opened Wrappers
  import opened MultiArrays
  import opened Windows
  import opened Fifo
  import ArrayExtensions
  import EncoderState
  import Encoder
  import CtcDecoding

  /** `modelDoesNotLoaded`, and the error `processChunk` of the external
      feature extractor throws. */
  datatype AsrError = ModelDoesNotLoaded | ExtractionFailed | LoadFailed

  /** `OtosakuFeatureExtractor.processChunk`: samples to features, or a throw. */
  type FeatureExtractor = seq<real> -> Option<Tensor>

  /** Every feature tensor the extractor produces has a frame axis. */
  ghost predicate ExtractsRanked(f: FeatureExtractor)
  {
    forall c :: f(c).Some? ==> |f(c).value.shape| >= 2
  }

  class OtosakuStreamingASR {
    var featureExtractor: Option<FeatureExtractor>
    var encoder: Encoder.ConformerEncoder?
    var decoder: CtcDecoding.ModelDecoder?
    const featsForPredit: ThreadSafeArray<Tensor>
    var buffer: seq<real>
    var count480: int
    var count80: int
    ghost var Repr: set<object>

    /** The guard of `predictChunk` and `stop`. */
    predicate Loaded()
      reads this
    {
      featureExtractor.Some? && encoder != null && decoder != null
    }

    ghost predicate Valid()
      reads this, Repr
    {
      && this in Repr && featsForPredit in Repr
      && OffsetInBuffer(Scheduler(buffer, count480, count80))
      && (forall k :: 0 <= k < |featsForPredit.items| ==> |featsForPredit.items[k].shape| >= 2)
      && (featureExtractor.Some? ==> ExtractsRanked(featureExtractor.value))
      && (encoder != null ==>
            && encoder in Repr && encoder.Repr <= Repr
            && this !in encoder.Repr && featsForPredit !in encoder.Repr
            && encoder.Valid() && encoder.OutputsRanked())
      && (decoder != null ==>
            && decoder in Repr
            && (encoder != null ==> decoder !in encoder.Repr)
            && decoder.Valid() && decoder.CoversEveryPath())
    }

    /** `init()`: nothing loaded, an empty buffer and an empty feature queue. */
    constructor ()
      ensures Valid() && fresh(Repr)
      ensures !Loaded() && encoder == null && decoder == null && featureExtractor.None?
      ensures buffer == [] && count480 == 0 && count80 == 0 && featsForPredit.items == []
    {
      featureExtractor := None;
      encoder := null;
      decoder := null;
      buffer := [];
      count480, count80 := 0, 0;
      featsForPredit := new ThreadSafeArray([]);
      Repr := {this, featsForPredit};
    }

    /** `prepareModel(from:units:)`: the three components are loaded in order
        and the first one that fails to load ends the call, keeping those
        already assigned. Loading itself is reading files; each component is
        given here already loaded, `None`/`null` standing for a throw. */
    method PrepareModel(extractor: Option<FeatureExtractor>, encoder': Encoder.ConformerEncoder?,
                        decoder': CtcDecoding.ModelDecoder?) returns (r: Result<(), AsrError>)
      requires Valid()
      requires extractor.Some? ==> ExtractsRanked(extractor.value)
      requires encoder' != null ==> encoder'.Valid() && encoder'.OutputsRanked()
      requires decoder' != null ==> decoder'.Valid() && decoder'.CoversEveryPath()
      modifies this
      ensures Valid()
      ensures buffer == old(buffer) && count480 == old(count480) && count80 == old(count80)
      ensures r.Success? <==> extractor.Some? && encoder' != null && decoder' != null
      ensures r.Success? ==> Loaded()
      ensures featureExtractor == (if extractor.Some? then extractor else old(featureExtractor))
      ensures encoder == (if extractor.Some? && encoder' != null then encoder' else old(encoder))
      ensures decoder == (if extractor.Some? && encoder' != null && decoder' != null then decoder' else old(decoder))
      ensures Repr == old(Repr) + (if extractor.Some? && encoder' != null then encoder'.Repr else {})
                              + (if extractor.Some? && encoder' != null && decoder' != null then {decoder' as object} else {})
    {
      if extractor.None? {
        return Failure(LoadFailed);
      }
      featureExtractor := extractor;
      if encoder' == null {
        return Failure(LoadFailed);
      }
      encoder := encoder';
      Repr := Repr + encoder'.Repr;
      if decoder' == null {
        return Failure(LoadFailed);
      }
      decoder := decoder';
      Repr := Repr + {decoder'};
      r := Success(());
    }

    /** `predictChunk(rawChunk:)`: append the samples, cut one window, extract
        its features. Spawning the task that enqueues them is left to the
        caller: the features are returned (see `AddToQueue`). */
    method PredictChunk(rawChunk: seq<real>) returns (r: Result<Tensor, AsrError>)
      requires Valid()
      requires Loaded() ==> ChunkFits(buffer + rawChunk, count480, count80)
      modifies this
      ensures Valid() && Repr == old(Repr)
      ensures featureExtractor == old(featureExtractor) && encoder == old(encoder) && decoder == old(decoder)
      ensures !old(Loaded()) ==>
                r == Failure(ModelDoesNotLoaded) &&
                buffer == old(buffer) && count480 == old(count480) && count80 == old(count80)
      ensures old(Loaded()) ==>
                var w := NextWindow(old(buffer) + rawChunk, old(count480), old(count80));
                var feats := featureExtractor.value(w.chunk);
                && buffer == w.buffer && count480 == w.count480 && count80 == w.count80
                && r == (if feats.Some? then Success(feats.value) else Failure(ExtractionFailed))
    {
      if !Loaded() {
        return Failure(ModelDoesNotLoaded);
      }
      var extractor := featureExtractor.value;
      buffer := buffer + rawChunk;
      var w := TakeWindow(buffer, count480, count80);
      buffer, count480, count80 := w.buffer, w.count480, w.count80;
      var feats := extractor(w.chunk);
      if feats.None? {
        return Failure(ExtractionFailed);
      }
      r := Success(feats.value);
    }

    /** `stop()`: pad the buffer with zeros to a medium or a long window and
        extract features from all of it. The buffer keeps its padding and the
        counters are untouched. */
    method Stop() returns (r: Result<Tensor, AsrError>)
      requires Valid()
      requires Loaded() ==> |buffer| <= Long
      modifies this
      ensures Valid() && Repr == old(Repr)
      ensures featureExtractor == old(featureExtractor) && encoder == old(encoder) && decoder == old(decoder)
      ensures count480 == old(count480) && count80 == old(count80)
      ensures !old(Loaded()) ==> r == Failure(ModelDoesNotLoaded) && buffer == old(buffer)
      ensures old(Loaded()) ==>
                var feats := featureExtractor.value(buffer);
                && buffer == Padded(old(buffer))
                && r == (if feats.Some? then Success(feats.value) else Failure(ExtractionFailed))
    {
      if !Loaded() {
        return Failure(ModelDoesNotLoaded);
      }
      var extractor := featureExtractor.value;
      var padding;
      if |buffer| <= Medium {
        padding := ArrayExtensions.Zeros(Medium - |buffer|);
      } else {
        padding := ArrayExtensions.Zeros(Long - |buffer|);
      }
      assert padding == seq(|padding|, _ => 0.0);
      buffer := buffer + padding;
      var feats := extractor(buffer);
      if feats.None? {
        return Failure(ExtractionFailed);
      }
      r := Success(feats.value);
    }

    /** `reset()`: both models reset, the buffer emptied and both counters
        zeroed; the feature queue is not touched. */
    method Reset()
      requires Valid()
      modifies Repr
      ensures Valid() && fresh(Repr - old(Repr))
      ensures featureExtractor == old(featureExtractor) && encoder == old(encoder) && decoder == old(decoder)
      ensures buffer == [] && count480 == 0 && count80 == 0
      ensures featsForPredit.items == old(featsForPredit.items)
      ensures encoder != null ==>
                EncoderState.IsInitialValue(encoder.longTerm) && EncoderState.IsInitialValue(encoder.shortTerm) &&
                !encoder.Shared()
      ensures decoder != null ==> decoder.State() == CtcDecoding.Initial
    {
      if encoder != null {
        encoder.Reset();
        Repr := Repr + encoder.Repr;
      }
      if decoder != null {
        decoder.Reset();
      }
      buffer := [];
      count480 := 0;
      count80 := 0;
    }

    /** What `extractFeature` returns for `feature`, and the decoder state it
        leaves: "" without both models or when the encoder throws, otherwise
        one `decode_ctc` call on the encoder output. */
    ghost function Recognition(feature: Tensor): (r: (CtcDecoding.DecoderState, string))
      reads this, Repr
      requires Valid() && |feature.shape| >= 2
      ensures encoder == null || decoder == null ==> r.1 == ""
      ensures decoder != null && !Encodes(feature) ==> r == (decoder.State(), "")
      ensures decoder != null ==> decoder.State().fixedWholeText <= r.0.fixedWholeText
      ensures decoder != null && r.1 != "" ==> r.0.fixedWholeText <= r.1
    {
      if encoder == null || decoder == null then
        (if decoder == null then CtcDecoding.Initial else decoder.State(), "")
      else
        var e := encoder.Expected(feature);
        // Under `Valid()` the layers' outputs have rank at least 2
        // (`OutputsRanked`), so the `|shape| < 2` case never arises; the
        // source would trap on `shape[1]` there. It only keeps this total.
        if e.Failure? || |e.value.0.shape| < 2 then (decoder.State(), "")
        else CtcDecoding.DecodeStep(decoder.tokens, decoder.State(), e.value.0.shape[1], decoder.ctcDecoder(e.value.0))
    }

    /** Whether `extractFeature(feature)` gets past `encoder.predict`: both
        models are loaded and the forward pass succeeds. */
    ghost predicate Encodes(feature: Tensor)
      reads this, Repr
      requires Valid() && |feature.shape| >= 2
    {
      encoder != null && decoder != null && encoder.Expected(feature).Success?
    }

    /** The encoder's stored (long-term, short-term) states after
        `extractFeature(feature)`. A successful `predict` writes the stepped
        state to the short-term slot, and for 112 frames to the long-term slot
        too; without the decoder, or when `predict` throws, both
        stay as they are. */
    ghost function EncoderAfter(feature: Tensor): (r: (EncoderState.State, EncoderState.State))
      reads this, Repr
      requires Valid() && |feature.shape| >= 2 && encoder != null
      ensures !Encodes(feature) ==> r == (encoder.longTerm, encoder.shortTerm)
      ensures Encodes(feature) ==>
                && r.1 == encoder.Expected(feature).value.1
                && r.1.processed == encoder.StateFor(feature.shape[1]).processed + feature.shape[1]
                && r.1.processedLength == encoder.StateFor(feature.shape[1]).processedLength
      ensures feature.shape[1] != Encoder.Frames1040 ==> r.0 == encoder.longTerm
      ensures Encodes(feature) && feature.shape[1] == Encoder.Frames1040 ==> r.0 == r.1
    {
      if Encodes(feature) then
        var t := encoder.Expected(feature).value.1;
        (if feature.shape[1] == Encoder.Frames1040 then t else encoder.longTerm, t)
      else (encoder.longTerm, encoder.shortTerm)
    }

    /** `extractFeature(feature:)`: encoder then decoder; any encoder error the
        catch turns into "". */
    method ExtractFeature(feature: Tensor) returns (text: string)
      requires Valid() && |feature.shape| >= 2
      modifies Repr - {this, featsForPredit}
      ensures Valid()
      ensures text == old(Recognition(feature)).1
      ensures decoder != null ==> decoder.State() == old(Recognition(feature)).0
      ensures encoder != null ==> (encoder.longTerm, encoder.shortTerm) == old(EncoderAfter(feature))
      ensures encoder != null && !old(Encodes(feature)) ==>
                && encoder.longTerm.processedLength.data[..] == old(encoder.longTerm.processedLength.data[..])
                && encoder.shortTerm.processedLength.data[..] == old(encoder.shortTerm.processedLength.data[..])
    {
      if encoder == null || decoder == null {
        return "";
      }
      var encoded := encoder.Predict(feature);
      if encoded.Failure? {
        return "";
      }
      text := decoder.DecodeCtc(encoded.value);
    }

    /** `processQueue()`: take the feature at index 0, if there is one, and
        return the text handed to the listener. */
    method ProcessQueue() returns (delivered: Option<string>)
      requires Valid()
      modifies Repr - {this}
      ensures Valid()
      ensures featsForPredit.items == RemoveAt(old(featsForPredit.items), 0).1
      ensures old(featsForPredit.items) == [] ==> delivered.None? && unchanged(Repr - {featsForPredit})
      ensures old(featsForPredit.items) != [] ==>
                && delivered == Some(old(Recognition(featsForPredit.items[0])).1)
                && (decoder != null ==> decoder.State() == old(Recognition(featsForPredit.items[0])).0)
                && (encoder != null ==>
                      (encoder.longTerm, encoder.shortTerm) == old(EncoderAfter(featsForPredit.items[0])))
                && (encoder != null && !old(Encodes(featsForPredit.items[0])) ==>
                      && encoder.longTerm.processedLength.data[..] == old(encoder.longTerm.processedLength.data[..])
                      && encoder.shortTerm.processedLength.data[..] == old(encoder.shortTerm.processedLength.data[..]))
    {
      var chunk := featsForPredit.Remove(0);
      if chunk.None? {
        return None;
      }
      var text := ExtractFeature(chunk.value);
      delivered := Some(text);
    }

    /** `addToQueue(feature:)`: append the feature, then process the queue. */
    method AddToQueue(feature: Tensor) returns (delivered: Option<string>)
      requires Valid() && |feature.shape| >= 2
      modifies Repr - {this}
      ensures Valid()
      ensures var queue := old(featsForPredit.items) + [feature];
              && featsForPredit.items == queue[1..]
              && delivered == Some(old(Recognition(queue[0])).1)
              && (decoder != null ==> decoder.State() == old(Recognition(queue[0])).0)
              && (encoder != null ==> (encoder.longTerm, encoder.shortTerm) == old(EncoderAfter(queue[0])))
              && (encoder != null && !old(Encodes(queue[0])) ==>
                    && encoder.longTerm.processedLength.data[..] == old(encoder.longTerm.processedLength.data[..])
                    && encoder.shortTerm.processedLength.data[..] == old(encoder.shortTerm.processedLength.data[..]))
    {
      featsForPredit.Append(feature);
      delivered := ProcessQueue();
    }
  }
}
