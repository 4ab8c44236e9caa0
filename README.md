# OtosakuStreamingASR — a Dafny model of the streaming orchestrator

OtosakuStreamingASR turns microphone audio into text while the user speaks. Raw
samples go into a buffer. Each call of `predictChunk` cuts exactly one window
out of it: 80 ms, 480 ms or 1040 ms, by a fixed priority. The window becomes a
feature tensor and is queued. Queued features pass through a streaming Conformer
encoder, which threads one of two stored recurrent states through a pre-encoder
and 17 layers. An incremental CTC decoder then merges each window's best path
into a transcript. The transcript has two parts:
- a committed part, which only 1040 ms windows extend;
- a provisional part, which is recomputed from the 480 ms and 80 ms token
  histories on every other call.

The neural sub-models are function values:
- the pre-encoder, the three attention-mask models and the 17 layers, as
  `SubModels` types, which may fail;
- the feature extractor, which may fail;
- the CTC best-path model (`SubModels.CtcDecoder`), which is total here. The
  source calls it under `try!`, so its failure would crash the process; that
  crash path is left out (see "## Left out").

Tensors are values (`MultiArrays.Tensor`), with one exception: the encoder
state's `processed_length` multi-array. `State.step` fills it in place, and
struct copies of a `State` share it. It is therefore a heap `MultiArray`
holding an `array<real>`. The model proves the aliasing the source produces:
- after a 1040 ms window, both stored states hold the same cell;
- later 80 ms and 480 ms windows then overwrite the value the long-term state's
  mask reads.

Modules, in dependency order:
- `Wrappers`: `Option` and `Result`.
- `MultiArrays`: tensors, the zero-filled allocation idiom, and `fill(value:)`.
- `ArrayExtensions`: `zeros(length:)`.
- `EncoderState`: `ConformerLayerState`, `State` and `State.step`.
- `SubModels`: the sub-model signatures.
- `Encoder`: `ConformerEncoder`.
- `CtcDecoding`: `ModelDecoder`.
- `Fifo`: `ThreadSafeArray`.
- `Windows`: the window schedule of `predictChunk` and the padding of `stop`.
- `StreamingAsr`: `OtosakuStreamingASR`.

Each imperative method is proved against a specification function, mostly
pure:
- `RunLayers`, `Advance`, `Forward` and `Stepped` for the encoder;
- `Collapse` and `DecodeStep` for the decoder;
- `NextWindow` and `Padded` for the scheduler;
- `RemoveAt` for the queue.

The properties are then lemmas about those functions.

Four behaviours of the code that the model states outright:
- **Provisional text is not a function of the histories alone.**
  `tmpLastIdx` carries over from one provisional pass to the next, so two
  sessions that reach the same (480 ms history, 80 ms history) pair can return
  different provisional text.
  `CtcDecoding.ProvisionalDependsOnCarriedCursor` exhibits two such sessions.
- **`stop` clears nothing.** It pads the buffer and extracts features from it,
  but leaves the buffer padded and the counters as they were.
- **`predictChunk` updates the buffer and counters before extracting.** When
  `processChunk` then throws, the window is already consumed: the buffer and
  counters keep their new values.
- **`reset` replaces the states.** The encoder's `reset` does not zero its
  states in place. It builds two new `State()` values, each with a fresh,
  unshared `processed_length` cell.

## Model

| member | source | states |
|---|---|---|
| MultiArrays.Filled | Sources/OtosakuStreamingASR/Extensions/MLMultiArray+Extensions.swift:12-14 | the contents after every element is set to `v`: same count, every element equal to `v` |
| MultiArrays.FilledForgetsContents | Sources/OtosakuStreamingASR/Extensions/MLMultiArray+Extensions.swift:12-14 | the result of a fill depends only on the element count, not on the old contents |
| MultiArrays.FilledIdempotent | Sources/OtosakuStreamingASR/Extensions/MLMultiArray+Extensions.swift:12-14 | filling twice with the same value equals filling once |
| MultiArrays.FilledLastWins | Sources/OtosakuStreamingASR/Extensions/MLMultiArray+Extensions.swift:12-14 | `fill(a)` then `fill(b)` equals `fill(b)` |
| MultiArrays.MultiArray.constructor | Sources/OtosakuStreamingASR/Models/State.swift:18-20 | a new multi-array of the given shape, holding a fresh buffer of exactly `count` = product-of-shape elements |
| MultiArrays.MultiArray.Fill | Sources/OtosakuStreamingASR/Extensions/MLMultiArray+Extensions.swift:11-15 | in place, each of the `count` elements becomes `value`; shape and count are constant and nothing but the buffer is written |
| MultiArrays.ZeroTensor | Sources/OtosakuStreamingASR/Models/State.swift:18-24 | allocate then `fill(value: 0)` yields a tensor of exactly that shape and count whose elements are all zero |
| ArrayExtensions.Zeros | Sources/OtosakuStreamingASR/Extensions/Array+Extensions.swift.swift:11-19 | exactly `length` elements, all zero (so `length: 0` is empty); a negative length is excluded because `0..<length` traps |
| EncoderState.NewLayerState | Sources/OtosakuStreamingASR/Models/State.swift:17-25 | `k` and `v` are zero tensors of shape [1,8,70,64], `conv` a zero tensor of shape [1,512,8] |
| EncoderState.NewState | Sources/OtosakuStreamingASR/Models/State.swift:39-52 | zero pre-encoder states of shapes [1,1,2,80], [1,256,2,41] and [1,256,2,21]; exactly 17 zeroed layer states; `processed = 0`; a newly allocated `processed_length` cell of shape [1] holding 0 |
| EncoderState.Stepped | Sources/OtosakuStreamingASR/Models/State.swift:54-57 | `step(size)` adds `size` to `processed`; every other field, including the layer and pre-encoder states and the cell reference, is unchanged |
| EncoderState.SteppedAccumulates | Sources/OtosakuStreamingASR/Models/State.swift:54-57 | `step(a)` followed by `step(b)` equals `step(a + b)` |
| EncoderState.Step | Sources/OtosakuStreamingASR/Models/State.swift:54-57 | the new state value is `Stepped(s, size)`, and the shared `processed_length` cell is filled in place with the new total |
| Encoder.RunLayers | Sources/OtosakuStreamingASR/Models/ConformerEncoder.swift:86-94 | running the first `n` layers keeps the number of layer slots and leaves every slot from `n` on untouched |
| Encoder.RunLayersSlot | Sources/OtosakuStreamingASR/Models/ConformerEncoder.swift:86-94 | when the layers succeed, each layer `j` ran on the previous layer's output and the original slot `j`, slot `j` holds exactly what layer `j` returned, and the result is the last layer's output |
| Encoder.RunLayersFailurePropagates | Sources/OtosakuStreamingASR/Models/ConformerEncoder.swift:88-94 | once a layer throws, the whole run fails with that error |
| Encoder.ConformerEncoder.constructor | Sources/OtosakuStreamingASR/Models/ConformerEncoder.swift:25-47 | the given sub-models and embeddings are stored; both stored states start as `State()` and do not share their cells |
| Encoder.ConformerEncoder.Advance | Sources/OtosakuStreamingASR/Models/ConformerEncoder.swift:79-94 | the pre-encoder and the layers leave `processed`, the cell reference and the number of layer states as they were |
| Encoder.ConformerEncoder.Forward | Sources/OtosakuStreamingASR/Models/ConformerEncoder.swift:62-96 | a frame count other than 16, 56 or 112 fails with `unexpectedFeatShape` of that count, before any sub-model call; on success the frame count was known and the new state's `processed` is the selected state's plus the frame count, with the same cell |
| Encoder.ConformerEncoder.SelectionByFrames | Sources/OtosakuStreamingASR/Models/ConformerEncoder.swift:62-77 | 16 frames read the short-term state with the 80 ms mask model and embedding; 56 frames the long-term state with the 480 ms ones; 112 frames the long-term state with the 1040 ms ones |
| Encoder.ConformerEncoder.Expected | Sources/OtosakuStreamingASR/Models/ConformerEncoder.swift:55-108 | what `predict` computes from the stored states: an unknown frame count fails with `unexpectedFeatShape`; on success the state to write back is the state selected for that frame count, stepped by the frame count, with the same cell and 17 layer states |
| Encoder.ConformerEncoder.RunAllLayers | Sources/OtosakuStreamingASR/Models/ConformerEncoder.swift:86-94 | the layer loop computes exactly `RunLayers` over all 17 layers |
| Encoder.ConformerEncoder.RunAdvance | Sources/OtosakuStreamingASR/Models/ConformerEncoder.swift:79-94 | the pre-encoder and layer loop compute exactly `Advance`; the output has rank at least 2 when the layers produce such outputs |
| Encoder.ConformerEncoder.StepAndStore | Sources/OtosakuStreamingASR/Models/ConformerEncoder.swift:96-105 | after `step`, 112 frames store the new state in both fields, while 16 and 56 frames store it only in the short-term field; any non-16 window leaves both fields sharing the cell |
| Encoder.ConformerEncoder.Predict | Sources/OtosakuStreamingASR/Models/ConformerEncoder.swift:55-108 | it fails exactly when `Expected` fails, with the same error, and then changes neither field nor either cell; on success it returns the last layer's output, the short-term state becomes the new state, and the long-term state does so only for 112 frames; once the states share a cell, a later call leaves the long-term cell holding the short-term total |
| Encoder.ConformerEncoder.Reset | Sources/OtosakuStreamingASR/Models/ConformerEncoder.swift:50-53 | both states are replaced by fresh `State()` values, zeroed, with new unshared cells |
| CtcDecoding.Render | Sources/OtosakuStreamingASR/Models/Decoder.swift:62-63 | same length as the token, with every "▁" replaced by a space and every other character kept |
| CtcDecoding.Emit | Sources/OtosakuStreamingASR/Models/Decoder.swift:55-65 | one index of the loop: the cursor always ends on that index, and the text only grows (a repeat of the cursor or a blank adds nothing, any other index appends its rendered token) |
| CtcDecoding.Collapse | Sources/OtosakuStreamingASR/Models/Decoder.swift:54-66 | the cursor after a collapse is the path's last index, or the old cursor for an empty path |
| CtcDecoding.UpdateHistories | Sources/OtosakuStreamingASR/Models/Decoder.swift:43-51 | the history update touches neither cursor nor the committed text, adds at most the path to the histories, and leaves everything as it is for a step count other than 2, 7 or 14 |
| CtcDecoding.CollapseAppend | Sources/OtosakuStreamingASR/Models/Decoder.swift:54-66 | collapsing `a + b` equals collapsing `a`, then collapsing `b` from the cursor `a` left; this is why the persisted cursor collapses repeats across calls |
| CtcDecoding.CollapseAllBlank | Sources/OtosakuStreamingASR/Models/Decoder.swift:58-61 | a path made only of blanks (1024) emits no text |
| CtcDecoding.CollapseRun | Sources/OtosakuStreamingASR/Models/Decoder.swift:55-65 | a run of one non-blank index emits its rendered token once, or nothing when the cursor already holds that index, and leaves the cursor on it |
| CtcDecoding.DecodeStep | Sources/OtosakuStreamingASR/Models/Decoder.swift:33-86 | a decoding step keeps every history index a blank or a valid vocabulary index |
| CtcDecoding.HistoriesByWindow | Sources/OtosakuStreamingASR/Models/Decoder.swift:43-51 | 14 steps clear both histories; 7 steps append the path to the 480 ms history and clear the 80 ms one; 2 steps append the path to the 80 ms history only |
| CtcDecoding.CommittedOnlyGrows | Sources/OtosakuStreamingASR/Models/Decoder.swift:53-67 | the old committed text is a prefix of the new one; calls other than 14-step ones leave the committed text and `lastIdx` unchanged |
| CtcDecoding.LongWindowCommits | Sources/OtosakuStreamingASR/Models/Decoder.swift:53-67 | a 14-step call appends the collapse of its path from `lastIdx` and moves `lastIdx` to where that collapse ends; it sets `tmpLastIdx = lastIdx` and returns exactly the committed text |
| CtcDecoding.ProvisionalWindow | Sources/OtosakuStreamingASR/Models/Decoder.swift:68-85 | any other call returns the committed text followed by the collapse of the 480 ms history then the 80 ms history, starting from the carried `tmpLastIdx`, and leaves `tmpLastIdx` where that collapse ends |
| CtcDecoding.BlankPathCommitsNothing | Sources/OtosakuStreamingASR/Models/Decoder.swift:58-61 | a call on an all-blank path never changes the committed text |
| CtcDecoding.RunCalls | Sources/OtosakuStreamingASR/Models/Decoder.swift:33-86 | a session of calls keeps every history index renderable |
| CtcDecoding.SessionCommits | Sources/OtosakuStreamingASR/Models/Decoder.swift:53-67 | over any session, the committed text grows by exactly the collapse of the concatenated 14-step paths; the interleaved 7- and 2-step calls have no effect on it or on `lastIdx` |
| CtcDecoding.SessionWithShortCall | Sources/OtosakuStreamingASR/Models/Decoder.swift:43-85 | a concrete session: seven steps on index 5, two on index 3, then seven blanks; it returns token 5 |
| CtcDecoding.SessionWithoutShortCall | Sources/OtosakuStreamingASR/Models/Decoder.swift:43-85 | a concrete session: seven steps on index 5, then seven blanks; it returns "" |
| CtcDecoding.ProvisionalDependsOnCarriedCursor | Sources/OtosakuStreamingASR/Models/Decoder.swift:69-81 | two sessions reach the same pair of histories but return different text, because `tmpLastIdx` carries over |
| CtcDecoding.ModelDecoder.constructor | Sources/OtosakuStreamingASR/Models/Decoder.swift:20-31 | a new decoder starts with both cursors at -1, empty committed text and empty histories |
| CtcDecoding.ModelDecoder.DecodeCtc | Sources/OtosakuStreamingASR/Models/Decoder.swift:33-86 | the new decoder state and the returned text are exactly `DecodeStep` on the encoder's step count and best path |
| CtcDecoding.ModelDecoder.CommitPath | Sources/OtosakuStreamingASR/Models/Decoder.swift:54-66 | the committing loop appends `Collapse(path, lastIdx)` to the committed text and leaves `lastIdx` at the collapse's cursor |
| CtcDecoding.ModelDecoder.CollapseHistories | Sources/OtosakuStreamingASR/Models/Decoder.swift:69-81 | the provisional loop returns the collapse of the 480 ms history then the 80 ms history from `tmpLastIdx`, and moves only `tmpLastIdx` |
| CtcDecoding.ModelDecoder.Reset | Sources/OtosakuStreamingASR/Models/Decoder.swift:88-94 | both cursors go back to -1 and the committed text and histories are emptied, so repeating it changes nothing |
| Fifo.RemoveAt | Sources/OtosakuStreamingASR/OtosakuStreamingASR.swift:35-38 | an out-of-range index gives nil and the items unchanged; otherwise it gives the element, and putting it back at that index restores the items |
| Fifo.RemoveAtKeepsElements | Sources/OtosakuStreamingASR/OtosakuStreamingASR.swift:35-38 | removing an element loses nothing else: the removed element plus the rest are the original multiset |
| Fifo.ThreadSafeArray.constructor | Sources/OtosakuStreamingASR/OtosakuStreamingASR.swift:21-23 | the array starts with the given items |
| Fifo.ThreadSafeArray.Get | Sources/OtosakuStreamingASR/OtosakuStreamingASR.swift:27-29 | returns the current items without changing them |
| Fifo.ThreadSafeArray.Append | Sources/OtosakuStreamingASR/OtosakuStreamingASR.swift:31-33 | the item is added at the end |
| Fifo.ThreadSafeArray.Remove | Sources/OtosakuStreamingASR/OtosakuStreamingASR.swift:35-38 | the result and the new items are exactly `RemoveAt` of the old items |
| Fifo.ThreadSafeArray.Contains | Sources/OtosakuStreamingASR/OtosakuStreamingASR.swift:40-42 | true exactly when some position holds the item |
| Fifo.ThreadSafeArray.Count | Sources/OtosakuStreamingASR/OtosakuStreamingASR.swift:44-46 | the number of items |
| Fifo.ThreadSafeArray.Clear | Sources/OtosakuStreamingASR/OtosakuStreamingASR.swift:48-50 | no items remain |
| Fifo.FifoOrder | Sources/OtosakuStreamingASR/OtosakuStreamingASR.swift:144-150 | with `append` and `remove(at: 0)`, the dequeued items followed by those still queued are the initial queue followed by everything appended, in append order |
| Windows.NextWindow | Sources/OtosakuStreamingASR/OtosakuStreamingASR.swift:81-99 | each call takes exactly one window, by the priority long ≥ 17919, then medium ≥ (count480+1)·8959, then short, and the chunk has that window's size; a long window is the first 17919 samples and is removed, the rest keeping their order; a medium or short window leaves the buffer unchanged and ends exactly at the new read offset, which stays within the buffer |
| Windows.ScalePriority | Sources/OtosakuStreamingASR/OtosakuStreamingASR.swift:83-99 | a long window exactly when at least 17919 samples are buffered; a medium one exactly when fewer are, but at least (count480+1)·8959; a short one otherwise; `count80` never affects the choice |
| Windows.TakeWindow | Sources/OtosakuStreamingASR/OtosakuStreamingASR.swift:81-99 | the branching slice-and-count code of `predictChunk` takes exactly the window `NextWindow` describes: same chunk, remaining buffer and counters |
| Windows.CounterUpdates | Sources/OtosakuStreamingASR/OtosakuStreamingASR.swift:83-99 | a long window zeroes both counters; a medium one increments `count480` and zeroes `count80`; a short one increments `count80` only |
| Windows.WindowStarts | Sources/OtosakuStreamingASR/OtosakuStreamingASR.swift:83-99 | the medium chunk is `buffer[count480·8959 ..< count480·8959+8959]`; the short chunk is the 2559 samples from `count480·8959 + count80·2559` |
| Windows.ChunkFitsAfterAppend | Sources/OtosakuStreamingASR/OtosakuStreamingASR.swift:81-99 | when the read offset is within the buffer and the raw chunk has at least 2559 samples, the slice of the next call is in bounds |
| Windows.BufferStaysBelowLong | Sources/OtosakuStreamingASR/OtosakuStreamingASR.swift:81-87 | a buffer below 17919 samples stays below it after a call with at most 17919 new samples, which is what `stop` needs |
| Windows.Feed | Sources/OtosakuStreamingASR/OtosakuStreamingASR.swift:81-99 | one call on an in-bounds scheduler state with at least 2559 new samples leaves the read offset within the buffer |
| Windows.Schedule | Sources/OtosakuStreamingASR/OtosakuStreamingASR.swift:77-99 | a whole run of calls, each with at least 2559 samples, keeps every slice in bounds, taking one window per call |
| Windows.FeedShort | Sources/OtosakuStreamingASR/OtosakuStreamingASR.swift:81-99 | with exactly 2559 new samples, the scale, the buffer length and the counters depend only on the old length and counters |
| Windows.EmptyStartSchedule | Sources/OtosakuStreamingASR/OtosakuStreamingASR.swift:77-99 | from an empty buffer, eight 2559-sample calls take short, short, short, medium, short, short, short, long windows, leaving 2553 samples and zero counters |
| Windows.OneLongBlock | Sources/OtosakuStreamingASR/OtosakuStreamingASR.swift:83-87 | a single 17919-sample call on an empty buffer takes it all as one long window, leaving nothing and both counters at 0 |
| Windows.SmallInputOnlyShort | Sources/OtosakuStreamingASR/OtosakuStreamingASR.swift:83-99 | while fewer than 8959 samples have been submitted and no medium window taken, every call takes a short window |
| Windows.Padded | Sources/OtosakuStreamingASR/OtosakuStreamingASR.swift:112-116 | `stop` pads with zeros to exactly 8959 samples when the buffer holds at most that many, otherwise to 17919, with the original samples as prefix |
| Windows.PaddedIdempotent | Sources/OtosakuStreamingASR/OtosakuStreamingASR.swift:112-116 | a second `stop` adds no further padding |
| StreamingAsr.OtosakuStreamingASR.constructor | Sources/OtosakuStreamingASR/OtosakuStreamingASR.swift:63-75 | nothing is loaded, the buffer and the feature queue are empty, and both counters are 0 |
| StreamingAsr.OtosakuStreamingASR.PrepareModel | Sources/OtosakuStreamingASR/OtosakuStreamingASR.swift:121-127 | the extractor, the encoder and the decoder are assigned in that order, and the first load that throws ends the call, keeping those already assigned; it succeeds exactly when all three load |
| StreamingAsr.OtosakuStreamingASR.PredictChunk | Sources/OtosakuStreamingASR/OtosakuStreamingASR.swift:77-104 | without all three components it throws `modelDoesNotLoaded` before appending, so the buffer and counters are unchanged; otherwise the buffer and counters become exactly `NextWindow` of the appended buffer, and the result is the extractor's output on that window's chunk (its throw arrives after the update) |
| StreamingAsr.OtosakuStreamingASR.Stop | Sources/OtosakuStreamingASR/OtosakuStreamingASR.swift:106-119 | without all three components it throws `modelDoesNotLoaded` and changes nothing; otherwise the buffer becomes `Padded(buffer)`, the counters are untouched, and the features of the whole padded buffer are returned |
| StreamingAsr.OtosakuStreamingASR.Reset | Sources/OtosakuStreamingASR/OtosakuStreamingASR.swift:130-136 | both encoder states become fresh zero states and the decoder returns to its initial state; the buffer is empty and both counters are 0; the feature queue is untouched |
| StreamingAsr.OtosakuStreamingASR.Recognition | Sources/OtosakuStreamingASR/OtosakuStreamingASR.swift:165-177 | without an encoder or a decoder the text is ""; when `predict` throws, the decoder state is kept and the text is ""; the committed text never shrinks, and any non-empty text starts with the new committed text |
| StreamingAsr.OtosakuStreamingASR.EncoderAfter | Sources/OtosakuStreamingASR/Models/ConformerEncoder.swift:96-105 | after `extractFeature`, a successful `predict` leaves the short-term slot holding the selected state stepped by the frame count (same cell), and the long-term slot holding the same state only for 112 frames; without the decoder or on a throw both slots stay as they were |
| StreamingAsr.OtosakuStreamingASR.ExtractFeature | Sources/OtosakuStreamingASR/OtosakuStreamingASR.swift:165-177 | without an encoder or a decoder, or when the encoder throws, the text is "", the decoder is unchanged, and the encoder's two stored states and both cells' contents are unchanged; otherwise the text and the new decoder state are one `decode_ctc` step on the encoder's output, and the encoder's stored states are `predict`'s write-back (`EncoderAfter`) |
| StreamingAsr.OtosakuStreamingASR.ProcessQueue | Sources/OtosakuStreamingASR/OtosakuStreamingASR.swift:149-153 | an empty queue delivers nothing and changes nothing; otherwise the feature at index 0 is removed, its recognition is delivered, the decoder takes the recognition's state and the encoder's stored states become `EncoderAfter` of that feature, with both cells untouched when the encode does not happen |
| StreamingAsr.OtosakuStreamingASR.AddToQueue | Sources/OtosakuStreamingASR/OtosakuStreamingASR.swift:144-147 | the feature is appended, then the oldest queued feature is removed and its recognition delivered, with the decoder and the encoder's stored states updated as `ProcessQueue` states |

## Left out

- The example app (SwiftUI, audio capture and resampling, permissions, model download and unzip) is UI and I/O.
- `Layers.swift` wraps CoreML predictions. The pre-encoder, the masks, the layers and `OtosakuFeatureExtractor.processChunk` are function values that may fail; the CTC model is a total function value (its `try!` crash path is left out, below).
- Loading from a directory is file I/O. This covers the sub-models, `loadPosEmb` with its header skip and float decoding, and `readTokens` with its trimming. The loaded components, embeddings and vocabulary are parameters.
- Concurrency is not modelled: the `Task` spawned per chunk, the actor isolation of `ThreadSafeArray`, `withCheckedContinuation` and the `DispatchQueue`. `PredictChunk` and `Stop` return the features their task would enqueue; `AddToQueue` and `ProcessQueue` are called one after the other.
- `subscribe` and the listener are not modelled; `ProcessQueue` returns the text the listener would receive.
- The `print` logging in `extractFeature` is output only.
- Encoder.ConformerEncoder.Predict: `scaleTensor`'s in-place multiply by √512 is not modelled, because it is floating-point arithmetic on the pre-encoder output; layer 0 receives the pre-encoder output as is.
- EncoderState.Stepped: `processed` is an unbounded integer, while the source uses `Float32`. This is exact for the frame counts 16, 56 and 112 until the total passes 2^24 frames.
- Strings (tokens, transcripts) are sequences of Unicode scalar characters. `Render` replaces the character "▁" one scalar at a time, whereas the source's Foundation `replacingOccurrences(of:with:)` works on `NSString`; the two agree on the vocabulary's strings, but normalisation and UTF-16 details are not modelled.
- Sample values (`Double`), tensor elements (`Float32`) and the `NSNumber` shape comparisons are `real` and `int`.
- Tensors that the source only ever reassigns are values. Only `processed_length`, which is filled in place and shared, is a heap object.
- CtcDecoding.ModelDecoder.DecodeCtc: requires every index of the best path to be the blank or inside the vocabulary. The source traps only on an index it actually renders, so for example a -1 arriving while the cursor is -1 would be skipped without a trap.
- CtcDecoding.ModelDecoder.DecodeCtc: the conversion of the CTC model's `bestPath` multi-array into `[Int]` (Decoder.swift lines 35-39) and the `try!` on that call are not modelled. The CTC function value returns the path directly.
- StreamingAsr.OtosakuStreamingASR.PredictChunk: when the models are loaded, it requires the short-window slice to be in bounds, because the source traps there. `Windows.ChunkFitsAfterAppend` shows that chunks of at least 2559 samples always meet this.
- StreamingAsr.OtosakuStreamingASR.Stop: when the models are loaded, it requires at most 17919 buffered samples, because `zeros(length:)` traps on a negative length. `Windows.BufferStaysBelowLong` shows when this holds.
- StreamingAsr.OtosakuStreamingASR.ExtractFeature: relies on three assumptions about the foreign models, stated in `Valid`. The extractor's and the layers' outputs have rank at least 2, and the CTC model's paths stay inside the vocabulary. The source would trap on `shape[1]` or `tokens[i]` otherwise.
