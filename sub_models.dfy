/** The CoreML sub-models the orchestration calls. Each is an opaque function
    from named input tensors to named output tensors that may fail (a missing
    output is `outputExtractionFailed`; any other engine error is
    `PredictionFailed`). Loading them from disk is outside the model. */
module SubModels {
  import opened Wrappers
  import opened MultiArrays

  datatype ModelError = OutputExtractionFailed | PredictionFailed

  /** `features`, `new_state_1`, `new_state_2`, `new_state_3`. */
  datatype PreEncoderOutput = PreEncoderOutput(features: Tensor, state1: Tensor, state2: Tensor, state3: Tensor)

  /** `features`, `new_state_k`, `new_state_v`, `new_conv_state`. */
  datatype LayerOutput = LayerOutput(out: Tensor, k: Tensor, v: Tensor, conv: Tensor)

  /** Inputs `x`, `state_1`, `state_2`, `state_3`. */
  type PreEncoder = (Tensor, Tensor, Tensor, Tensor) -> Result<PreEncoderOutput, ModelError>

  /** Input `processed_length`, output `mask`. */
  type Mask = Tensor -> Result<Tensor, ModelError>

  /** Inputs `x`, `mask`, `state_k`, `state_v`, `conv_state`, `pos_emb`. */
  type ConformerLayer = (Tensor, Tensor, Tensor, Tensor, Tensor, Tensor) -> Result<LayerOutput, ModelError>

  /** Input `enc_output`; the best path, already read out of `best_path[0, i]`. */
  type CtcDecoder = Tensor -> seq<int>
}
