/** The value types the fit gate, the capacity ladder and the gateway exchange. */
module Contracts {
  import opened Numbers

  datatype Option<+T> = None | Some(value: T)

  /** Bytes of storage per model parameter, by quantization name. */
  type Prices = map<string, real>

  ghost predicate PositivePrices(prices: Prices) {
    forall name | name in prices :: 0.0 < prices[name]
  }

  datatype ModelShape = ModelShape(
    numLayers: nat,
    hiddenSize: nat,
    numAttentionHeads: nat,
    numKvHeads: nat,
    vocabSize: nat,
    totalParams: nat,
    dtype: string,
    headDim: Option<nat>,
    activeParams: Option<nat>,
    slidingWindow: Option<nat>,
    fullAttentionLayers: Option<int>,
    mlaLatentDim: Option<nat>,
    mlaRopeDim: Option<nat>,
    visionParams: int)
  {
    /** What the arithmetic divides by is not zero. */
    predicate WellFormed() {
      1 <= numLayers && (headDim.None? ==> 1 <= numAttentionHeads)
    }

    function HeadDim(): nat
      requires WellFormed()
    {
      match headDim
      case Some(d) => d
      case None => hiddenSize / numAttentionHeads
    }

    /** Python truthiness: None and 0 both mean "not a latent-attention model". */
    predicate IsMla() { mlaLatentDim.Some? && mlaLatentDim.value != 0 }

    predicate IsWindowed() { slidingWindow.Some? && slidingWindow.value != 0 }

    /** The RoPE component cached beside the latent; 64 when the config does not say. */
    function MlaRopeDim(): nat {
      if mlaLatentDim.None? then 0
      else if mlaRopeDim.Some? then mlaRopeDim.value
      else 64
    }

    function ActiveParams(): nat {
      if activeParams.Some? then activeParams.value else totalParams
    }

    /** Vision parameters, clamped into the model. */
    function Vision(): nat { Min(Max(0, visionParams), totalParams) }
  }

  datatype ParallelismPlan = ParallelismPlan(
    tensorParallel: int,
    pipelineParallel: int,
    expertParallel: int,
    dataParallel: int,
    nodeIds: seq<string>)
  {
    function WorldSize(): int { tensorParallel * pipelineParallel * dataParallel }

    function Tp(): nat { Max(1, tensorParallel) }

    function Pp(): nat { Max(1, pipelineParallel) }
  }

  datatype NodeProfile = NodeProfile(
    nodeId: string,
    gpuCount: int,
    addressableMemory: int,
    bandwidthGbps: real)

  datatype FitRequest = FitRequest(
    shape: ModelShape,
    context: int,
    seqs: int,
    kvDtype: string,
    plan: ParallelismPlan,
    weightBytes: Option<int>,
    nativeWindow: Option<int>)

  datatype Breakdown = Breakdown(
    weights: int,
    kvCache: int,
    activations: int,
    commBuffers: int,
    replicated: int,
    framework: int)
  {
    function Total(): int {
      weights + kvCache + activations + commBuffers + replicated + framework
    }
  }
}
