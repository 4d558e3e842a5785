/** Per-rank memory: the six terms of the launch gate, and how they move with context, concurrency
    and sharding. */
module Memory {
  import opened Numbers
  import opened Contracts
  import opened Kv

  const COMM_BUFFER_BYTES: int := 1610612736
  const EP_EXTRA_BUFFER_BYTES: int := 2147483648
  const FRAMEWORK_OVERHEAD: int := 1073741824
  const ACTIVATION_CHUNK_TOKENS: int := 2048
  const DECODE_EFFICIENCY: real := 0.55

  /** Quantizations the gate is willing to suggest, best quality first. */
  const QUANT_SUGGESTION_ORDER: seq<string> := [
    "fp32", "bf16", "fp16", "q8_0", "fp8", "q6_k", "q5_k_m", "q4_k_m", "nvfp4", "mxfp4", "q3_k_m", "q2_k"]

  /** Every scheme the gate may suggest has a price. */
  predicate OrderPriced(prices: Prices, order: seq<string>) {
    forall i :: 0 <= i < |order| ==> order[i] in prices
  }

  /** The figures the source gives the names of the quality order. */
  function OrderPrices(): (prices: Prices)
    ensures OrderPriced(prices, QUANT_SUGGESTION_ORDER) && PositivePrices(prices)
  {
    map["fp32" := 4.0, "bf16" := 2.0, "fp16" := 2.0, "q8_0" := 1.0625, "fp8" := 1.0, "q6_k" := 0.82, "q5_k_m" := 0.711,
        "q4_k_m" := 0.6125, "nvfp4" := 0.5625, "mxfp4" := 0.53125, "q3_k_m" := 0.456, "q2_k" := 0.329]
  }

  /** The calculator's fixed settings, and the table it prices parameters from. */
  datatype Calculator = Calculator(guardrail: real, chunkTokens: int, prices: Prices)
  {
    /** What pricing a request needs; anything else makes the source raise. */
    predicate CanPrice(shape: ModelShape) {
      shape.WellFormed() && shape.dtype in prices && OrderPriced(prices, QUANT_SUGGESTION_ORDER)
    }

    function BytesPerParam(shape: ModelShape): real
      requires CanPrice(shape)
    {
      prices[shape.dtype]
    }

    /** A measured total wins over the dtype formula; vision weights come out of the shardable pool. */
    function ShardableBytes(shape: ModelShape, weightBytes: Option<int>): real
      requires CanPrice(shape)
    {
      var visionBytes := shape.Vision() as real * BytesPerParam(shape);
      if weightBytes.Some? && 0 < weightBytes.value then
        if weightBytes.value as real < visionBytes then 0.0 else weightBytes.value as real - visionBytes
      else (shape.totalParams - shape.Vision()) as real * BytesPerParam(shape)
    }

    function WeightBytesPerRank(shape: ModelShape, plan: ParallelismPlan, weightBytes: Option<int>): real
      requires CanPrice(shape)
    {
      ShardableBytes(shape, weightBytes) * StageFraction(shape.numLayers, plan.pipelineParallel) / plan.Tp() as real
    }

    function ReplicatedBytes(shape: ModelShape): real
      requires CanPrice(shape)
    {
      shape.Vision() as real * BytesPerParam(shape)
    }

    function BreakdownOf(req: FitRequest): Breakdown
      requires CanPrice(req.shape)
    {
      Breakdown(
        Trunc(WeightBytesPerRank(req.shape, req.plan, req.weightBytes)),
        Trunc(KvShare(req)),
        ActivationBytes(req.shape, req.seqs, req.context, chunkTokens),
        CommBufferBytes(req.plan),
        Trunc(ReplicatedBytes(req.shape)),
        FRAMEWORK_OVERHEAD)
    }

    function Total(req: FitRequest): int
      requires CanPrice(req.shape)
    {
      BreakdownOf(req).Total()
    }
  }

  /** One rank's share of the cache, before truncation. */
  function KvShare(req: FitRequest): real
    requires req.shape.WellFormed()
  {
    KvDivisorRange(req.shape, req.plan);
    KvCacheBytes(req.shape, req.context, req.seqs, req.kvDtype) / KvDivisor(req.shape, req.plan)
  }

  /** Logits for every sequence in flight plus scratch for one prefill chunk. */
  function ActivationBytes(shape: ModelShape, seqs: int, context: int, chunkTokens: int): int {
    var chunk := Min(Max(1, chunkTokens), Max(1, context));
    shape.vocabSize * Max(1, seqs) * 4 + chunk * shape.hiddenSize * 4 * 6
  }

  function CommBufferBytes(plan: ParallelismPlan): int {
    if plan.WorldSize() <= 1 && plan.expertParallel <= 1 then 0
    else COMM_BUFFER_BYTES + if 1 < plan.expertParallel then EP_EXTRA_BUFFER_BYTES else 0
  }

  /** Decode rate of one stream, bound by memory bandwidth. */
  function PredictDecodeTps(gate: Calculator, shape: ModelShape, bandwidthGbps: real, kvReadBytes: real): real
    requires gate.CanPrice(shape)
  {
    var bytes := shape.ActiveParams() as real * gate.BytesPerParam(shape) + (if 0.0 < kvReadBytes then kvReadBytes else 0.0);
    if bandwidthGbps <= 0.0 || bytes <= 0.0 then 0.0
    else bandwidthGbps * 1000000000.0 / bytes * DECODE_EFFICIENCY
  }

  lemma ActivationMono(shape: ModelShape, m: int, n: int, c: int, d: int, k: int, l: int)
    requires m <= n && c <= d && k <= l
    ensures 0 <= ActivationBytes(shape, m, c, k) <= ActivationBytes(shape, n, d, l)
  {
    IntMulMono(Max(1, m), Max(1, n), shape.vocabSize);
    IntMulMono(Min(Max(1, k), Max(1, c)), Min(Max(1, l), Max(1, d)), shape.hiddenSize);
  }

  lemma KvShareMono(a: FitRequest, b: FitRequest)
    requires a.shape.WellFormed() && b == a.(context := b.context, seqs := b.seqs)
    requires a.context <= b.context && a.seqs <= b.seqs
    ensures 0.0 <= KvShare(a) <= KvShare(b)
  {
    hide KvCacheBytes, KvDivisor;
    KvDivisorRange(a.shape, a.plan);
    KvCacheMono(a.shape, a.context, b.context, a.seqs, b.seqs, a.kvDtype);
    DivMono(KvCacheBytes(a.shape, a.context, a.seqs, a.kvDtype), KvCacheBytes(b.shape, b.context, b.seqs, b.kvDtype),
            KvDivisor(a.shape, a.plan));
  }

  /** Less context and less concurrency never need more memory, truncation and sliding windows included. */
  lemma TotalMono(gate: Calculator, a: FitRequest, b: FitRequest)
    requires gate.CanPrice(a.shape) && b == a.(context := b.context, seqs := b.seqs)
    requires a.context <= b.context && a.seqs <= b.seqs
    ensures gate.Total(a) <= gate.Total(b)
  {
    hide KvDivisor, ActivationBytes, KvShare, Calculator.WeightBytesPerRank, Calculator.ReplicatedBytes, Trunc;
    KvShareMono(a, b);
    TruncMono(KvShare(a), KvShare(b));
    ActivationMono(a.shape, a.seqs, b.seqs, a.context, b.context, gate.chunkTokens, gate.chunkTokens);
  }

  lemma ShardableNonneg(gate: Calculator, shape: ModelShape, weightBytes: Option<int>)
    requires gate.CanPrice(shape) && PositivePrices(gate.prices)
    ensures 0.0 <= gate.ShardableBytes(shape, weightBytes)
    ensures 0.0 <= gate.ReplicatedBytes(shape)
  {
    MulNonneg((shape.totalParams - shape.Vision()) as real, gate.BytesPerParam(shape));
    MulNonneg(shape.Vision() as real, gate.BytesPerParam(shape));
  }

  lemma ShareNonneg(s: real, f: real, t: real)
    requires 0.0 <= s && 0.0 < f && 0.0 < t
    ensures 0.0 <= s * f / t
  {
    MulNonneg(s, f);
    DivMono(0.0, s * f, t);
  }

  /** No term is negative. */
  lemma TermsNonneg(gate: Calculator, req: FitRequest)
    requires gate.CanPrice(req.shape) && PositivePrices(gate.prices)
    ensures var b := gate.BreakdownOf(req);
      0 <= b.weights && 0 <= b.kvCache && 0 <= b.activations && 0 <= b.commBuffers && 0 <= b.replicated && 0 < b.framework
  {
    hide StageFraction, Calculator.ShardableBytes, Calculator.ReplicatedBytes, KvShare, ActivationBytes;
    ShardableNonneg(gate, req.shape, req.weightBytes);
    StageFractionRange(req.shape.numLayers, req.plan.pipelineParallel);
    ShareNonneg(gate.ShardableBytes(req.shape, req.weightBytes), StageFraction(req.shape.numLayers, req.plan.pipelineParallel),
                req.plan.Tp() as real);
    KvShareMono(req, req);
    ActivationMono(req.shape, req.seqs, req.seqs, req.context, req.context, gate.chunkTokens, gate.chunkTokens);
  }

  /** Splitting wider, in either direction. */
  ghost predicate Wider(p: ParallelismPlan, q: ParallelismPlan) {
    && 1 <= p.tensorParallel <= q.tensorParallel && 1 <= p.pipelineParallel <= q.pipelineParallel
    && p.dataParallel == q.dataParallel == 1 && p.expertParallel == q.expertParallel
  }

  lemma WeightsShrink(s: real, f: real, g: real, t: real, u: real)
    requires 0.0 <= s && 0.0 <= g <= f && 0.0 < t <= u
    ensures s * g / u <= s * f / t
  {
    MulMono(g, f, s);
    MulNonneg(s, g);
    DivMono(s * g, s * f, t);
    DivAnti(s * g, t, u);
  }

  lemma QuotientGrows(h: real, i: real, f: real, g: real)
    requires 0.0 < h <= i && 0.0 < g <= f
    ensures 0.0 < h / f <= i / g
  {
    DivAnti(h, g, f);
    DivMono(h, i, g);
  }

  lemma KvShareShrinks(a: FitRequest, b: FitRequest)
    requires a.shape.WellFormed() && b == a.(plan := b.plan) && Wider(a.plan, b.plan)
    ensures KvShare(b) <= KvShare(a)
  {
    hide KvCacheBytes, StageFraction;
    var f, g := StageFraction(a.shape.numLayers, a.plan.pipelineParallel), StageFraction(a.shape.numLayers, b.plan.pipelineParallel);
    StageFractionAnti(a.shape.numLayers, a.plan.pipelineParallel, b.plan.pipelineParallel);
    StageFractionRange(a.shape.numLayers, b.plan.pipelineParallel);
    QuotientGrows(HeadShards(a.shape, a.plan) as real, HeadShards(a.shape, b.plan) as real, f, g);
    KvCacheMono(a.shape, a.context, a.context, a.seqs, a.seqs, a.kvDtype);
    DivAnti(KvCacheBytes(a.shape, a.context, a.seqs, a.kvDtype), KvDivisor(a.shape, a.plan), KvDivisor(a.shape, b.plan));
  }

  /** Beyond one rank, raising either degree never raises what a rank needs. */
  lemma WiderNeverCosts(gate: Calculator, a: FitRequest, b: FitRequest)
    requires gate.CanPrice(a.shape) && PositivePrices(gate.prices)
    requires b == a.(plan := b.plan) && Wider(a.plan, b.plan) && 1 < a.plan.WorldSize()
    ensures gate.Total(b) <= gate.Total(a)
  {
    hide KvDivisor, Calculator.WeightBytesPerRank, Calculator.ReplicatedBytes, KvShare, ActivationBytes, Trunc;
    PerRankShrinks(gate, a, b);
    TruncMono(gate.WeightBytesPerRank(b.shape, b.plan, b.weightBytes), gate.WeightBytesPerRank(a.shape, a.plan, a.weightBytes));
    KvShareShrinks(a, b);
    TruncMono(KvShare(b), KvShare(a));
    MoreRanks(a.plan, b.plan);
  }

  lemma PerRankShrinks(gate: Calculator, a: FitRequest, b: FitRequest)
    requires gate.CanPrice(a.shape) && PositivePrices(gate.prices) && b == a.(plan := b.plan) && Wider(a.plan, b.plan)
    ensures gate.WeightBytesPerRank(b.shape, b.plan, b.weightBytes) <= gate.WeightBytesPerRank(a.shape, a.plan, a.weightBytes)
  {
    hide StageFraction, Calculator.ShardableBytes, Calculator.ReplicatedBytes, OrderPriced;
    ShardableNonneg(gate, a.shape, a.weightBytes);
    StageFractionAnti(a.shape.numLayers, a.plan.pipelineParallel, b.plan.pipelineParallel);
    StageFractionRange(a.shape.numLayers, b.plan.pipelineParallel);
    WeightsShrink(gate.ShardableBytes(a.shape, a.weightBytes),
                  StageFraction(a.shape.numLayers, a.plan.pipelineParallel),
                  StageFraction(a.shape.numLayers, b.plan.pipelineParallel), a.plan.Tp() as real, b.plan.Tp() as real);
  }

  lemma MoreRanks(p: ParallelismPlan, q: ParallelismPlan)
    requires Wider(p, q) && 1 < p.WorldSize()
    ensures 1 < q.WorldSize()
  {
    IntMulMono(p.tensorParallel, q.tensorParallel, p.pipelineParallel);
    IntMulMono(p.pipelineParallel, q.pipelineParallel, q.tensorParallel);
  }
}
