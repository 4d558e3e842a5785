/** What each term of the breakdown is worth: the weights all ranks carry between them, what one more sequence or token adds,
    and what the buffers come to. */
module MemoryFigures {
  import opened Numbers
  import opened Contracts
  import opened Kv
  import opened Memory

  // ----- weights

  /** Nothing is lost between the shardable and the replicated bytes: together they are every parameter at its price, or the
      measured total where there is one, unless the vision tower alone is worth more. */
  lemma WholeModel(gate: Calculator, shape: ModelShape, weightBytes: Option<int>)
    requires gate.CanPrice(shape) && PositivePrices(gate.prices)
    ensures var price := gate.prices[shape.dtype];
      var vision := if shape.visionParams <= 0 then 0 else if shape.totalParams < shape.visionParams then shape.totalParams
                    else shape.visionParams;
      && gate.ReplicatedBytes(shape) == vision as real * price
      && gate.ShardableBytes(shape, weightBytes) + gate.ReplicatedBytes(shape)
         == if weightBytes.None? || weightBytes.value <= 0 then shape.totalParams as real * price
            else if weightBytes.value as real < gate.ReplicatedBytes(shape) then gate.ReplicatedBytes(shape)
            else weightBytes.value as real
  {
    hide OrderPriced;
    var v, rest := shape.Vision(), shape.totalParams - shape.Vision();
    SplitsUp(v, rest, gate.BytesPerParam(shape));
  }

  lemma SplitsUp(a: int, b: int, x: real)
    ensures a as real * x + b as real * x == (a + b) as real * x
  {}

  /** One rank carries the busiest stage's layers of one tensor share: the shares of all stages' ranks never come to less than
      the shardable bytes, and come to exactly that when the stages are even. */
  lemma RanksCarryAll(gate: Calculator, shape: ModelShape, plan: ParallelismPlan, weightBytes: Option<int>)
    requires gate.CanPrice(shape) && PositivePrices(gate.prices) && 1 <= plan.tensorParallel && 1 <= plan.pipelineParallel
    ensures var share, whole := gate.WeightBytesPerRank(shape, plan, weightBytes), gate.ShardableBytes(shape, weightBytes);
      && share * plan.tensorParallel as real * shape.numLayers as real
         == whole * CeilDiv(shape.numLayers, plan.pipelineParallel) as real
      && whole <= share * plan.tensorParallel as real * plan.pipelineParallel as real
      && (shape.numLayers % plan.pipelineParallel == 0 ==>
            share * plan.tensorParallel as real * plan.pipelineParallel as real == whole)
  {
    hide Calculator.WeightBytesPerRank, Calculator.ShardableBytes, StageFraction, OrderPriced, CeilDiv, Calculator.BytesPerParam;
    ShardableNonneg(gate, shape, weightBytes);
    StageIs(shape.numLayers, plan.pipelineParallel);
    StageFractionRange(shape.numLayers, plan.pipelineParallel);
    ShareIs(gate, shape, plan, weightBytes);
    CarryAll(gate.WeightBytesPerRank(shape, plan, weightBytes), gate.ShardableBytes(shape, weightBytes),
             StageFraction(shape.numLayers, plan.pipelineParallel), plan.tensorParallel as real, plan.pipelineParallel as real,
             shape.numLayers as real, CeilDiv(shape.numLayers, plan.pipelineParallel) as real);
  }

  lemma ShareIs(gate: Calculator, shape: ModelShape, plan: ParallelismPlan, weightBytes: Option<int>)
    requires gate.CanPrice(shape) && 1 <= plan.tensorParallel
    ensures gate.WeightBytesPerRank(shape, plan, weightBytes) * plan.tensorParallel as real
      == gate.ShardableBytes(shape, weightBytes) * StageFraction(shape.numLayers, plan.pipelineParallel)
  {
    hide Calculator.ShardableBytes, StageFraction, OrderPriced;
    Quotient(gate.ShardableBytes(shape, weightBytes) * StageFraction(shape.numLayers, plan.pipelineParallel), plan.Tp() as real);
  }

  lemma StageIs(layers: nat, stages: int)
    requires 1 <= layers && 1 <= stages
    ensures StageFraction(layers, stages) * layers as real == CeilDiv(layers, stages) as real
    ensures layers % stages == 0 ==> StageFraction(layers, stages) * stages as real == 1.0
  {
    if 1 < stages {
      Quotient(CeilDiv(layers, stages) as real, layers as real);
      if layers % stages == 0 {
        EvenStages(layers, stages);
        EvenShare(StageFraction(layers, stages), CeilDiv(layers, stages), layers, stages);
      }
    }
  }

  lemma Quotient(x: real, y: real)
    requires y != 0.0
    ensures x / y * y == x
  {}

  lemma EvenStages(layers: nat, stages: nat)
    requires 1 <= stages && layers % stages == 0
    ensures CeilDiv(layers, stages) * stages == layers
  {
    CeilDivRange(layers, stages);
    var c, q := CeilDiv(layers, stages), layers / stages;
    assert q * stages == layers;
    if c < q {
      IntMulMono(c + 1, q, stages);
      Distribute(c, 1, stages);
    } else if q < c {
      IntMulMono(q + 1, c, stages);
      Distribute(q, 1, stages);
    }
  }

  lemma EvenShare(f: real, c: nat, layers: nat, stages: nat)
    requires 1 <= layers && f * layers as real == c as real && c * stages == layers
    ensures f * stages as real == 1.0
  {
    assert f * stages as real * layers as real == c as real * stages as real;
    assert c as real * stages as real == layers as real;
    assert (f * stages as real - 1.0) * layers as real == 0.0;
  }

  lemma CarryAll(share: real, whole: real, f: real, t: real, p: real, layers: real, busiest: real)
    requires 0.0 <= whole && share * t == whole * f && f * layers == busiest && 1.0 <= f * p
    ensures share * t * layers == whole * busiest
    ensures whole <= share * t * p
    ensures f * p == 1.0 ==> share * t * p == whole
  {
    assert share * t * layers == whole * (f * layers);
    assert share * t * p == whole * (f * p);
    MulMono(1.0, f * p, whole);
  }

  // ----- activations

  /** Four bytes of every word of the vocabulary for each sequence, and twenty-four of every hidden unit for each token of a
      chunk that never passes the context. */
  lemma ActivationSteps(shape: ModelShape, seqs: int, context: int, chunk: int)
    ensures ActivationBytes(shape, 1, 1, chunk) == 4 * shape.vocabSize + 24 * shape.hiddenSize
    ensures ActivationBytes(shape, 1, context, 1) == 4 * shape.vocabSize + 24 * shape.hiddenSize
    ensures ActivationBytes(shape, seqs + 1, context, chunk) - ActivationBytes(shape, seqs, context, chunk)
      == if 1 <= seqs then 4 * shape.vocabSize else 0
    ensures ActivationBytes(shape, seqs, context + 1, chunk) - ActivationBytes(shape, seqs, context, chunk)
      == if 1 <= context < chunk then 24 * shape.hiddenSize else 0
    ensures ActivationBytes(shape, seqs, context, chunk + 1) - ActivationBytes(shape, seqs, context, chunk)
      == if 1 <= chunk < context then 24 * shape.hiddenSize else 0
  {
    Distribute(Max(1, seqs), 1, shape.vocabSize);
    Distribute(Min(Max(1, chunk), Max(1, context)), 1, shape.hiddenSize);
  }

  // ----- buffers and the sum

  /** A gibibyte and a half of staging as soon as ranks talk to each other, two more for experts, and a gibibyte of the
      framework always. */
  lemma BuffersAre(plan: ParallelismPlan)
    ensures CommBufferBytes(plan) == 1610612736 * (if 1 < plan.WorldSize() || 1 < plan.expertParallel then 1 else 0)
                                     + 2147483648 * (if 1 < plan.expertParallel then 1 else 0)
    ensures plan.WorldSize() == plan.tensorParallel * plan.pipelineParallel * plan.dataParallel
  {}

  /** Whole bytes of an amount. */
  predicate WholeOf(n: int, amount: real) { n as real <= amount < n as real + 1.0 }

  /** The gate charges one rank the whole bytes of its weights, of its cache and of what is replicated, the activations at the
      gate's own prefill chunk, and the buffers. */
  lemma BreakdownIs(gate: Calculator, req: FitRequest)
    requires gate.CanPrice(req.shape) && PositivePrices(gate.prices)
    ensures var b := gate.BreakdownOf(req);
      && WholeOf(b.weights, gate.WeightBytesPerRank(req.shape, req.plan, req.weightBytes))
      && WholeOf(b.kvCache, KvShare(req)) && WholeOf(b.replicated, gate.ReplicatedBytes(req.shape))
      && b.activations == ActivationBytes(req.shape, req.seqs, req.context, gate.chunkTokens)
      && b.commBuffers == CommBufferBytes(req.plan) && b.framework == 1073741824
      && gate.Total(req) == b.weights + b.kvCache + b.activations + b.commBuffers + b.replicated + b.framework
  {
    ShareNotNegative(gate, req);
    KvShareMono(req, req);
    ShardableNonneg(gate, req.shape, req.weightBytes);
    hide Calculator.WeightBytesPerRank, KvShare, Calculator.ReplicatedBytes, ActivationBytes, CommBufferBytes;
    TruncWhole(gate.WeightBytesPerRank(req.shape, req.plan, req.weightBytes));
    TruncWhole(KvShare(req));
    TruncWhole(gate.ReplicatedBytes(req.shape));
  }

  lemma TruncWhole(x: real)
    requires 0.0 <= x
    ensures WholeOf(Trunc(x), x)
  {}

  lemma ShareNotNegative(gate: Calculator, req: FitRequest)
    requires gate.CanPrice(req.shape) && PositivePrices(gate.prices)
    ensures 0.0 <= gate.WeightBytesPerRank(req.shape, req.plan, req.weightBytes)
  {
    hide StageFraction, Calculator.ShardableBytes, OrderPriced;
    ShardableNonneg(gate, req.shape, req.weightBytes);
    StageFractionRange(req.shape.numLayers, req.plan.pipelineParallel);
    ShareNonneg(gate.ShardableBytes(req.shape, req.weightBytes), StageFraction(req.shape.numLayers, req.plan.pipelineParallel),
                req.plan.Tp() as real);
  }
}
