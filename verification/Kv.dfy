/** Sizing of the key-value cache: what one token costs, how many tokens each layer keeps, and how
    much of the whole one rank holds. */
module Kv {
  import opened Numbers
  import opened Contracts

  /** Bytes per cached element of a cache dtype the table names. */
  function KvElemEntry(name: string): (r: Option<real>)
    ensures r.Some? ==> r.value in {1.0, 2.0, 4.0}
  {
    if name in {"fp32", "float32"} then Some(4.0)
    else if name in {"fp16", "float16", "half", "bf16", "bfloat16"} then Some(2.0)
    else if name in {"fp8", "fp8_e4m3", "fp8_e5m2", "float8", "int8", "uint8"} then Some(1.0)
    else None
  }

  /** Names that mean "follow the model's own dtype". */
  predicate IsAuto(kvDtype: string) {
    kvDtype in {"auto", "", "none", "model"}
  }

  /** An unknown name, and a model dtype no cache is stored in, are charged as bf16. */
  function KvElemBytes(kvDtype: string, modelDtype: string): (r: real)
    ensures r in {1.0, 2.0, 4.0}
  {
    var entry := KvElemEntry(if IsAuto(kvDtype) then modelDtype else kvDtype);
    if entry.Some? then entry.value else 2.0
  }

  /** One layer, one token, one sequence, before sharding. */
  function PerLayerPerToken(shape: ModelShape, kvDtype: string): real
    requires shape.WellFormed()
  {
    var elem := KvElemBytes(kvDtype, shape.dtype);
    if shape.IsMla() then (shape.mlaLatentDim.value + shape.MlaRopeDim()) as real * elem
    else (2 * shape.numKvHeads * shape.HeadDim()) as real * elem
  }

  /** The full-attention rate: every layer, one token, one sequence. */
  function KvBytesPerToken(shape: ModelShape, kvDtype: string): real
    requires shape.WellFormed()
  {
    shape.numLayers as real * PerLayerPerToken(shape, kvDtype)
  }

  /** Tokens cached, summed over layers. */
  function CachedLayerTokens(shape: ModelShape, context: int): nat {
    var c := Max(0, context);
    if shape.IsWindowed() && shape.fullAttentionLayers.Some? then
      var full: nat := Min(Max(0, shape.fullAttentionLayers.value), shape.numLayers);
      full * c + (shape.numLayers - full) * Min(shape.slidingWindow.value, c)
    else if shape.IsWindowed() then shape.numLayers * Min(shape.slidingWindow.value, c)
    else shape.numLayers * c
  }

  /** The whole model's cache, before sharding. */
  function KvCacheBytes(shape: ModelShape, context: int, batch: int, kvDtype: string): real
    requires shape.WellFormed()
  {
    PerLayerPerToken(shape, kvDtype) * CachedLayerTokens(shape, context) as real * Max(0, batch) as real
  }

  /** Fraction of the layers on the busiest pipeline stage. */
  function StageFraction(layers: nat, pipelineParallel: int): real
    requires 1 <= layers
  {
    var pp := Max(1, pipelineParallel);
    if pp <= 1 then 1.0 else CeilDiv(layers, pp) as real / layers as real
  }

  /** Tensor parallelism splits by head and cannot split past the heads; a latent is never split. */
  function HeadShards(shape: ModelShape, plan: ParallelismPlan): nat {
    if shape.IsMla() then 1 else Min(plan.Tp(), Max(1, shape.numKvHeads))
  }

  /** How much of the cache one rank holds, as a divisor. */
  function KvDivisor(shape: ModelShape, plan: ParallelismPlan): real
    requires shape.WellFormed()
  {
    StageFractionRange(shape.numLayers, plan.pipelineParallel);
    HeadShards(shape, plan) as real / StageFraction(shape.numLayers, plan.pipelineParallel)
  }

  // ----- what the formulas mean

  /** Tokens one layer keeps: the whole context below the full-attention count, the window above it. */
  function LayerTokens(shape: ModelShape, layer: nat, context: nat): nat {
    if !shape.IsWindowed() || (shape.fullAttentionLayers.Some? && layer < shape.fullAttentionLayers.value) then context
    else Min(shape.slidingWindow.value, context)
  }

  function SumLayerTokens(shape: ModelShape, layers: nat, context: nat): nat {
    if layers == 0 then 0 else SumLayerTokens(shape, layers - 1, context) + LayerTokens(shape, layers - 1, context)
  }

  /** The closed form is the sum, layer by layer, of what each layer keeps. */
  lemma CachedTokensAreLayerSum(shape: ModelShape, context: int)
    ensures CachedLayerTokens(shape, context) == SumLayerTokens(shape, shape.numLayers, Max(0, context))
  {
    SumLayerTokensClosed(shape, shape.numLayers, Max(0, context));
    CachedTokensSplit(shape, context);
  }

  lemma CachedTokensSplit(shape: ModelShape, context: int)
    ensures CachedLayerTokens(shape, context)
      == FullLayers(shape, shape.numLayers) * Max(0, context)
         + (shape.numLayers - FullLayers(shape, shape.numLayers)) * WindowTokens(shape, Max(0, context))
  {}

  /** How many of the first `layers` layers attend to everything. */
  function FullLayers(shape: ModelShape, layers: nat): nat {
    if !shape.IsWindowed() then layers
    else if shape.fullAttentionLayers.Some? then Min(Max(0, shape.fullAttentionLayers.value), layers)
    else 0
  }

  function WindowTokens(shape: ModelShape, context: nat): nat {
    if shape.IsWindowed() then Min(shape.slidingWindow.value, context) else 0
  }

  lemma {:induction false} SumLayerTokensClosed(shape: ModelShape, layers: nat, context: nat)
    ensures SumLayerTokens(shape, layers, context)
      == FullLayers(shape, layers) * context + (layers - FullLayers(shape, layers)) * WindowTokens(shape, context)
  {
    if layers != 0 {
      SumLayerTokensClosed(shape, layers - 1, context);
      var f, g := FullLayers(shape, layers - 1), FullLayers(shape, layers);
      if g == f + 1 {
        Distribute(f, 1, context);
        assert layers - 1 - f == layers - g;
      } else {
        assert g == f;
        Distribute(layers - 1 - f, 1, WindowTokens(shape, context));
      }
    }
  }

  lemma Distribute(a: int, b: int, c: int)
    ensures (a + b) * c == a * c + b * c
  {}

  /** A window only ever caps the cache, and costs nothing once it covers the context. */
  lemma WindowCaps(shape: ModelShape, context: nat)
    ensures CachedLayerTokens(shape, context) <= shape.numLayers * context
    ensures CachedLayerTokens(shape, context) == shape.numLayers * context <==>
      !shape.IsWindowed() || context <= shape.slidingWindow.value
      || FullLayers(shape, shape.numLayers) == shape.numLayers
  {
    CachedTokensSplit(shape, context);
    var full := FullLayers(shape, shape.numLayers);
    var windowed, m := shape.numLayers - full, WindowTokens(shape, context);
    Distribute(full, windowed, context);
    Shortfall(windowed, context, m);
  }

  lemma Shortfall(k: nat, c: nat, m: nat)
    requires m <= c
    ensures k * m <= k * c
    ensures k * m == k * c <==> k == 0 || m == c
  {
    if 0 < k && m < c {
      IntMulMono(1, k, c - m);
      Distribute(m, c - m, k);
    } else if m < c {
      IntMulMono(m, c, k);
    }
  }

  // ----- one token

  /** What one token takes in one layer: the latent and its position part, 64 wide when the config does not say, or a key and a
      value for each head, of the head size given or else the whole share of the hidden size. */
  lemma TokenIs(shape: ModelShape, kvDtype: string)
    requires shape.WellFormed()
    ensures match shape.mlaLatentDim
      case Some(latent) =>
        var position := match shape.mlaRopeDim case Some(d) => d case None => 64;
        latent == 0 || PerLayerPerToken(shape, kvDtype) == (latent + position) as real * KvElemBytes(kvDtype, shape.dtype)
      case None =>
        PerLayerPerToken(shape, kvDtype) == (2 * shape.numKvHeads * shape.HeadDim()) as real * KvElemBytes(kvDtype, shape.dtype)
    ensures match shape.headDim
      case Some(d) => shape.HeadDim() == d
      case None => shape.HeadDim() * shape.numAttentionHeads <= shape.hiddenSize < (shape.HeadDim() + 1) * shape.numAttentionHeads
  {
    if shape.headDim.None? {
      DivisionParts(shape.hiddenSize, shape.numAttentionHeads);
      Distribute(shape.HeadDim(), 1, shape.numAttentionHeads);
    }
    hide KvElemBytes;
  }

  // ----- ranges and monotonicity

  lemma StageFractionRange(layers: nat, pipelineParallel: int)
    requires 1 <= layers
    ensures 0.0 < StageFraction(layers, pipelineParallel) <= 1.0
    ensures 1.0 <= StageFraction(layers, pipelineParallel) * Max(1, pipelineParallel) as real
  {
    var pp := Max(1, pipelineParallel);
    if 1 < pp {
      CeilDivRange(layers, pp);
      RatioRange(CeilDiv(layers, pp), layers, pp);
    }
  }

  lemma RatioRange(c: nat, l: nat, p: nat)
    requires 1 <= c <= l <= c * p
    ensures 0.0 < c as real / l as real <= 1.0
    ensures 1.0 <= c as real / l as real * p as real
  {
    var f := c as real / l as real;
    assert f * l as real == c as real;
    assert f * p as real * l as real == (c * p) as real;
    if f * p as real < 1.0 {
      MulMono(f * p as real, 1.0, l as real);
    }
  }

  lemma CeilDivRange(a: nat, b: nat)
    requires 1 <= b
    ensures a <= CeilDiv(a, b) * b < a + b
    ensures 1 <= a ==> 1 <= CeilDiv(a, b) <= a
  {
    var c := CeilDiv(a, b);
    DivisionParts(a + b - 1, b);
    if 1 <= a < c {
      IntMulMono(a + 1, c, b);
      Distribute(a, 1, b);
      IntMulMono(1, b, a);
    }
  }

  lemma DivisionParts(x: nat, b: nat)
    requires 1 <= b
    ensures x - b < x / b * b <= x
  {
    assert x == x / b * b + x % b;
  }

  lemma CeilDivAnti(a: nat, b: nat, c: nat)
    requires 1 <= b <= c
    ensures CeilDiv(a, c) <= CeilDiv(a, b)
  {
    CeilDivRange(a, b);
    CeilDivRange(a, c);
    LeastMultiple(a, b, c, CeilDiv(a, b), CeilDiv(a, c));
  }

  lemma LeastMultiple(a: nat, b: nat, c: nat, p: nat, q: nat)
    requires 1 <= b <= c && a <= p * b && q * c < a + c
    ensures q <= p
  {
    if p < q {
      IntMulMono(p + 1, q, c);
      Distribute(p, 1, c);
      IntMulMono(b, c, p);
    }
  }

  /** More stages never put more of the model on the busiest one. */
  lemma StageFractionAnti(layers: nat, p: int, q: int)
    requires 1 <= layers && 1 <= p <= q
    ensures StageFraction(layers, q) <= StageFraction(layers, p)
  {
    hide CeilDiv;
    StageFractionRange(layers, q);
    if 1 < p {
      CeilDivAnti(layers, p, q);
      DivMono(CeilDiv(layers, q) as real, CeilDiv(layers, p) as real, layers as real);
    }
  }

  lemma CachedTokensMono(shape: ModelShape, c: int, d: int)
    requires c <= d
    ensures CachedLayerTokens(shape, c) <= CachedLayerTokens(shape, d)
  {
    CachedTokensAreLayerSum(shape, c);
    CachedTokensAreLayerSum(shape, d);
    SumLayerTokensMono(shape, shape.numLayers, Max(0, c), Max(0, d));
  }

  lemma {:induction false} SumLayerTokensMono(shape: ModelShape, layers: nat, c: nat, d: nat)
    requires c <= d
    ensures SumLayerTokens(shape, layers, c) <= SumLayerTokens(shape, layers, d)
  {
    if layers != 0 {
      SumLayerTokensMono(shape, layers - 1, c, d);
    }
  }

  lemma PerLayerNonneg(shape: ModelShape, kvDtype: string)
    requires shape.WellFormed()
    ensures 0.0 <= PerLayerPerToken(shape, kvDtype)
  {
    MulNonneg((2 * shape.numKvHeads * shape.HeadDim()) as real, KvElemBytes(kvDtype, shape.dtype));
  }

  lemma KvCacheMono(shape: ModelShape, c: int, d: int, m: int, n: int, kvDtype: string)
    requires shape.WellFormed() && c <= d && m <= n
    ensures 0.0 <= KvCacheBytes(shape, c, m, kvDtype) <= KvCacheBytes(shape, d, n, kvDtype)
  {
    hide PerLayerPerToken, CachedLayerTokens;
    PerLayerNonneg(shape, kvDtype);
    CachedTokensMono(shape, c, d);
    ProductMono(PerLayerPerToken(shape, kvDtype), CachedLayerTokens(shape, c) as real, CachedLayerTokens(shape, d) as real,
                Max(0, m) as real, Max(0, n) as real);
  }

  lemma ProductMono(r: real, s: real, t: real, m: real, n: real)
    requires 0.0 <= r && 0.0 <= s <= t && 0.0 <= m <= n
    ensures 0.0 <= r * s * m <= r * t * n
  {
    MulMono2(r, r, s, t);
    MulNonneg(r, s);
    MulMono2(r * s, r * t, m, n);
    MulNonneg(r * s, m);
  }

  /** The divisor is at most the number of ranks the cache could be spread over. */
  lemma KvDivisorRange(shape: ModelShape, plan: ParallelismPlan)
    requires shape.WellFormed()
    ensures 1.0 <= KvDivisor(shape, plan) <= (plan.Tp() * plan.Pp()) as real
  {
    StageFractionRange(shape.numLayers, plan.pipelineParallel);
    IntMulMono(HeadShards(shape, plan), plan.Tp(), plan.Pp());
    QuotientRange(HeadShards(shape, plan), StageFraction(shape.numLayers, plan.pipelineParallel), plan.Pp());
  }

  /** On one rank nothing is divided. */
  lemma OneRankDivisor(shape: ModelShape, plan: ParallelismPlan)
    requires shape.WellFormed() && plan.tensorParallel == 1 && plan.pipelineParallel == 1
    ensures KvDivisor(shape, plan) == 1.0
  {}

  lemma QuotientRange(h: nat, f: real, p: nat)
    requires 1 <= h && 0.0 < f <= 1.0 && 1.0 <= f * p as real
    ensures 1.0 <= h as real / f <= (h * p) as real
  {
    var d := h as real / f;
    assert d * f == h as real;
    if d < 1.0 {
      MulMono(d, 1.0, f);
    }
    MulMono(1.0, f * p as real, d);
    assert d * (f * p as real) == h as real * p as real;
  }

  /** One rank's share really is what one rank holds: whole heads, or the whole latent, on the busiest stage's part of the
      layers, windowed or not. Below the head count the degree has to divide the heads; past it each rank holds one head. */
  lemma KvShareIsHeadsTimesLayers(shape: ModelShape, plan: ParallelismPlan, context: int, batch: int, kvDtype: string)
    requires shape.WellFormed()
    requires shape.IsMla() || shape.numKvHeads <= plan.Tp() || shape.numKvHeads % plan.Tp() == 0
    ensures KvCacheBytes(shape, context, batch, kvDtype) / KvDivisor(shape, plan) * shape.numLayers as real
      == RankWidth(shape, plan) as real * KvElemBytes(kvDtype, shape.dtype)
         * (CachedLayerTokens(shape, context) * CeilDiv(shape.numLayers, plan.Pp())) as real * Max(0, batch) as real
  {
    hide Shares, KvCacheBytes, KvDivisor, StageFraction, CeilDiv, RankWidth, HeadShards, KvElemBytes, CachedLayerTokens,
         PerLayerPerToken, Max;
    ShareParts(shape, plan, context, batch, kvDtype);
    KvDivisorRange(shape, plan);
    ShareOfWhole(KvCacheBytes(shape, context, batch, kvDtype), PerLayerPerToken(shape, kvDtype),
                 RankWidth(shape, plan) as real * KvElemBytes(kvDtype, shape.dtype), HeadShards(shape, plan) as real,
                 CachedLayerTokens(shape, context), Max(0, batch) as real, KvDivisor(shape, plan),
                 StageFraction(shape.numLayers, plan.pipelineParallel), shape.numLayers as real,
                 CeilDiv(shape.numLayers, plan.Pp()));
  }

  lemma CacheParts(shape: ModelShape, context: int, batch: int, kvDtype: string)
    requires shape.WellFormed()
    ensures KvCacheBytes(shape, context, batch, kvDtype)
      == PerLayerPerToken(shape, kvDtype) * CachedLayerTokens(shape, context) as real * Max(0, batch) as real
  {
    hide PerLayerPerToken, CachedLayerTokens, Max;
  }

  /** Key-value heads on one rank. */
  function HeadsPerRank(shape: ModelShape, plan: ParallelismPlan): nat {
    if shape.numKvHeads <= plan.Tp() then Min(1, shape.numKvHeads) else shape.numKvHeads / plan.Tp()
  }

  /** Elements one rank caches per token and layer: keys and values of its heads, or the latent with its RoPE part. */
  function RankWidth(shape: ModelShape, plan: ParallelismPlan): nat
    requires shape.WellFormed()
  {
    if shape.IsMla() then shape.mlaLatentDim.value + shape.MlaRopeDim() else 2 * HeadsPerRank(shape, plan) * shape.HeadDim()
  }

  lemma DivisorParts(shape: ModelShape, plan: ParallelismPlan)
    requires shape.WellFormed()
    ensures KvDivisor(shape, plan) * StageFraction(shape.numLayers, plan.pipelineParallel) == HeadShards(shape, plan) as real
    ensures StageFraction(shape.numLayers, plan.pipelineParallel) * shape.numLayers as real
      == CeilDiv(shape.numLayers, plan.Pp()) as real
  {
    StageFractionRange(shape.numLayers, plan.pipelineParallel);
  }

  lemma WidthCovers(shape: ModelShape, plan: ParallelismPlan, kvDtype: string)
    requires shape.WellFormed()
    requires shape.IsMla() || shape.numKvHeads <= plan.Tp() || shape.numKvHeads % plan.Tp() == 0
    ensures PerLayerPerToken(shape, kvDtype)
      == RankWidth(shape, plan) as real * KvElemBytes(kvDtype, shape.dtype) * HeadShards(shape, plan) as real
  {
    hide KvElemBytes, HeadsPerRank, HeadShards, ModelShape.HeadDim, ModelShape.MlaRopeDim, ModelShape.IsMla;
    if shape.IsMla() {
      LatentWhole(shape, plan);
    } else {
      HeadsCover(shape, plan);
      WidthTimes(HeadsPerRank(shape, plan), HeadShards(shape, plan), shape.numKvHeads, shape.HeadDim(),
                 KvElemBytes(kvDtype, shape.dtype));
    }
  }

  lemma LatentWhole(shape: ModelShape, plan: ParallelismPlan)
    requires shape.IsMla()
    ensures HeadShards(shape, plan) == 1 && shape.mlaLatentDim.Some?
  {}

  lemma HeadsCover(shape: ModelShape, plan: ParallelismPlan)
    requires !shape.IsMla() && (shape.numKvHeads <= plan.Tp() || shape.numKvHeads % plan.Tp() == 0)
    ensures HeadsPerRank(shape, plan) * HeadShards(shape, plan) == shape.numKvHeads
  {}

  lemma WidthTimes(heads: nat, shards: nat, all: nat, hd: nat, e: real)
    requires heads * shards == all
    ensures (2 * all * hd) as real * e == (2 * heads * hd) as real * e * shards as real
  {
    assert 2 * all * hd == 2 * heads * hd * shards;
  }

  /** What relates one rank's share to the whole cache. */
  ghost predicate Shares(whole: real, p: real, w: real, h: real, tokens: nat, b: real, d: real, f: real, all: real, busiest: nat) {
    && whole == p * tokens as real * b && p == w * h
    && 0.0 < d && d * f == h && f * all == busiest as real
  }

  lemma ShareParts(shape: ModelShape, plan: ParallelismPlan, context: int, batch: int, kvDtype: string)
    requires shape.WellFormed()
    requires shape.IsMla() || shape.numKvHeads <= plan.Tp() || shape.numKvHeads % plan.Tp() == 0
    ensures Shares(KvCacheBytes(shape, context, batch, kvDtype), PerLayerPerToken(shape, kvDtype),
                   RankWidth(shape, plan) as real * KvElemBytes(kvDtype, shape.dtype), HeadShards(shape, plan) as real,
                   CachedLayerTokens(shape, context), Max(0, batch) as real, KvDivisor(shape, plan),
                   StageFraction(shape.numLayers, plan.pipelineParallel), shape.numLayers as real,
                   CeilDiv(shape.numLayers, plan.Pp()))
  {
    hide KvCacheBytes, KvDivisor, StageFraction, CeilDiv, RankWidth, HeadShards, KvElemBytes, CachedLayerTokens, PerLayerPerToken,
         Max;
    CacheParts(shape, context, batch, kvDtype);
    WidthCovers(shape, plan, kvDtype);
    DivisorParts(shape, plan);
    KvDivisorRange(shape, plan);
  }

  lemma ShareOfWhole(whole: real, p: real, w: real, h: real, tokens: nat, b: real, d: real, f: real, all: real, busiest: nat)
    requires Shares(whole, p, w, h, tokens, b, d, f, all, busiest)
    ensures whole / d * all == w * (tokens * busiest) as real * b
  {
    var t := tokens as real;
    var q := w * f * t * b;
    assert q * d == p * t * b by { assert w * f * t * b * d == w * (d * f) * t * b; }
    assert p * t * b / d == q;
    assert q * all == w * t * b * (f * all);
    assert (tokens * busiest) as real == t * busiest as real;
  }
}
