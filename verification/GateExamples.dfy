/** Requests put through the gate, at the source's own prices, at which an answer falls short of what it says. */
module GateExamples {
  import opened Numbers
  import opened Contracts
  import opened Kv
  import opened Memory
  import opened Search
  import opened Nodes
  import opened Gate
  import opened Verdicts
  import opened Refusals

  /** A gate with the source's prices, all of a node's memory to give, and a prefill chunk. */
  function PricedGate(chunk: int): Calculator { Calculator(1.0, chunk, OrderPrices()) }

  const PRICES_IN_ORDER: seq<real> := [4.0, 2.0, 2.0, 1.0625, 1.0, 0.82, 0.711, 0.6125, 0.5625, 0.53125, 0.456, 0.329]

  /** The prices, name by name, in the quality order. */
  lemma PriceList()
    ensures forall i :: 0 <= i < 12 ==> OrderPrices()[QUANT_SUGGESTION_ORDER[i]] == PRICES_IN_ORDER[i]
  {}

  /** The suggestion is the first affordable name, told by its place in the order. */
  lemma {:induction false} FirstIs(prices: Prices, order: seq<string>, k: nat, current: real, allowed: real)
    requires OrderPriced(prices, order) && k < |order| && prices[order[k]] < current && prices[order[k]] <= allowed
    requires forall i :: 0 <= i < k ==> current <= prices[order[i]] || allowed < prices[order[i]]
    ensures FirstAffordable(prices, order, current, allowed) == Some(order[k])
  {
    if 0 < k {
      FirstIs(prices, order[1..], k - 1, current, allowed);
    }
  }

  function OneRank(): ParallelismPlan { ParallelismPlan(1, 1, 1, 1, []) }

  /** One machine with one GPU. */
  function OneNode(memory: int): seq<NodeProfile> { [NodeProfile("a", 1, memory, 100.0)] }

  lemma OneNodeBudget(gate: Calculator, memory: nat)
    requires gate.guardrail == 1.0
    ensures BudgetOf(gate, Participating(OneRank(), OneNode(memory)), map[]) == Budget(OneNode(memory)[0], memory, Static)
    ensures Usable(gate, OneRank(), OneNode(memory), map[]) == memory && !RanksShort(OneRank(), OneNode(memory))
  {
    var nodes := OneNode(memory);
    assert Participating(OneRank(), nodes) == nodes;
    assert nodes[..0] == [] && Ranks(nodes) == 1;
    assert UsableMemory(gate, nodes[0]) == memory by { WholeTrunc(memory); }
  }

  lemma WholeTrunc(n: nat)
    ensures Trunc(n as real * 1.0) == n
  {}

  /** A memory refusal names the gate's remedies and nothing else decides them. */
  lemma RefusedForMemory(gate: Calculator, req: FitRequest, memory: nat)
    requires gate.guardrail == 1.0 && gate.CanPrice(req.shape) && req.plan == OneRank() && memory < gate.Total(req)
    ensures var r := Check(gate, req, OneNode(memory), map[]);
      && r.verdict == WontFit && r.limitingTerm == Diagnose(gate.BreakdownOf(req), memory)
      && r.remedies == Remedies(gate, req, Budget(OneNode(memory)[0], memory, Static))
  {
    OneNodeBudget(gate, memory);
    CheckParts(gate, req, OneNode(memory), map[]);
    RefusedIff(gate, req, OneNode(memory), map[]);
    hide Check, Participating, BudgetOf, Calculator.BreakdownOf, RanksShort, Usable, OneNode, Remedies;
  }

  // ----- another quantization

  /** Ten billion parameters in fp8, a cache that follows them, and 9 GB free. */
  function AutoRequest(): FitRequest {
    FitRequest(ModelShape(1, 0, 8, 8, 0, 10000000000, "fp8", Some(125), None, None, None, None, None, 0),
               1500000, 1, "auto", OneRank(), None, None)
  }

  const AUTO_FREE: nat := 9000000000

  lemma AutoBreakdown(gate: Calculator, req: FitRequest)
    requires gate == PricedGate(2048) && req == AutoRequest()
    ensures AutoFacts(gate, req) && gate.BreakdownOf(req) == Breakdown(10000000000, 3000000000, 0, 0, 0, FRAMEWORK_OVERHEAD)
    ensures ParamsPerRank(req.shape, OneRank()) == 10000000000.0 && KvShare(req) == 3000000000.0
  {
    hide CachedLayerTokens, PerLayerPerToken, ModelShape.Vision, ActivationBytes, KvElemBytes, KvShare, Calculator.BreakdownOf,
         ParamsPerRank, Calculator.BytesPerParam, StageFraction, Trunc;
    AutoElems();
    AutoTerms(req);
    AutoPrices(gate, req);
    AutoParts(gate, req);
  }

  /** All the arithmetic needs to know of the request. */
  ghost predicate AutoFacts(gate: Calculator, req: FitRequest) {
    && gate.CanPrice(req.shape) && gate.BytesPerParam(req.shape) == 1.0 && gate.guardrail == 1.0 && gate.chunkTokens == 2048
    && "q3_k_m" in gate.prices && gate.prices["q3_k_m"] == 0.456
    && req.plan == OneRank() && req.seqs == 1 && req.weightBytes == None && req.kvDtype == "auto" && req.context == 1500000
    && req.shape.totalParams == 10000000000 && req.shape.dtype == "fp8" && req.shape.Vision() == 0
    && CachedLayerTokens(req.shape, 1500000) == 1500000 && PerLayerPerToken(req.shape, "auto") == 2000.0
    && ActivationBytes(req.shape, 1, 1500000, 2048) == 0
    && KvElemBytes("auto", "fp8") == 1.0 && KvElemBytes("auto", "q3_k_m") == 2.0
  }

  lemma AutoParts(gate: Calculator, req: FitRequest)
    requires AutoFacts(gate, req)
    ensures gate.BreakdownOf(req) == Breakdown(10000000000, 3000000000, 0, 0, 0, FRAMEWORK_OVERHEAD)
    ensures ParamsPerRank(req.shape, OneRank()) == 10000000000.0 && KvShare(req) == 3000000000.0
  {
    hide CachedLayerTokens, PerLayerPerToken, ModelShape.Vision, ActivationBytes, KvElemBytes, KvShare, Calculator.BreakdownOf,
         ParamsPerRank, Calculator.BytesPerParam;
    OneRankBreakdown(gate, req, 1.0, 10000000000, 0, 2000.0, 1500000, 10000000000, 3000000000, 0);
  }

  lemma AutoElems()
    ensures KvElemBytes("auto", "fp8") == 1.0 && KvElemBytes("auto", "q3_k_m") == 2.0
  {}

  lemma AutoPrices(gate: Calculator, req: FitRequest)
    requires gate == PricedGate(2048) && req == AutoRequest()
    ensures gate.CanPrice(req.shape) && gate.BytesPerParam(req.shape) == 1.0
    ensures "q3_k_m" in gate.prices && gate.prices["q3_k_m"] == 0.456
  {}

  lemma AutoTerms(req: FitRequest)
    requires req == AutoRequest()
    ensures CachedLayerTokens(req.shape, 1500000) == 1500000 && PerLayerPerToken(req.shape, "auto") == 2000.0
    ensures req.shape.Vision() == 0 && ActivationBytes(req.shape, 1, 1500000, 2048) == 0
  {
    hide KvElemBytes;
    AutoElems();
  }

  /** What the terms of a one-rank, one-sequence request are made of. */
  ghost predicate OneRankParts(gate: Calculator, req: FitRequest, price: real, params: nat, vision: nat, rate: real, tokens: nat)
    requires gate.CanPrice(req.shape)
  {
    && req.plan == OneRank() && req.seqs == 1 && req.weightBytes == None
    && gate.BytesPerParam(req.shape) == price && req.shape.Vision() == vision && req.shape.totalParams - vision == params
    && PerLayerPerToken(req.shape, req.kvDtype) == rate && CachedLayerTokens(req.shape, req.context) == tokens
  }

  /** Where they come to whole bytes, the breakdown is these bytes. */
  lemma OneRankBreakdown(gate: Calculator, req: FitRequest, price: real, params: nat, vision: nat, rate: real, tokens: nat,
                         weights: nat, cache: nat, replicated: nat)
    requires gate.CanPrice(req.shape) && OneRankParts(gate, req, price, params, vision, rate, tokens)
    requires params as real * price == weights as real && rate * tokens as real == cache as real
    requires vision as real * price == replicated as real
    ensures gate.BreakdownOf(req) == Breakdown(
      weights, cache, ActivationBytes(req.shape, 1, req.context, gate.chunkTokens), 0, replicated, FRAMEWORK_OVERHEAD)
    ensures ParamsPerRank(req.shape, req.plan) == params as real && KvShare(req) == cache as real
  {
    hide KvShare, Calculator.WeightBytesPerRank, Calculator.ReplicatedBytes, ActivationBytes, PerLayerPerToken, CachedLayerTokens,
         ModelShape.Vision, Trunc, ParamsPerRank;
    OneRankTerms(gate, req, price, params, vision, rate, tokens);
    Whole(weights);
    Whole(cache);
    Whole(replicated);
  }

  lemma Whole(n: nat)
    ensures Trunc(n as real) == n
  {}

  lemma OneRankTerms(gate: Calculator, req: FitRequest, price: real, params: nat, vision: nat, rate: real, tokens: nat)
    requires gate.CanPrice(req.shape) && OneRankParts(gate, req, price, params, vision, rate, tokens)
    ensures gate.WeightBytesPerRank(req.shape, req.plan, None) == params as real * price
    ensures KvShare(req) == rate * tokens as real && gate.ReplicatedBytes(req.shape) == vision as real * price
    ensures ParamsPerRank(req.shape, req.plan) == params as real
  {
    hide StageFraction, KvDivisor, PerLayerPerToken, CachedLayerTokens, ModelShape.Vision, Calculator.BytesPerParam;
    OneStage(req.shape.numLayers);
    OneRankDivisor(req.shape, req.plan);
  }

  lemma OneStage(layers: nat)
    requires 1 <= layers
    ensures StageFraction(layers, 1) == 1.0
  {}

  /** A weights refusal names q3_k_m, and the model requantized to q3_k_m is refused: its cache falls back to two bytes an
      element and grows by more than the weights shrink. */
  lemma AutoCacheSuggestionFails()
    ensures var gate, req := PricedGate(2048), AutoRequest();
      && gate.CanPrice(req.shape) && PositivePrices(gate.prices) && gate.CanPrice(Requantized(req, "q3_k_m").shape)
      && Check(gate, req, OneNode(AUTO_FREE), map[]).limitingTerm == WeightsTerm
      && Requantize("q3_k_m") in Check(gate, req, OneNode(AUTO_FREE), map[]).remedies
      && Check(gate, Requantized(req, "q3_k_m"), OneNode(AUTO_FREE), map[]).verdict == WontFit
  {
    hide Check, SuggestQuant, Calculator.BreakdownOf, ParamsPerRank, KvShare, Fits, ModelShape.Vision, AutoFacts;
    var gate, req := PricedGate(2048), AutoRequest();
    AutoBreakdown(gate, req);
    AutoChoice(gate, req);
    AutoOverflows(gate, req);
    NamedThroughGate(gate, req, AUTO_FREE, "q3_k_m");
    AnsweredThroughGate(gate, Requantized(req, "q3_k_m"), AUTO_FREE);
  }

  /** A scheme suggested under a weights refusal is named in the gate's answer. */
  lemma NamedThroughGate(gate: Calculator, req: FitRequest, memory: nat, name: string)
    requires gate.guardrail == 1.0 && gate.CanPrice(req.shape) && req.plan == OneRank() && memory < gate.Total(req)
    requires memory < gate.BreakdownOf(req).weights + gate.BreakdownOf(req).replicated
    requires SuggestQuant(gate, req, memory) == Some(name)
    ensures Check(gate, req, OneNode(memory), map[]).limitingTerm == WeightsTerm
    ensures Requantize(name) in Check(gate, req, OneNode(memory), map[]).remedies
  {
    hide Check, Remedies, SuggestQuant, Calculator.BreakdownOf;
    RefusedForMemory(gate, req, memory);
    QuantNamed(gate, req, Budget(OneNode(memory)[0], memory, Static), name);
  }

  lemma AnsweredThroughGate(gate: Calculator, req: FitRequest, memory: nat)
    requires gate.guardrail == 1.0 && gate.CanPrice(req.shape) && req.plan == OneRank() && req.nativeWindow == None
    ensures Check(gate, req, OneNode(memory), map[]).verdict == WontFit <==> !Fits(gate, req, memory)
  {
    hide Check, Usable, RanksShort, Fits;
    OneNodeBudget(gate, memory);
    RefusedIff(gate, req, OneNode(memory), map[]);
  }

  /** Under a weights refusal whatever scheme is suggested is named. */
  lemma QuantNamed(gate: Calculator, req: FitRequest, budget: Budget, name: string)
    requires gate.CanPrice(req.shape) && Diagnose(gate.BreakdownOf(req), budget.usable) == WeightsTerm
    requires SuggestQuant(gate, req, budget.usable) == Some(name)
    ensures Requantize(name) in Remedies(gate, req, budget)
  {
    hide SuggestQuant, Calculator.BreakdownOf, Diagnose, MaxContext, MaxSeqs, NodesPhrase, Fp8Claim;
  }

  /** With ten billion parameters on the rank, the suggestion is the first name smaller and cheap enough. */
  lemma ChosenAt(gate: Calculator, req: FitRequest, usable: int, k: nat, current: real, budget: int)
    requires gate.CanPrice(req.shape) && gate.prices == OrderPrices() && gate.BytesPerParam(req.shape) == current
    requires ParamsPerRank(req.shape, req.plan) == 10000000000.0 && WeightBudget(gate, req, usable) == budget && 0 < budget
    requires k < 12 && PRICES_IN_ORDER[k] < current && PRICES_IN_ORDER[k] * 10000000000.0 <= budget as real
    requires forall i :: 0 <= i < k ==> current <= PRICES_IN_ORDER[i] || budget as real < PRICES_IN_ORDER[i] * 10000000000.0
    ensures |QUANT_SUGGESTION_ORDER| == 12 && SuggestQuant(gate, req, usable) == Some(QUANT_SUGGESTION_ORDER[k])
  {
    hide FirstAffordable, WeightBudget, ParamsPerRank, OrderPrices, QUANT_SUGGESTION_ORDER, PRICES_IN_ORDER, Calculator.BytesPerParam;
    TwelveNames();
    PriceList();
    ChosenByRate(gate.prices, QUANT_SUGGESTION_ORDER, k, current, budget as real);
  }

  lemma TwelveNames()
    ensures |QUANT_SUGGESTION_ORDER| == 12 == |PRICES_IN_ORDER|
  {}

  lemma ChosenByRate(prices: Prices, order: seq<string>, k: nat, current: real, budget: real)
    requires OrderPriced(prices, order) && k < |order|
    requires prices[order[k]] < current && prices[order[k]] * 10000000000.0 <= budget
    requires forall i :: 0 <= i < k ==> current <= prices[order[i]] || budget < prices[order[i]] * 10000000000.0
    ensures FirstAffordable(prices, order, current, budget / 10000000000.0) == Some(order[k])
  {
    hide FirstAffordable;
    FirstIs(prices, order, k, current, budget / 10000000000.0);
  }

  lemma AutoChoice(gate: Calculator, req: FitRequest)
    requires gate == PricedGate(2048) && req == AutoRequest()
    requires gate.CanPrice(req.shape) && gate.BytesPerParam(req.shape) == 1.0
    requires gate.BreakdownOf(req) == Breakdown(10000000000, 3000000000, 0, 0, 0, FRAMEWORK_OVERHEAD)
    requires ParamsPerRank(req.shape, OneRank()) == 10000000000.0
    ensures SuggestQuant(gate, req, AUTO_FREE) == Some("q3_k_m")
  {
    hide SuggestQuant, Calculator.BreakdownOf, Calculator.BytesPerParam, ParamsPerRank, OrderPrices;
    assert WeightBudget(gate, req, AUTO_FREE) == 4926258176;
    ChosenAt(gate, req, AUTO_FREE, 10, 1.0, 4926258176);
  }

  /** A scheme whose three terms come to whole bytes, against what there is for them. */
  lemma HoldsBy(gate: Calculator, req: FitRequest, usable: int, name: string, weights: nat, cache: nat, vision: nat)
    requires gate.CanPrice(req.shape) && name in gate.prices
    requires WeightsAt(gate, req, gate.prices[name]) == weights as real && ShareAt(req, name) == cache as real
    requires ReplicatedAt(gate, req, name) == vision as real
    ensures gate.CanPrice(Requantized(req, name).shape)
    ensures Fits(gate, Requantized(req, name), usable) <==> SchemeHolds(gate, req, usable, name)
    ensures var b := gate.BreakdownOf(req);
      SchemeHolds(gate, req, usable, name)
      <==> weights + cache + vision <= usable - b.Total() + b.weights + b.kvCache + b.replicated
  {
    hide Calculator.BreakdownOf, WeightsAt, ShareAt, ReplicatedAt, Trunc, Requantized;
    RequantizedFitsIff(gate, req, name, usable);
    Whole(weights);
    Whole(cache);
    Whole(vision);
  }

  lemma AutoOverflows(gate: Calculator, req: FitRequest)
    requires AutoFacts(gate, req)
    requires gate.BreakdownOf(req) == Breakdown(10000000000, 3000000000, 0, 0, 0, FRAMEWORK_OVERHEAD)
    requires ParamsPerRank(req.shape, OneRank()) == 10000000000.0 && KvShare(req) == 3000000000.0
    ensures gate.CanPrice(Requantized(req, "q3_k_m").shape) && !Fits(gate, Requantized(req, "q3_k_m"), AUTO_FREE)
  {
    hide Calculator.BreakdownOf, ModelShape.Vision, KvShare, ParamsPerRank, Fits, Requantized, KvElemBytes, SchemeHolds, ShareAt,
         WeightsAt, ReplicatedAt, CachedLayerTokens, PerLayerPerToken, ActivationBytes, Calculator.BytesPerParam;
    AutoSums(gate, req);
    HoldsBy(gate, req, AUTO_FREE, "q3_k_m", 4560000000, 6000000000, 0);
  }

  lemma AutoSums(gate: Calculator, req: FitRequest)
    requires AutoFacts(gate, req)
    requires ParamsPerRank(req.shape, OneRank()) == 10000000000.0 && KvShare(req) == 3000000000.0
    ensures WeightsAt(gate, req, gate.prices["q3_k_m"]) == 4560000000.0 && ReplicatedAt(gate, req, "q3_k_m") == 0.0
    ensures ShareAt(req, "q3_k_m") == 6000000000.0
  {
    hide ModelShape.Vision, ParamsPerRank, KvShare, KvElemBytes, CachedLayerTokens, PerLayerPerToken, ActivationBytes,
         Calculator.BytesPerParam;
  }

  /** Fifteen billion parameters in bf16, a third of them a vision tower kept whole on every rank, and no cache. */
  function VisionRequest(): FitRequest {
    FitRequest(ModelShape(1, 0, 1, 1, 0, 15000000000, "bf16", Some(1), None, None, None, None, None, 5000000000),
               0, 1, "bf16", OneRank(), None, None)
  }

  const VISION_FREE: nat := 17573741824

  lemma VisionBreakdown(gate: Calculator, req: FitRequest)
    requires gate == PricedGate(2048) && req == VisionRequest()
    ensures VisionFacts(gate, req) && gate.BreakdownOf(req) == Breakdown(20000000000, 0, 0, 0, 10000000000, FRAMEWORK_OVERHEAD)
    ensures ParamsPerRank(req.shape, OneRank()) == 10000000000.0 && KvShare(req) == 0.0
  {
    hide CachedLayerTokens, PerLayerPerToken, ModelShape.Vision, ActivationBytes, KvElemBytes, KvShare, Calculator.BreakdownOf,
         ParamsPerRank, Calculator.BytesPerParam, StageFraction, Trunc;
    VisionTerms(req);
    VisionPrices(gate, req);
    VisionParts(gate, req);
  }

  ghost predicate VisionFacts(gate: Calculator, req: FitRequest) {
    && gate.CanPrice(req.shape) && gate.BytesPerParam(req.shape) == 2.0 && gate.guardrail == 1.0 && gate.chunkTokens == 2048
    && "q8_0" in gate.prices && gate.prices["q8_0"] == 1.0625
    && req.plan == OneRank() && req.seqs == 1 && req.weightBytes == None && req.kvDtype == "bf16" && req.context == 0
    && req.shape.totalParams == 15000000000 && req.shape.Vision() == 5000000000
    && CachedLayerTokens(req.shape, 0) == 0 && ActivationBytes(req.shape, 1, 0, 2048) == 0
  }

  lemma VisionParts(gate: Calculator, req: FitRequest)
    requires VisionFacts(gate, req)
    ensures gate.BreakdownOf(req) == Breakdown(20000000000, 0, 0, 0, 10000000000, FRAMEWORK_OVERHEAD)
    ensures ParamsPerRank(req.shape, OneRank()) == 10000000000.0 && KvShare(req) == 0.0
  {
    hide CachedLayerTokens, PerLayerPerToken, ModelShape.Vision, ActivationBytes, KvElemBytes, KvShare, Calculator.BreakdownOf,
         ParamsPerRank, Calculator.BytesPerParam;
    OneRankBreakdown(gate, req, 2.0, 10000000000, 5000000000, PerLayerPerToken(req.shape, "bf16"), 0, 20000000000, 0, 10000000000);
  }

  lemma VisionPrices(gate: Calculator, req: FitRequest)
    requires gate == PricedGate(2048) && req == VisionRequest()
    ensures gate.CanPrice(req.shape) && gate.BytesPerParam(req.shape) == 2.0
    ensures "q8_0" in gate.prices && gate.prices["q8_0"] == 1.0625
  {}

  lemma VisionTerms(req: FitRequest)
    requires req == VisionRequest()
    ensures CachedLayerTokens(req.shape, 0) == 0
    ensures req.shape.Vision() == 5000000000 && ActivationBytes(req.shape, 1, 0, 2048) == 0
  {}

  /** A weights refusal names q4_k_m although q8_0, better and still smaller than bf16, passes: requantizing shrinks the
      vision tower too, which the suggestion holds fixed. */
  lemma VisionSuggestionNotFirst()
    ensures var gate, req := PricedGate(2048), VisionRequest();
      && gate.CanPrice(req.shape) && PositivePrices(gate.prices) && gate.CanPrice(Requantized(req, "q8_0").shape)
      && QUANT_SUGGESTION_ORDER[3] == "q8_0" && QUANT_SUGGESTION_ORDER[7] == "q4_k_m" && Smaller(gate, req, "q8_0")
      && Check(gate, req, OneNode(VISION_FREE), map[]).limitingTerm == WeightsTerm
      && Requantize("q4_k_m") in Check(gate, req, OneNode(VISION_FREE), map[]).remedies
      && Overlooked(gate, req, VISION_FREE, "q8_0")
      && Check(gate, Requantized(req, "q8_0"), OneNode(VISION_FREE), map[]).verdict != WontFit
  {
    hide Check, SuggestQuant, Calculator.BreakdownOf, ParamsPerRank, KvShare, Fits, ModelShape.Vision, Overlooked, VisionFacts;
    var gate, req := PricedGate(2048), VisionRequest();
    VisionBreakdown(gate, req);
    VisionChoice(gate, req);
    VisionFits(gate, req);
    NamedThroughGate(gate, req, VISION_FREE, "q4_k_m");
    AnsweredThroughGate(gate, Requantized(req, "q8_0"), VISION_FREE);
  }

  lemma VisionChoice(gate: Calculator, req: FitRequest)
    requires gate == PricedGate(2048) && req == VisionRequest()
    requires gate.CanPrice(req.shape) && gate.BytesPerParam(req.shape) == 2.0
    requires gate.BreakdownOf(req) == Breakdown(20000000000, 0, 0, 0, 10000000000, FRAMEWORK_OVERHEAD)
    requires ParamsPerRank(req.shape, OneRank()) == 10000000000.0
    ensures SuggestQuant(gate, req, VISION_FREE) == Some("q4_k_m")
  {
    hide SuggestQuant, Calculator.BreakdownOf, Calculator.BytesPerParam, ParamsPerRank, OrderPrices;
    assert WeightBudget(gate, req, VISION_FREE) == 6500000000;
    ChosenAt(gate, req, VISION_FREE, 7, 2.0, 6500000000);
  }

  lemma VisionFits(gate: Calculator, req: FitRequest)
    requires VisionFacts(gate, req)
    requires gate.BreakdownOf(req) == Breakdown(20000000000, 0, 0, 0, 10000000000, FRAMEWORK_OVERHEAD)
    requires ParamsPerRank(req.shape, OneRank()) == 10000000000.0 && KvShare(req) == 0.0
    ensures gate.CanPrice(Requantized(req, "q8_0").shape) && Fits(gate, Requantized(req, "q8_0"), VISION_FREE)
    ensures Overlooked(gate, req, VISION_FREE, "q8_0")
  {
    hide Calculator.BreakdownOf, ModelShape.Vision, KvShare, ParamsPerRank, Fits, Requantized, KvElemBytes, SchemeHolds, ShareAt,
         WeightsAt, ReplicatedAt, CachedLayerTokens, ActivationBytes;
    NoShare(req, "q8_0");
    VisionSums(gate, req);
    HoldsBy(gate, req, VISION_FREE, "q8_0", 10625000000, 0, 5312500000);
    assert WeightBudget(gate, req, VISION_FREE) == 6500000000;
  }

  lemma VisionSums(gate: Calculator, req: FitRequest)
    requires VisionFacts(gate, req) && ParamsPerRank(req.shape, OneRank()) == 10000000000.0
    ensures WeightsAt(gate, req, gate.prices["q8_0"]) == 10625000000.0 && ReplicatedAt(gate, req, "q8_0") == 5312500000.0
  {
    hide ModelShape.Vision, ParamsPerRank, CachedLayerTokens, ActivationBytes, Calculator.BytesPerParam;
  }

  lemma NoShare(req: FitRequest, name: string)
    requires req.shape.WellFormed() && KvShare(req) == 0.0
    ensures ShareAt(req, name) == 0.0
  {
    hide KvShare, KvElemBytes;
  }

  // ----- the node count

  /** A gate built with a prefill chunk of 4096, and a model whose activations are all it needs. */
  function ChunkRequest(): FitRequest {
    FitRequest(ModelShape(1, 100000, 1, 0, 0, 0, "bf16", Some(1), None, None, None, None, None, 0),
               4096, 1, "bf16", OneRank(), None, None)
  }

  const CHUNK_FREE: nat := 7000000000

  /** A request refused on one rank is told to spread over one node, where it is refused: the count was searched with the
      default chunk of 2048, and the gate prices 4096. */
  lemma NamedCountFails()
    ensures var gate, req := PricedGate(4096), ChunkRequest();
      && gate.CanPrice(req.shape) && PositivePrices(gate.prices)
      && Check(gate, req, OneNode(CHUNK_FREE), map[]).verdict == WontFit
      && SpreadOver(1) in Check(gate, req, OneNode(CHUNK_FREE), map[]).remedies
      && !SplitHolds(gate, req, 1, CHUNK_FREE)
  {
    hide Check, Remedies, SplitHolds, MinNodes;
    var gate, req := PricedGate(4096), ChunkRequest();
    ChunkTotals(gate, req);
    RefusedForMemory(gate, req, CHUNK_FREE);
    ChunkCount(gate, req);
    SpreadNamed(gate, req, Budget(OneNode(CHUNK_FREE)[0], CHUNK_FREE, Static));
  }

  lemma ChunkTotals(gate: Calculator, req: FitRequest)
    requires gate == PricedGate(4096) && req == ChunkRequest()
    ensures gate.Total(req) == FRAMEWORK_OVERHEAD + 9830400000 && Searcher(gate).Total(req) == FRAMEWORK_OVERHEAD + 4915200000
  {
    ChunkTerms(req);
    hide CachedLayerTokens, PerLayerPerToken, ModelShape.Vision, ActivationBytes, Calculator.BreakdownOf;
    var tokens := CachedLayerTokens(req.shape, 4096);
    OneRankBreakdown(gate, req, 2.0, 0, 0, 0.0, tokens, 0, 0, 0);
    OneRankBreakdown(Searcher(gate), req, 2.0, 0, 0, 0.0, tokens, 0, 0, 0);
  }

  lemma ChunkTerms(req: FitRequest)
    requires req == ChunkRequest()
    ensures PerLayerPerToken(req.shape, "bf16") == 0.0 && req.shape.Vision() == 0
    ensures ActivationBytes(req.shape, 1, 4096, 4096) == 9830400000 && ActivationBytes(req.shape, 1, 4096, 2048) == 4915200000
  {}

  lemma ChunkCount(gate: Calculator, req: FitRequest)
    requires gate == PricedGate(4096) && req == ChunkRequest()
    requires gate.Total(req) == FRAMEWORK_OVERHEAD + 9830400000 && Searcher(gate).Total(req) == FRAMEWORK_OVERHEAD + 4915200000
    ensures MinNodes(gate, req, CHUNK_FREE) == 1 && !SplitHolds(gate, req, 1, CHUNK_FREE)
  {
    hide Calculator.Total;
    assert req.(plan := Split(1, 1)) == req;
    assert LegalSplit(req.shape, 1, 1, 1) && FitsSplit(gate, req, CHUNK_FREE, Split(1, 1));
    forall tp: nat, pp: nat | LegalSplit(req.shape, 1, tp, pp) ensures tp == 1 && pp == 1 {
      if 1 < tp {
        IntMulMono(1, pp, tp);
      }
    }
  }

  lemma SpreadNamed(gate: Calculator, req: FitRequest, budget: Budget)
    requires gate.CanPrice(req.shape) && 0 < budget.node.addressableMemory && gate.guardrail == 1.0 && budget.basis.Static?
    requires budget.usable == budget.node.addressableMemory && MinNodes(gate, req, budget.usable) == 1
    ensures SpreadOver(1) in Remedies(gate, req, budget)
  {
    WholeTrunc(budget.usable);
    hide SuggestQuant, Calculator.BreakdownOf, Diagnose, MaxContext, MaxSeqs, MinNodes, Fp8Claim, KvElemBytes;
    assert NodesPhrase(gate, req, budget) == SpreadOver(1);
  }

  // ----- fp8

  /** Three layers, one of them attending to everything and two to a window of one token, on two pipeline stages: a rank's
      share of the cache is thirteen bytes and a third. */
  function OddRequest(): FitRequest {
    FitRequest(ModelShape(3, 0, 1, 1, 0, 0, "bf16", Some(1), None, Some(1), Some(1), None, None, 0),
               3, 1, "bf16", ParallelismPlan(1, 2, 1, 1, []), None, None)
  }

  const ODD_FREE: nat := 2684354566

  function TwoRanks(): seq<NodeProfile> { [NodeProfile("a", 2, ODD_FREE, 100.0)] }

  /** A cache refusal says fp8 is "still short", and the same request with an fp8 cache passes: six and a half bytes were
      compared with the six that are free, and the gate truncates. The plan is one the node search lists. */
  lemma StillShortIsWrong()
    ensures var gate, req := PricedGate(2048), OddRequest();
      && gate.CanPrice(req.shape) && LegalSplit(req.shape, 2, 1, 2) && req.plan == Split(1, 2)
      && Check(gate, req, TwoRanks(), map[]).limitingTerm == KvCacheTerm
      && QuantizeCacheToFp8(false) in Check(gate, req, TwoRanks(), map[]).remedies
      && Check(gate, req.(kvDtype := "fp8"), TwoRanks(), map[]).verdict != WontFit
  {
    hide Check, Remedies, Usable, RanksShort, BudgetOf, Participating, Calculator.BreakdownOf, OrderPrices;
    var gate, req := PricedGate(2048), OddRequest();
    OddBreakdown(gate, req);
    TwoRankBudget(gate);
    CheckParts(gate, req, TwoRanks(), map[]);
    Fp8ClaimExact(gate, req, ODD_FREE, 2);
    RefusedIff(gate, req.(kvDtype := "fp8"), TwoRanks(), map[]);
    OddRemedies(gate, req, BudgetOf(gate, Participating(req.plan, TwoRanks()), map[]));
  }

  lemma TwoRankBudget(gate: Calculator)
    requires gate == PricedGate(2048)
    ensures BudgetOf(gate, Participating(OddRequest().plan, TwoRanks()), map[]).usable == ODD_FREE
    ensures Usable(gate, OddRequest().plan, TwoRanks(), map[]) == ODD_FREE && !RanksShort(OddRequest().plan, TwoRanks())
  {
    hide OrderPrices;
    var nodes := TwoRanks();
    assert Participating(OddRequest().plan, nodes) == nodes;
    assert nodes[..0] == [] && Ranks(nodes) == 2;
    WholeTrunc(ODD_FREE);
    assert UsableMemory(gate, nodes[0]) == ODD_FREE;
  }

  lemma OddBreakdown(gate: Calculator, req: FitRequest)
    requires gate == PricedGate(2048) && req == OddRequest()
    ensures gate.CanPrice(req.shape)
    ensures gate.BreakdownOf(req) == Breakdown(0, 13, 0, COMM_BUFFER_BYTES, 0, FRAMEWORK_OVERHEAD)
    ensures 2.0 == KvElemBytes(req.kvDtype, req.shape.dtype)
  {
    hide KvShare, Calculator.WeightBytesPerRank, Calculator.ReplicatedBytes, ActivationBytes, KvElemBytes, Trunc;
    OddPriced(gate, req);
    OddShare(req);
    OddTerms(gate, req);
    Whole(0);
  }

  lemma OddPriced(gate: Calculator, req: FitRequest)
    requires gate == PricedGate(2048) && req == OddRequest()
    ensures gate.CanPrice(req.shape)
  {}

  lemma OddShare(req: FitRequest)
    requires req == OddRequest()
    ensures Trunc(KvShare(req)) == 13 && KvElemBytes("bf16", "bf16") == 2.0
  {
    OddDivisor(req);
    assert PerLayerPerToken(req.shape, "bf16") == 4.0 && CachedLayerTokens(req.shape, 3) == 5;
    hide PerLayerPerToken, CachedLayerTokens, KvDivisor;
    assert KvShare(req) * 1.5 == 20.0;
  }

  lemma OddDivisor(req: FitRequest)
    requires req == OddRequest()
    ensures KvDivisor(req.shape, req.plan) == 1.5
  {
    assert CeilDiv(3, 2) == 2;
    var f := StageFraction(3, 2);
    assert f * 3.0 == 2.0;
    assert KvDivisor(req.shape, req.plan) * f == 1.0;
  }

  lemma OddTerms(gate: Calculator, req: FitRequest)
    requires gate.CanPrice(req.shape) && req == OddRequest()
    ensures gate.WeightBytesPerRank(req.shape, req.plan, None) == 0.0 && gate.ReplicatedBytes(req.shape) == 0.0
    ensures ActivationBytes(req.shape, 1, 3, 2048) == 0
  {
    hide StageFraction, Calculator.BytesPerParam, OrderPriced;
    assert req.shape.Vision() == 0;
    NothingCosts(gate.BytesPerParam(req.shape), StageFraction(3, 2));
  }

  lemma NothingCosts(price: real, fraction: real)
    ensures 0.0 * price == 0.0 && 0.0 * fraction / 1.0 == 0.0
  {}

  lemma OddRemedies(gate: Calculator, req: FitRequest, budget: Budget)
    requires gate.CanPrice(req.shape) && budget.usable == ODD_FREE
    requires gate.BreakdownOf(req) == Breakdown(0, 13, 0, COMM_BUFFER_BYTES, 0, FRAMEWORK_OVERHEAD)
    requires 2.0 == KvElemBytes(req.kvDtype, req.shape.dtype)
    ensures Diagnose(gate.BreakdownOf(req), ODD_FREE) == KvCacheTerm && QuantizeCacheToFp8(false) in Remedies(gate, req, budget)
  {
    hide SuggestQuant, Calculator.BreakdownOf, MaxContext, MaxSeqs, MinNodes, KvElemBytes, PhraseBudget;
    assert !Fp8Claim(gate, req, ODD_FREE);
  }

  // ----- a rate of zero

  function IdleRequest(context: int): FitRequest {
    FitRequest(ModelShape(1, 0, 1, 1, 0, 0, "bf16", Some(1), None, None, None, None, None, 0), context, 1, "bf16", OneRank(), None, None)
  }

  /** With no parameters active and no context, dropping the context from 1 to 0 degrades the verdict. */
  lemma IdleRequestDegrades()
    ensures var gate := PricedGate(2048);
      && gate.CanPrice(IdleRequest(0).shape) && gate.CanPrice(IdleRequest(1).shape)
      && Check(gate, IdleRequest(1), OneNode(2000000000), map[]).verdict == Fitting
      && Check(gate, IdleRequest(0), OneNode(2000000000), map[]).verdict == FitsDegraded
  {
    hide Check, OrderPrices;
    IdleVerdict(PricedGate(2048), IdleRequest(0));
    IdleVerdict(PricedGate(2048), IdleRequest(1));
  }

  lemma IdleVerdict(gate: Calculator, req: FitRequest)
    requires gate == PricedGate(2048) && req == IdleRequest(req.context) && 0 <= req.context <= 1
    ensures gate.CanPrice(req.shape)
    ensures Check(gate, req, OneNode(2000000000), map[]).verdict == if req.context == 0 then FitsDegraded else Fitting
  {
    hide Check, Fits, PredictDecodeTps, Participating, MinBandwidth, OrderPrices, KvCacheBytes, Calculator.BreakdownOf,
         PerLayerPerToken, CachedLayerTokens, ActivationBytes, ModelShape.Vision;
    IdlePrices(gate, req);
    IdleTerms(req);
    OneRankBreakdown(gate, req, 2.0, 0, 0, 4.0, req.context, 0, 4 * req.context, 0);
    AnsweredThroughGate(gate, req, 2000000000);
    IdleRate(gate, req);
    IdleFits(gate, req);
    DegradedIff(gate, req, OneNode(2000000000), map[]);
  }

  lemma IdlePrices(gate: Calculator, req: FitRequest)
    requires gate == PricedGate(2048) && req == IdleRequest(req.context)
    ensures gate.CanPrice(req.shape) && gate.BytesPerParam(req.shape) == 2.0
  {}

  lemma IdleTerms(req: FitRequest)
    requires req == IdleRequest(req.context) && 0 <= req.context <= 1
    ensures PerLayerPerToken(req.shape, "bf16") == 4.0 && CachedLayerTokens(req.shape, req.context) == req.context
    ensures req.shape.Vision() == 0 && ActivationBytes(req.shape, 1, req.context, 2048) == 0
  {}

  lemma IdleRate(gate: Calculator, req: FitRequest)
    requires gate.CanPrice(req.shape) && req == IdleRequest(req.context) && 0 <= req.context <= 1
    requires PerLayerPerToken(req.shape, "bf16") == 4.0 && CachedLayerTokens(req.shape, req.context) == req.context
    ensures (PredictDecodeTps(gate, req.shape, MinBandwidth(Participating(req.plan, OneNode(2000000000))),
                              KvCacheBytes(req.shape, req.context, 1, req.kvDtype)) < DEGRADED_TPS_THRESHOLD)
            <==> req.context == 0
  {
    hide PerLayerPerToken, CachedLayerTokens, Calculator.BytesPerParam;
    assert Participating(req.plan, OneNode(2000000000)) == OneNode(2000000000);
    assert KvCacheBytes(req.shape, req.context, 1, req.kvDtype) == 4.0 * req.context as real;
    assert req.shape.ActiveParams() == 0;
  }

  lemma IdleFits(gate: Calculator, req: FitRequest)
    requires gate.CanPrice(req.shape) && 0 <= req.context <= 1
    requires gate.BreakdownOf(req) == Breakdown(0, 4 * req.context, 0, 0, 0, FRAMEWORK_OVERHEAD)
    ensures Fits(gate, req, 2000000000)
  {
    hide Calculator.BreakdownOf;
  }

  // ----- the guardrail

  /** Ninety-five billion bytes asked of a node that addresses a hundred billion. */
  function HeavyRequest(): FitRequest {
    FitRequest(ModelShape(1, 0, 1, 0, 0, 93926258176, "fp8", Some(1), None, None, None, None, None, 0),
               0, 1, "bf16", OneRank(), None, None)
  }

  const HEAVY_NODE: nat := 100000000000

  /** Under a guardrail of nine tenths the budget is ninety billion and the request is refused; without one it would pass. */
  lemma GuardrailRefuses()
    ensures var req := HeavyRequest();
      && PricedGate(2048).CanPrice(req.shape) && PricedGate(2048).Total(req) == 95000000000
      && Check(PricedGate(2048).(guardrail := 0.9), req, OneNode(HEAVY_NODE), map[]).verdict == WontFit
      && Check(PricedGate(2048).(guardrail := 0.9), req, OneNode(HEAVY_NODE), map[]).usable == 90000000000
      && Check(PricedGate(2048), req, OneNode(HEAVY_NODE), map[]).verdict != WontFit
  {
    hide Check, OrderPrices, Usable, RanksShort, Calculator.Total;
    var gate, req := PricedGate(2048), HeavyRequest();
    HeavyTotal(gate, req);
    HeavyTotal(gate.(guardrail := 0.9), req);
    AnsweredThroughGate(gate, req, HEAVY_NODE);
    HeavyBudget(gate.(guardrail := 0.9));
    RefusedIff(gate.(guardrail := 0.9), req, OneNode(HEAVY_NODE), map[]);
    CheckParts(gate.(guardrail := 0.9), req, OneNode(HEAVY_NODE), map[]);
  }

  lemma HeavyTotal(gate: Calculator, req: FitRequest)
    requires gate == PricedGate(2048).(guardrail := gate.guardrail) && req == HeavyRequest()
    ensures gate.CanPrice(req.shape) && gate.Total(req) == 95000000000
  {
    hide CachedLayerTokens, PerLayerPerToken, ModelShape.Vision, ActivationBytes, Calculator.Total, OrderPrices, Calculator.BytesPerParam,
         Calculator.CanPrice;
    HeavyPrices(gate, req);
    HeavyTerms(req);
    HeavySum(gate, req);
  }

  lemma HeavySum(gate: Calculator, req: FitRequest)
    requires gate.CanPrice(req.shape) && gate.BytesPerParam(req.shape) == 1.0 && gate.chunkTokens == 2048
    requires req.plan == OneRank() && req.seqs == 1 && req.weightBytes == None && req.context == 0
    requires req.shape.totalParams == 93926258176 && req.shape.Vision() == 0
    requires CachedLayerTokens(req.shape, 0) == 0 && ActivationBytes(req.shape, 1, 0, 2048) == 0
    ensures gate.Total(req) == 95000000000
  {
    hide CachedLayerTokens, PerLayerPerToken, ModelShape.Vision, ActivationBytes, KvElemBytes, KvShare, Calculator.BreakdownOf,
         ParamsPerRank, Calculator.BytesPerParam;
    OneRankBreakdown(gate, req, 1.0, 93926258176, 0, PerLayerPerToken(req.shape, req.kvDtype), 0, 93926258176, 0, 0);
  }

  lemma HeavyPrices(gate: Calculator, req: FitRequest)
    requires gate == PricedGate(2048).(guardrail := gate.guardrail) && req == HeavyRequest()
    ensures gate.CanPrice(req.shape) && gate.BytesPerParam(req.shape) == 1.0
  {}

  lemma HeavyTerms(req: FitRequest)
    requires req == HeavyRequest()
    ensures CachedLayerTokens(req.shape, 0) == 0 && req.shape.Vision() == 0 && ActivationBytes(req.shape, 1, 0, 2048) == 0
  {}

  lemma HeavyBudget(gate: Calculator)
    requires gate.guardrail == 0.9
    ensures Usable(gate, OneRank(), OneNode(HEAVY_NODE), map[]) == 90000000000 && !RanksShort(OneRank(), OneNode(HEAVY_NODE))
  {
    var nodes := OneNode(HEAVY_NODE);
    assert Participating(OneRank(), nodes) == nodes;
    assert nodes[..0] == [] && Ranks(nodes) == 1;
    assert UsableMemory(gate, nodes[0]) == 90000000000;
  }
}
