/** Every change a refusal names, tried: what it promises when the request is put through the gate again. */
module Refusals {
  import opened Numbers
  import opened Contracts
  import opened Kv
  import opened Memory
  import opened Search
  import opened Nodes
  import opened Gate
  import opened Verdicts

  /** Memory has nothing against the request any more; only its own window can still refuse it. */
  ghost predicate Passes(gate: Calculator, req: FitRequest, nodes: seq<NodeProfile>, live: map<string, int>)
    requires gate.CanPrice(req.shape) && nodes != []
  {
    Check(gate, req, nodes, live).verdict == WontFit <==> PastWindow(req)
  }

  /** The same model at another scheme, its weights priced by the formula because they were not measured. */
  function Requantized(req: FitRequest, dtype: string): FitRequest {
    req.(shape := req.shape.(dtype := dtype), weightBytes := None)
  }

  /** Requantizing does not make the cache element wider; with a named cache dtype it never does. */
  predicate CacheNoWider(req: FitRequest, dtype: string) {
    KvElemBytes(req.kvDtype, dtype) <= KvElemBytes(req.kvDtype, req.shape.dtype)
  }

  /** Some legal split over this many ranks holds the request. */
  ghost predicate SplitHolds(gate: Calculator, req: FitRequest, n: nat, usable: int)
    requires gate.CanPrice(req.shape)
  {
    exists tp: nat, pp: nat :: LegalSplit(req.shape, n, tp, pp) && Fits(gate, req.(plan := Split(tp, pp)), usable)
  }

  ghost predicate Works(gate: Calculator, req: FitRequest, nodes: seq<NodeProfile>, live: map<string, int>, remedy: Remedy)
    requires gate.CanPrice(req.shape) && nodes != []
  {
    var budget := BudgetOf(gate, Participating(req.plan, nodes), live);
    match remedy
    case DropContext(c) =>
      && CONTEXT_ROUNDING <= c < req.context && Passes(gate, req.(context := c), nodes, live)
    case ReduceConcurrency(n) =>
      && 1 <= n < req.seqs && Passes(gate, req.(seqs := n), nodes, live)
      && (forall m :: n < m < req.seqs ==> !FitsSeqs(gate, req, budget.usable, m))
    case QuantizeCacheToFp8(claim) =>
      claim ==> Passes(gate, req.(kvDtype := "fp8"), nodes, live)
    case Requantize(name) =>
      && name in gate.prices && gate.CanPrice(Requantized(req, name).shape)
      && (CacheNoWider(req, name) ==> SchemeHolds(gate, req, budget.usable, name))
      && (SchemeHolds(gate, req, budget.usable, name) ==> Passes(gate, Requantized(req, name), nodes, live))
      && (!SchemeHolds(gate, req, budget.usable, name) ==> Check(gate, Requantized(req, name), nodes, live).verdict == WontFit)
    case SpreadOver(n) =>
      && 1 <= n && LeastHolding(gate, req, n, PhraseBudget(gate, budget) + ChunkSlack(gate, req))
      && (ChunkSlack(gate, req) <= 0 ==> SplitHolds(gate, req, n, PhraseBudget(gate, budget)))
      && (0 <= ChunkSlack(gate, req) ==> forall k: nat :: 1 <= k < n ==> !SplitHolds(gate, req, k, PhraseBudget(gate, budget)))
    case DifferentMachine =>
      && LeastHolding(gate, req, 0, PhraseBudget(gate, budget) + ChunkSlack(gate, req))
      && (0 <= ChunkSlack(gate, req) ==>
            forall k: nat :: 1 <= k <= MAX_SEARCH_NODES ==> !SplitHolds(gate, req, k, PhraseBudget(gate, budget)))
    case MachineWithGpu => budget.node.addressableMemory <= 0
  }

  /** Every remedy a refusal names does what the gate's memory arithmetic makes it do: a context, a concurrency and a
      claimed fp8 cache pass; a scheme passes exactly when it holds, which it does unless it widens the cache; a node count
      is the least that holds at the budget moved by the prefill chunk's slack. */
  lemma RemediesWork(gate: Calculator, req: FitRequest, nodes: seq<NodeProfile>, live: map<string, int>)
    requires gate.CanPrice(req.shape) && PositivePrices(gate.prices) && nodes != []
    ensures forall remedy <- Check(gate, req, nodes, live).remedies :: Works(gate, req, nodes, live, remedy)
  {
    hide Works, Check, MaxContext, MaxSeqs, SuggestQuant, Fp8Claim, NodesPhrase, Calculator.BreakdownOf, BudgetOf, Participating;
    CheckParts(gate, req, nodes, live);
    var budget := BudgetOf(gate, Participating(req.plan, nodes), live);
    forall remedy <- Check(gate, req, nodes, live).remedies ensures Works(gate, req, nodes, live, remedy) {
      assert MemoryRefusal(gate, req, nodes, live);
      NamedRemedies(gate, req, budget, remedy);
      SpreadWorks(gate, req, nodes, live);
      match remedy
      case DropContext(c) => DropContextWorks(gate, req, nodes, live);
      case ReduceConcurrency(n) => ReduceConcurrencyWorks(gate, req, nodes, live);
      case QuantizeCacheToFp8(claim) => Fp8Works(gate, req, nodes, live);
      case Requantize(name) => RequantizeWorks(gate, req, nodes, live, name);
      case _ =>
    }
  }

  /** Where each kind of remedy comes from. */
  lemma NamedRemedies(gate: Calculator, req: FitRequest, budget: Budget, remedy: Remedy)
    requires gate.CanPrice(req.shape) && remedy in Remedies(gate, req, budget)
    ensures
      || (remedy == NodesPhrase(gate, req, budget) && (remedy.SpreadOver? || remedy.DifferentMachine? || remedy.MachineWithGpu?))
      || (remedy == DropContext(MaxContext(gate, req, budget.usable)) && CONTEXT_ROUNDING <= MaxContext(gate, req, budget.usable))
      || (remedy == ReduceConcurrency(MaxSeqs(gate, req, budget.usable, req.seqs - 1))
            && 1 <= MaxSeqs(gate, req, budget.usable, req.seqs - 1))
      || remedy == QuantizeCacheToFp8(Fp8Claim(gate, req, budget.usable))
      || (remedy.Requantize? && SuggestQuant(gate, req, budget.usable) == Some(remedy.dtype))
  {
    hide MaxContext, MaxSeqs, SuggestQuant, Fp8Claim, MinNodes, Calculator.BreakdownOf, Diagnose, KvElemBytes;
  }

  lemma PassesIfFits(gate: Calculator, req: FitRequest, again: FitRequest, nodes: seq<NodeProfile>, live: map<string, int>)
    requires gate.CanPrice(again.shape) && nodes != [] && again.plan == req.plan
    requires !RanksShort(req.plan, nodes) && Fits(gate, again, Usable(gate, req.plan, nodes, live))
    ensures Passes(gate, again, nodes, live)
  {
    hide Check, Fits, Usable, RanksShort;
    RefusedIff(gate, again, nodes, live);
  }

  /** A refusal on memory grounds. */
  ghost predicate MemoryRefusal(gate: Calculator, req: FitRequest, nodes: seq<NodeProfile>, live: map<string, int>)
    requires gate.CanPrice(req.shape) && nodes != []
  {
    !RanksShort(req.plan, nodes) && !Fits(gate, req, Usable(gate, req.plan, nodes, live))
  }

  lemma DropContextWorks(gate: Calculator, req: FitRequest, nodes: seq<NodeProfile>, live: map<string, int>)
    requires gate.CanPrice(req.shape) && nodes != [] && MemoryRefusal(gate, req, nodes, live)
    requires CONTEXT_ROUNDING <= MaxContext(gate, req, Usable(gate, req.plan, nodes, live))
    ensures Works(gate, req, nodes, live, DropContext(MaxContext(gate, req, Usable(gate, req.plan, nodes, live))))
  {
    hide MaxContext, Check, Passes, Fits, BudgetOf, Participating;
    var usable := Usable(gate, req.plan, nodes, live);
    var c := MaxContext(gate, req, usable);
    MaxContextExact(gate, req, usable);
    assert req.(context := req.context) == req;
    assert FitsContext(gate, req, usable, c) && !FitsContext(gate, req, usable, req.context);
    PassesIfFits(gate, req, req.(context := c), nodes, live);
  }

  lemma ReduceConcurrencyWorks(gate: Calculator, req: FitRequest, nodes: seq<NodeProfile>, live: map<string, int>)
    requires gate.CanPrice(req.shape) && nodes != [] && MemoryRefusal(gate, req, nodes, live)
    requires 1 <= MaxSeqs(gate, req, Usable(gate, req.plan, nodes, live), req.seqs - 1)
    ensures Works(gate, req, nodes, live, ReduceConcurrency(MaxSeqs(gate, req, Usable(gate, req.plan, nodes, live), req.seqs - 1)))
  {
    hide MaxSeqs, Check, Passes, Fits, BudgetOf, Participating;
    var usable := Usable(gate, req.plan, nodes, live);
    var n := MaxSeqs(gate, req, usable, req.seqs - 1);
    MaxSeqsExact(gate, req, usable, req.seqs - 1);
    assert FitsSeqs(gate, req, usable, n);
    PassesIfFits(gate, req, req.(seqs := n), nodes, live);
  }

  // ----- fp8

  lemma FloorOfQuotient(x: real, n: nat)
    requires 0.0 <= x && 1 <= n
    ensures Trunc(x / n as real) == Trunc(x) / n
  {
    var q := x.Floor;
    var d, r := q / n, q % n;
    assert q == d * n + r;
    assert (q + 1) as real <= (d * n + n) as real;
    QuotientBetween(x, n as real, d as real);
  }

  lemma QuotientBetween(x: real, n: real, d: real)
    requires 0.0 < n && d * n <= x < d * n + n
    ensures d <= x / n < d + 1.0
  {
    var y := x / n;
    assert y * n == x;
    if y < d {
      StrictMul(y, d, n);
    }
    if d + 1.0 <= y {
      MulMono(d + 1.0, y, n);
    }
  }

  lemma Fp8Share(req: FitRequest)
    requires req.shape.WellFormed()
    ensures KvShare(req.(kvDtype := "fp8")) == KvShare(req) / KvElemBytes(req.kvDtype, req.shape.dtype)
  {
    hide PerLayerPerToken, KvElemBytes, KvDivisor, CachedLayerTokens, Max;
    PerLayerScales(req.shape, req.kvDtype);
    KvDivisorRange(req.shape, req.plan);
    ScaledQuotient(PerLayerPerToken(req.shape, "fp8"), PerLayerPerToken(req.shape, req.kvDtype),
                   KvElemBytes(req.kvDtype, req.shape.dtype), CachedLayerTokens(req.shape, req.context) as real,
                   Max(0, req.seqs) as real, KvDivisor(req.shape, req.plan));
  }

  lemma PerLayerScales(shape: ModelShape, kvDtype: string)
    requires shape.WellFormed()
    ensures PerLayerPerToken(shape, kvDtype) == PerLayerPerToken(shape, "fp8") * KvElemBytes(kvDtype, shape.dtype)
  {}

  lemma ScaledQuotient(p: real, q: real, e: real, t: real, b: real, d: real)
    requires q == p * e && 0.0 < e && 0.0 < d
    ensures p * t * b / d == q * t * b / d / e
  {
    var x := p * t * b;
    assert q * t * b == x * e;
    assert x * e / d == x / d * e;
  }

  /** Caching in fp8 divides the cache term exactly, remainder dropped. */
  lemma Fp8Breakdown(gate: Calculator, req: FitRequest, e: nat)
    requires gate.CanPrice(req.shape) && e in {1, 2, 4} && e as real == KvElemBytes(req.kvDtype, req.shape.dtype)
    ensures gate.BreakdownOf(req.(kvDtype := "fp8")) == gate.BreakdownOf(req).(kvCache := gate.BreakdownOf(req).kvCache / e)
    ensures 0 <= gate.BreakdownOf(req).kvCache
  {
    hide KvShare, Calculator.WeightBytesPerRank, Calculator.ReplicatedBytes, ActivationBytes, CommBufferBytes,
         KvElemBytes, Trunc;
    Fp8Share(req);
    KvShareMono(req, req);
    TruncMono(0.0, KvShare(req));
    assert Trunc(0.0) == 0 by { ZeroTrunc(); }
    FloorOfQuotient(KvShare(req), e);
  }

  lemma ZeroTrunc()
    ensures Trunc(0.0) == 0
  {}

  lemma ElemIsWhole(req: FitRequest) returns (e: nat)
    ensures e in {1, 2, 4} && e as real == KvElemBytes(req.kvDtype, req.shape.dtype)
  {
    var x := KvElemBytes(req.kvDtype, req.shape.dtype);
    e := if x == 1.0 then 1 else if x == 2.0 then 2 else 4;
  }

  /** "which fits" is always right. "still short" is wrong in exactly one case: the fp8 cache just fits, and the part
      of a byte the estimate keeps but the gate drops is what put it over. */
  lemma Fp8ClaimExact(gate: Calculator, req: FitRequest, usable: int, e: nat)
    requires gate.CanPrice(req.shape) && e in {1, 2, 4} && e as real == KvElemBytes(req.kvDtype, req.shape.dtype)
    ensures var kv := gate.BreakdownOf(req).kvCache;
      var rest := gate.Total(req) - kv;
      var again := Fits(gate, req.(kvDtype := "fp8"), usable);
      && (Fp8Claim(gate, req, usable) ==> again)
      && (again && !Fp8Claim(gate, req, usable) <==> rest + kv / e == usable && kv % e != 0)
  {
    Fp8Breakdown(gate, req, e);
    hide Calculator.BreakdownOf, KvElemBytes;
    var kv := gate.BreakdownOf(req).kvCache;
    DroppedFraction(gate.Total(req) - kv, kv, e, usable);
  }

  lemma DroppedFraction(rest: int, kv: nat, e: nat, usable: int)
    requires 1 <= e
    ensures rest as real + kv as real / e as real <= usable as real <==>
      rest + kv / e <= usable && !(rest + kv / e == usable && kv % e != 0)
  {
    var d, r := kv / e, kv % e;
    assert kv == d * e + r;
    var f := kv as real / e as real - d as real;
    assert f * e as real == r as real;
    if r == 0 {
      assert f == 0.0;
    } else {
      assert 0.0 < f < 1.0 by { FractionRange(f, r, e); }
    }
  }

  lemma FractionRange(f: real, r: nat, e: nat)
    requires 0 < r < e && f * e as real == r as real
    ensures 0.0 < f < 1.0
  {
    if f <= 0.0 {
      MulMono(f, 0.0, e as real);
    }
    if 1.0 <= f {
      MulMono(1.0, f, e as real);
    }
  }

  lemma Fp8Works(gate: Calculator, req: FitRequest, nodes: seq<NodeProfile>, live: map<string, int>)
    requires gate.CanPrice(req.shape) && nodes != [] && MemoryRefusal(gate, req, nodes, live)
    ensures Works(gate, req, nodes, live, QuantizeCacheToFp8(Fp8Claim(gate, req, Usable(gate, req.plan, nodes, live))))
  {
    hide Check, Passes, Fits, BudgetOf, Participating, Fp8Claim;
    var usable := Usable(gate, req.plan, nodes, live);
    var e := ElemIsWhole(req);
    Fp8ClaimExact(gate, req, usable, e);
    if Fp8Claim(gate, req, usable) {
      PassesIfFits(gate, req, req.(kvDtype := "fp8"), nodes, live);
    }
  }

  // ----- another quantization

  /** Weights at a scheme, per rank, before truncation. */
  function WeightsAt(gate: Calculator, req: FitRequest, price: real): real
    requires req.shape.WellFormed()
  {
    ParamsPerRank(req.shape, req.plan) * price
  }

  lemma RequantizedWeights(gate: Calculator, req: FitRequest, name: string)
    requires gate.CanPrice(req.shape) && name in gate.prices
    ensures gate.WeightBytesPerRank(Requantized(req, name).shape, req.plan, None) == WeightsAt(gate, req, gate.prices[name])
  {
    hide StageFraction;
    Swap((req.shape.totalParams - req.shape.Vision()) as real, gate.prices[name],
         StageFraction(req.shape.numLayers, req.plan.pipelineParallel), req.plan.Tp() as real);
  }

  lemma Swap(a: real, p: real, f: real, t: real)
    requires 0.0 < t
    ensures a * p * f / t == a * f / t * p
  {
    assert a * p * f == a * f * p;
  }

  lemma OnlyDtypeChanged(req: FitRequest, name: string)
    requires req.shape.WellFormed()
    ensures var again := Requantized(req, name).shape;
      && again.WellFormed()
      && PerLayerPerToken(again, "fp8") == PerLayerPerToken(req.shape, "fp8")
      && KvDivisor(again, req.plan) == KvDivisor(req.shape, req.plan)
      && CachedLayerTokens(again, req.context) == CachedLayerTokens(req.shape, req.context)
  {
    hide StageFraction;
  }

  /** One rank's share of the cache once the scheme decides how wide a cached element is. */
  function ShareAt(req: FitRequest, name: string): real
    requires req.shape.WellFormed()
  {
    KvShare(req) * KvElemBytes(req.kvDtype, name) / KvElemBytes(req.kvDtype, req.shape.dtype)
  }

  lemma RescaledShare(req: FitRequest, name: string)
    requires req.shape.WellFormed()
    ensures Requantized(req, name).shape.WellFormed() && KvShare(Requantized(req, name)) == ShareAt(req, name)
  {
    hide PerLayerPerToken, KvElemBytes, KvDivisor, CachedLayerTokens, Max;
    var again := Requantized(req, name);
    OnlyDtypeChanged(req, name);
    PerLayerScales(req.shape, req.kvDtype);
    PerLayerScales(again.shape, req.kvDtype);
    KvDivisorRange(req.shape, req.plan);
    Rescale(PerLayerPerToken(req.shape, "fp8"), KvElemBytes(req.kvDtype, name), KvElemBytes(req.kvDtype, req.shape.dtype),
            CachedLayerTokens(req.shape, req.context) as real, Max(0, req.seqs) as real, KvDivisor(req.shape, req.plan));
  }

  lemma Rescale(p: real, n: real, e: real, t: real, b: real, d: real)
    requires 0.0 < e && 0.0 < d
    ensures p * n * t * b / d == p * e * t * b / d * n / e
  {
    var x := p * t * b;
    assert p * n * t * b == x * n && p * e * t * b == x * e;
    var y := x / d;
    assert x == y * d;
    assert x * n / d == y * n && x * e / d == y * e by {
      assert x * n == y * n * d && x * e == y * e * d;
    }
    assert y * e * n == y * n * e;
  }

  /** The replicated vision weights at a scheme, before truncation. */
  function ReplicatedAt(gate: Calculator, req: FitRequest, name: string): real
    requires name in gate.prices
  {
    req.shape.Vision() as real * gate.prices[name]
  }

  /** Bytes another scheme frees on a rank besides the sharded weights: in the replicated vision weights, and in the cache;
      negative where it widens the cache. */
  function Freed(gate: Calculator, req: FitRequest, name: string): int
    requires gate.CanPrice(req.shape) && name in gate.prices
  {
    var b := gate.BreakdownOf(req);
    b.kvCache - Trunc(ShareAt(req, name)) + b.replicated - Trunc(ReplicatedAt(gate, req, name))
  }

  /** What a scheme must meet to pass: its truncated weights fit what the other terms leave and what it frees in them. */
  predicate SchemeHolds(gate: Calculator, req: FitRequest, usable: int, name: string)
    requires gate.CanPrice(req.shape) && name in gate.prices
  {
    Trunc(WeightsAt(gate, req, gate.prices[name])) <= WeightBudget(gate, req, usable) + Freed(gate, req, name)
  }

  /** Exactly when a scheme passes memory, to the byte, whatever it does to the cache and the vision weights. */
  lemma RequantizedFitsIff(gate: Calculator, req: FitRequest, name: string, usable: int)
    requires gate.CanPrice(req.shape) && name in gate.prices
    ensures gate.CanPrice(Requantized(req, name).shape)
    ensures Fits(gate, Requantized(req, name), usable) <==> SchemeHolds(gate, req, usable, name)
  {
    RequantizedKeeps(gate, req, name);
    RequantizedBreakdown(gate, req, name);
    hide *;
    TotalMoved(gate, req, name);
    ByBudget(gate, req, name, usable);
  }

  lemma TotalMoved(gate: Calculator, req: FitRequest, name: string)
    requires gate.CanPrice(req.shape) && name in gate.prices && gate.CanPrice(Requantized(req, name).shape)
    requires gate.BreakdownOf(Requantized(req, name)) == gate.BreakdownOf(req).(
      weights := Trunc(WeightsAt(gate, req, gate.prices[name])), kvCache := Trunc(ShareAt(req, name)),
      replicated := Trunc(ReplicatedAt(gate, req, name)))
    ensures gate.Total(Requantized(req, name))
      == gate.Total(req) - gate.BreakdownOf(req).weights + Trunc(WeightsAt(gate, req, gate.prices[name])) - Freed(gate, req, name)
  {
    hide Calculator.BreakdownOf, WeightsAt, ShareAt, Trunc, ReplicatedAt, Requantized;
  }

  lemma ByBudget(gate: Calculator, req: FitRequest, name: string, usable: int)
    requires gate.CanPrice(req.shape) && name in gate.prices && gate.CanPrice(Requantized(req, name).shape)
    requires gate.Total(Requantized(req, name))
      == gate.Total(req) - gate.BreakdownOf(req).weights + Trunc(WeightsAt(gate, req, gate.prices[name])) - Freed(gate, req, name)
    ensures Fits(gate, Requantized(req, name), usable) <==> SchemeHolds(gate, req, usable, name)
  {
    hide Calculator.BreakdownOf, Calculator.Total, WeightsAt, ShareAt, Trunc, ReplicatedAt, Requantized, Freed;
  }

  lemma RequantizedBreakdown(gate: Calculator, req: FitRequest, name: string)
    requires gate.CanPrice(req.shape) && name in gate.prices
    ensures gate.CanPrice(Requantized(req, name).shape)
    ensures gate.BreakdownOf(Requantized(req, name)) == gate.BreakdownOf(req).(
      weights := Trunc(WeightsAt(gate, req, gate.prices[name])), kvCache := Trunc(ShareAt(req, name)),
      replicated := Trunc(ReplicatedAt(gate, req, name)))
  {
    hide KvShare, Calculator.WeightBytesPerRank, Calculator.ReplicatedBytes, WeightsAt, ShareAt, ReplicatedAt, Trunc,
         ActivationBytes, CommBufferBytes;
    RequantizedKeeps(gate, req, name);
    RequantizedWeights(gate, req, name);
    RescaledShare(req, name);
    SameOtherTerms(gate, req, name);
  }

  lemma SameOtherTerms(gate: Calculator, req: FitRequest, name: string)
    requires gate.CanPrice(req.shape) && name in gate.prices
    ensures gate.CanPrice(Requantized(req, name).shape)
    ensures gate.ReplicatedBytes(Requantized(req, name).shape) == ReplicatedAt(gate, req, name)
    ensures ActivationBytes(Requantized(req, name).shape, req.seqs, req.context, gate.chunkTokens)
      == ActivationBytes(req.shape, req.seqs, req.context, gate.chunkTokens)
  {
    SameVision(req.shape, name);
    hide ModelShape.Vision;
  }

  lemma SameVision(shape: ModelShape, name: string)
    ensures shape.(dtype := name).Vision() == shape.Vision()
  {}

  /** A smaller scheme that does not widen the cache only ever frees bytes. */
  lemma FreedNonneg(gate: Calculator, req: FitRequest, name: string)
    requires gate.CanPrice(req.shape) && name in gate.prices
    requires gate.prices[name] <= gate.BytesPerParam(req.shape) && CacheNoWider(req, name)
    ensures 0 <= Freed(gate, req, name)
  {
    hide KvShare, Trunc, Calculator.WeightBytesPerRank, Calculator.ReplicatedBytes, ActivationBytes, CommBufferBytes,
         ShareAt, ReplicatedAt;
    CheaperTerms(gate, req, name);
    TruncMono(ShareAt(req, name), KvShare(req));
    TruncMono(ReplicatedAt(gate, req, name), gate.ReplicatedBytes(req.shape));
  }

  lemma CheaperTerms(gate: Calculator, req: FitRequest, name: string)
    requires gate.CanPrice(req.shape) && name in gate.prices
    requires gate.prices[name] <= gate.BytesPerParam(req.shape) && CacheNoWider(req, name)
    ensures ShareAt(req, name) <= KvShare(req)
    ensures ReplicatedAt(gate, req, name) <= gate.ReplicatedBytes(req.shape)
  {
    hide KvShare, KvElemBytes, ModelShape.Vision;
    MulMono(gate.prices[name], gate.BytesPerParam(req.shape), req.shape.Vision() as real);
    KvShareMono(req, req);
    ScaledDown(KvShare(req), KvElemBytes(req.kvDtype, name), KvElemBytes(req.kvDtype, req.shape.dtype));
  }

  lemma ScaledDown(x: real, n: real, e: real)
    requires 0.0 <= x && 0.0 < e && n <= e
    ensures x * n / e <= x
  {
    MulMono(n, e, x);
    DivMono(x * n, x * e, e);
    assert x * e / e == x;
  }

  /** None of these schemes is both smaller than the current one and within the allowance. */
  ghost predicate AllDearer(prices: Prices, names: seq<string>, current: real, allowed: real) {
    forall name <- names :: name in prices && prices[name] < current ==> allowed < prices[name]
  }

  lemma {:induction false} FirstAffordableExact(prices: Prices, order: seq<string>, current: real, allowed: real)
    requires OrderPriced(prices, order)
    ensures var r := FirstAffordable(prices, order, current, allowed);
      && (r.Some? ==> r.value in order && r.value in prices && prices[r.value] < current && prices[r.value] <= allowed)
      && (r.None? ==> AllDearer(prices, order, current, allowed))
      && (r.Some? ==> exists k :: 0 <= k < |order| && order[k] == r.value && AllDearer(prices, order[..k], current, allowed))
  {
    if order != [] {
      FirstAffordableExact(prices, order[1..], current, allowed);
      var r, rest := FirstAffordable(prices, order, current, allowed), FirstAffordable(prices, order[1..], current, allowed);
      if prices[order[0]] < current && prices[order[0]] <= allowed {
        assert order[0] == r.value && AllDearer(prices, order[..0], current, allowed);
      } else if rest.Some? {
        var k :| 0 <= k < |order[1..]| && order[1..][k] == rest.value && AllDearer(prices, order[1..][..k], current, allowed);
        assert order[..k + 1] == [order[0]] + order[1..][..k];
        assert order[k + 1] == r.value;
      } else {
        assert order == [order[0]] + order[1..];
      }
    }
  }

  lemma AllowedIff(params: real, budget: real, price: real)
    requires 0.0 < params
    ensures price <= budget / params <==> params * price <= budget
  {
    var q := budget / params;
    assert q * params == budget;
    if price <= q {
      MulMono(price, q, params);
    } else {
      StrictMul(q, price, params);
    }
  }

  lemma StrictMul(a: real, b: real, c: real)
    requires a < b && 0.0 < c
    ensures a * c < b * c
  {
    assert 0.0 < (b - a) * c;
  }

  /** What the suggestion means: the scheme is in the order, smaller than the current one, and its weights fit what
      the other terms leave; every better-quality smaller scheme does not. */
  lemma SuggestionExact(gate: Calculator, req: FitRequest, usable: int)
    requires gate.CanPrice(req.shape) && PositivePrices(gate.prices)
    ensures var r := SuggestQuant(gate, req, usable);
      var budget := WeightBudget(gate, req, usable) as real;
      && (r.Some? ==>
            && r.value in gate.prices && gate.prices[r.value] < gate.BytesPerParam(req.shape)
            && WeightsAt(gate, req, gate.prices[r.value]) <= budget
            && (exists k :: 0 <= k < |QUANT_SUGGESTION_ORDER| && QUANT_SUGGESTION_ORDER[k] == r.value
                  && forall name <- QUANT_SUGGESTION_ORDER[..k] :: Unaffordable(gate, req, usable, name)))
      && (r.None? && 0.0 < ParamsPerRank(req.shape, req.plan) ==>
            forall name <- QUANT_SUGGESTION_ORDER :: Unaffordable(gate, req, usable, name))
  {
    hide ParamsPerRank, WeightBudget, QUANT_SUGGESTION_ORDER;
    var budget := WeightBudget(gate, req, usable);
    var params := ParamsPerRank(req.shape, req.plan);
    if 0.0 < params {
      forall price: real ensures price <= budget as real / params <==> WeightsAt(gate, req, price) <= budget as real {
        AllowedIff(params, budget as real, price);
      }
      FirstAffordableExact(gate.prices, QUANT_SUGGESTION_ORDER, gate.BytesPerParam(req.shape), budget as real / params);
      if budget <= 0 {
        forall name <- QUANT_SUGGESTION_ORDER ensures Unaffordable(gate, req, usable, name) {
          if name in gate.prices {
            assert 0.0 < params * gate.prices[name];
          }
        }
      }
    }
  }

  /** A smaller scheme whose weights, before truncation, exceed what the other terms leave. */
  ghost predicate Unaffordable(gate: Calculator, req: FitRequest, usable: int, name: string)
    requires gate.CanPrice(req.shape)
  {
    name in gate.prices && gate.prices[name] < gate.BytesPerParam(req.shape) ==>
      WeightBudget(gate, req, usable) as real < WeightsAt(gate, req, gate.prices[name])
  }

  /** What becomes of the scheme a refusal names: it passes exactly when it holds, and it holds unless it widens the
      cache. */
  lemma RequantizeWorks(gate: Calculator, req: FitRequest, nodes: seq<NodeProfile>, live: map<string, int>, name: string)
    requires gate.CanPrice(req.shape) && PositivePrices(gate.prices) && nodes != [] && MemoryRefusal(gate, req, nodes, live)
    requires SuggestQuant(gate, req, Usable(gate, req.plan, nodes, live)) == Some(name)
    ensures Works(gate, req, nodes, live, Requantize(name))
  {
    var usable := Usable(gate, req.plan, nodes, live);
    SuggestionExact(gate, req, usable);
    RequantizedFitsIff(gate, req, name, usable);
    RequantizedKeeps(gate, req, name);
    hide Check, Passes, BudgetOf, Participating, SuggestQuant, WeightsAt, CacheNoWider, Calculator.BreakdownOf, Requantized, Trunc,
         Freed, RanksShort, Fits, PastWindow;
    if CacheNoWider(req, name) {
      FreedNonneg(gate, req, name);
      TruncAtMost(WeightsAt(gate, req, gate.prices[name]), WeightBudget(gate, req, usable));
    }
    if Fits(gate, Requantized(req, name), usable) {
      PassesIfFits(gate, req, Requantized(req, name), nodes, live);
    } else {
      RefusedIff(gate, Requantized(req, name), nodes, live);
    }
  }

  lemma RequantizedKeeps(gate: Calculator, req: FitRequest, name: string)
    requires gate.CanPrice(req.shape) && name in gate.prices
    ensures Requantized(req, name).plan == req.plan && gate.CanPrice(Requantized(req, name).shape)
  {}

  lemma TruncAtMost(x: real, n: int)
    ensures x <= n as real ==> Trunc(x) <= n
    ensures 0.0 <= x ==> (Trunc(x) <= n <==> x < (n + 1) as real)
  {}

  /** A scheme that would shrink the model. */
  predicate Smaller(gate: Calculator, req: FitRequest, name: string)
    requires gate.CanPrice(req.shape)
  {
    name in gate.prices && gate.prices[name] < gate.BytesPerParam(req.shape)
  }

  /** Of the quality order, the first smaller scheme that passes memory is the `k`th. */
  ghost predicate FirstThatFits(gate: Calculator, req: FitRequest, usable: int, k: nat)
    requires gate.CanPrice(req.shape) && k < |QUANT_SUGGESTION_ORDER|
  {
    && Smaller(gate, req, QUANT_SUGGESTION_ORDER[k]) && Fits(gate, Requantized(req, QUANT_SUGGESTION_ORDER[k]), usable)
    && forall i :: 0 <= i < k && Smaller(gate, req, QUANT_SUGGESTION_ORDER[i]) ==>
      !Fits(gate, Requantized(req, QUANT_SUGGESTION_ORDER[i]), usable)
  }

  /** A smaller scheme the suggestion passes over although it holds: its weights alone exceed what the other terms leave,
      but what it frees in those terms, or the fraction of a byte truncation drops, makes up for it. */
  predicate Overlooked(gate: Calculator, req: FitRequest, usable: int, name: string)
    requires gate.CanPrice(req.shape)
  {
    && Smaller(gate, req, name)
    && WeightBudget(gate, req, usable) as real < WeightsAt(gate, req, gate.prices[name])
    && SchemeHolds(gate, req, usable, name)
  }

  /** The scheme suggested is the first of the order that passes if and only if it holds and none before it is overlooked. */
  lemma SuggestionFirstIff(gate: Calculator, req: FitRequest, usable: int) returns (k: nat)
    requires gate.CanPrice(req.shape) && PositivePrices(gate.prices) && SuggestQuant(gate, req, usable).Some?
    ensures k < |QUANT_SUGGESTION_ORDER| && SuggestQuant(gate, req, usable) == Some(QUANT_SUGGESTION_ORDER[k])
    ensures Smaller(gate, req, QUANT_SUGGESTION_ORDER[k])
    ensures FirstThatFits(gate, req, usable, k) <==>
      && SchemeHolds(gate, req, usable, QUANT_SUGGESTION_ORDER[k])
      && forall i :: 0 <= i < k ==> !Overlooked(gate, req, usable, QUANT_SUGGESTION_ORDER[i])
  {
    SuggestionExact(gate, req, usable);
    hide QUANT_SUGGESTION_ORDER, SuggestQuant, WeightsAt, WeightBudget, SchemeHolds, Fits, Requantized;
    k :| 0 <= k < |QUANT_SUGGESTION_ORDER| && Some(QUANT_SUGGESTION_ORDER[k]) == SuggestQuant(gate, req, usable)
         && forall name <- QUANT_SUGGESTION_ORDER[..k] :: Unaffordable(gate, req, usable, name);
    RequantizedFitsIff(gate, req, QUANT_SUGGESTION_ORDER[k], usable);
    forall i | 0 <= i < k && Smaller(gate, req, QUANT_SUGGESTION_ORDER[i])
      ensures Fits(gate, Requantized(req, QUANT_SUGGESTION_ORDER[i]), usable) <==> Overlooked(gate, req, usable, QUANT_SUGGESTION_ORDER[i])
    {
      assert QUANT_SUGGESTION_ORDER[i] in QUANT_SUGGESTION_ORDER[..k];
      RequantizedFitsIff(gate, req, QUANT_SUGGESTION_ORDER[i], usable);
    }
  }

  /** Where no scheme is suggested for a model with parameters to shrink, none passes if and only if none is overlooked. */
  lemma NoSuggestionIff(gate: Calculator, req: FitRequest, usable: int)
    requires gate.CanPrice(req.shape) && PositivePrices(gate.prices)
    requires SuggestQuant(gate, req, usable).None? && 0.0 < ParamsPerRank(req.shape, req.plan)
    ensures (forall name <- QUANT_SUGGESTION_ORDER :: Smaller(gate, req, name) ==> !Fits(gate, Requantized(req, name), usable))
      <==> forall name <- QUANT_SUGGESTION_ORDER :: !Overlooked(gate, req, usable, name)
  {
    SuggestionExact(gate, req, usable);
    hide QUANT_SUGGESTION_ORDER, SuggestQuant, WeightsAt, WeightBudget, SchemeHolds, Fits, Requantized;
    forall name <- QUANT_SUGGESTION_ORDER | Smaller(gate, req, name)
      ensures Fits(gate, Requantized(req, name), usable) <==> Overlooked(gate, req, usable, name)
    {
      assert Unaffordable(gate, req, usable, name);
      RequantizedFitsIff(gate, req, name, usable);
    }
  }

  /** With no vision tower and a cache whose width the scheme leaves alone, nothing else is freed, and only the dropped
      fraction of a byte can make the suggestion overlook a scheme. */
  lemma OverlookedByAFraction(gate: Calculator, req: FitRequest, usable: int, name: string)
    requires gate.CanPrice(req.shape) && PositivePrices(gate.prices) && Smaller(gate, req, name)
    requires req.shape.Vision() == 0 && KvElemBytes(req.kvDtype, name) == KvElemBytes(req.kvDtype, req.shape.dtype)
    ensures Freed(gate, req, name) == 0
    ensures Overlooked(gate, req, usable, name) <==>
      WeightBudget(gate, req, usable) as real < WeightsAt(gate, req, gate.prices[name]) < (WeightBudget(gate, req, usable) + 1) as real
  {
    NothingFreed(gate, req, name);
    WeightsNonneg(gate, req, name);
    hide Calculator.BreakdownOf, WeightsAt, Trunc, WeightBudget, Freed;
    TruncAtMost(WeightsAt(gate, req, gate.prices[name]), WeightBudget(gate, req, usable));
  }

  lemma NothingFreed(gate: Calculator, req: FitRequest, name: string)
    requires gate.CanPrice(req.shape) && name in gate.prices
    requires req.shape.Vision() == 0 && KvElemBytes(req.kvDtype, name) == KvElemBytes(req.kvDtype, req.shape.dtype)
    ensures Freed(gate, req, name) == 0
  {
    hide KvShare, KvElemBytes, Trunc, Calculator.WeightBytesPerRank, ActivationBytes, CommBufferBytes;
    var e := KvElemBytes(req.kvDtype, name);
    assert KvShare(req) * e / e == KvShare(req);
    assert gate.ReplicatedBytes(req.shape) == 0.0 == ReplicatedAt(gate, req, name);
  }

  lemma WeightsNonneg(gate: Calculator, req: FitRequest, name: string)
    requires gate.CanPrice(req.shape) && PositivePrices(gate.prices) && name in gate.prices
    ensures 0.0 <= WeightsAt(gate, req, gate.prices[name])
  {
    RequantizedWeights(gate, req, name);
    RequantizedKeeps(gate, req, name);
    StageFractionRange(req.shape.numLayers, req.plan.pipelineParallel);
    hide StageFraction, WeightsAt, Calculator.ShardableBytes;
    var again := Requantized(req, name).shape;
    ShardableNonneg(gate, again, None);
    ShareNonneg(gate.ShardableBytes(again, None), StageFraction(again.numLayers, req.plan.pipelineParallel), req.plan.Tp() as real);
  }

  // ----- more machines

  /** What the gate's own prefill chunk costs over the default one; it does not depend on the plan. */
  function ChunkSlack(gate: Calculator, req: FitRequest): int {
    ActivationBytes(req.shape, req.seqs, req.context, gate.chunkTokens)
    - ActivationBytes(req.shape, req.seqs, req.context, ACTIVATION_CHUNK_TOKENS)
  }

  lemma SearcherTotal(gate: Calculator, req: FitRequest)
    requires gate.CanPrice(req.shape)
    ensures gate.Total(req) == Searcher(gate).Total(req) + ChunkSlack(gate, req)
  {
    hide KvShare, Calculator.WeightBytesPerRank, Calculator.ReplicatedBytes, ActivationBytes, Trunc;
    SearcherSame(gate, req);
  }

  lemma SearcherSame(gate: Calculator, req: FitRequest)
    requires gate.CanPrice(req.shape)
    ensures Searcher(gate).WeightBytesPerRank(req.shape, req.plan, req.weightBytes) == gate.WeightBytesPerRank(req.shape, req.plan, req.weightBytes)
    ensures Searcher(gate).ReplicatedBytes(req.shape) == gate.ReplicatedBytes(req.shape)
  {
    hide StageFraction, ModelShape.Vision, OrderPriced, Calculator.ShardableBytes;
    assert Searcher(gate).BytesPerParam(req.shape) == gate.BytesPerParam(req.shape);
    SearcherShardable(gate, req);
  }

  lemma SearcherShardable(gate: Calculator, req: FitRequest)
    requires gate.CanPrice(req.shape)
    ensures Searcher(gate).ShardableBytes(req.shape, req.weightBytes) == gate.ShardableBytes(req.shape, req.weightBytes)
  {
    hide ModelShape.Vision, OrderPriced, Calculator.BytesPerParam;
    assert Searcher(gate).BytesPerParam(req.shape) == gate.BytesPerParam(req.shape) by { SearcherPrice(gate, req.shape); }
  }

  lemma SearcherPrice(gate: Calculator, shape: ModelShape)
    requires gate.CanPrice(shape)
    ensures Searcher(gate).CanPrice(shape) && Searcher(gate).BytesPerParam(shape) == gate.BytesPerParam(shape)
  {
    hide OrderPriced;
  }

  /** A rank count holds the request under the gate's own chunk exactly when the search, at the budget less the slack, says
      so. */
  lemma SplitHoldsIff(gate: Calculator, req: FitRequest, n: nat, usable: int)
    requires gate.CanPrice(req.shape)
    ensures SplitHolds(gate, req, n, usable) <==> SomeSplitFits(gate, req, usable - ChunkSlack(gate, req), n)
  {
    hide LegalSplit, Calculator.Total, ChunkSlack;
    forall tp: nat, pp: nat
      ensures Fits(gate, req.(plan := Split(tp, pp)), usable) <==> FitsSplit(gate, req, usable - ChunkSlack(gate, req), Split(tp, pp))
    {
      SearcherTotal(gate, req.(plan := Split(tp, pp)));
      SlackOfPlan(gate, req, Split(tp, pp));
    }
  }

  lemma SlackOfPlan(gate: Calculator, req: FitRequest, plan: ParallelismPlan)
    ensures ChunkSlack(gate, req.(plan := plan)) == ChunkSlack(gate, req)
  {}

  /** The least count up to the search ceiling that holds the request, or 0 for none. */
  ghost predicate LeastHolding(gate: Calculator, req: FitRequest, n: nat, usable: int)
    requires gate.CanPrice(req.shape)
  {
    && (n != 0 ==> n <= MAX_SEARCH_NODES && SplitHolds(gate, req, n, usable))
    && forall k: nat :: 1 <= k <= MAX_SEARCH_NODES && (n == 0 || k < n) ==> !SplitHolds(gate, req, k, usable)
  }

  /** The count named is the least that holds the request at the budget moved by the slack; so it is right as it stands
      when the chunks agree, and right on one side when they do not. */
  lemma SpreadWorks(gate: Calculator, req: FitRequest, nodes: seq<NodeProfile>, live: map<string, int>)
    requires gate.CanPrice(req.shape) && nodes != []
    ensures Works(gate, req, nodes, live, NodesPhrase(gate, req, BudgetOf(gate, Participating(req.plan, nodes), live)))
  {
    hide BudgetOf, Participating, SplitHolds, PhraseBudget, ChunkSlack, MinNodes, LeastHolding;
    var usable := PhraseBudget(gate, BudgetOf(gate, Participating(req.plan, nodes), live));
    LeastIs(gate, req, usable);
    LeastShifted(gate, req, Max(0, MinNodes(gate, req, usable)), usable, ChunkSlack(gate, req));
  }

  lemma LeastIs(gate: Calculator, req: FitRequest, usable: int)
    requires gate.CanPrice(req.shape)
    ensures var n := MinNodes(gate, req, usable);
      (n == -1 || 1 <= n) && LeastHolding(gate, req, Max(0, n), usable + ChunkSlack(gate, req))
  {
    hide SplitHolds, SomeSplitFits, ChunkSlack;
    var n, moved := MinNodes(gate, req, usable), usable + ChunkSlack(gate, req);
    MinNodesFromLeast(gate, req, usable, 1);
    if n != -1 {
      SplitHoldsIff(gate, req, n, moved);
    }
    forall k: nat | 1 <= k <= MAX_SEARCH_NODES && (n == -1 || k < n) ensures !SplitHolds(gate, req, k, moved) {
      SplitHoldsIff(gate, req, k, moved);
      assert moved - ChunkSlack(gate, req) == usable;
    }
  }

  lemma LeastShifted(gate: Calculator, req: FitRequest, n: nat, budget: int, slack: int)
    requires gate.CanPrice(req.shape) && LeastHolding(gate, req, n, budget + slack)
    ensures n != 0 && slack <= 0 ==> SplitHolds(gate, req, n, budget)
    ensures 0 <= slack ==>
      forall k: nat :: 1 <= k <= MAX_SEARCH_NODES && (n == 0 || k < n) ==> !SplitHolds(gate, req, k, budget)
    ensures n != 0 ==> n <= MAX_SEARCH_NODES
  {
    hide SplitHolds;
    if n != 0 && slack <= 0 {
      SplitHoldsMono(gate, req, n, budget + slack, budget);
    }
    if 0 <= slack {
      forall k: nat | 1 <= k <= MAX_SEARCH_NODES && (n == 0 || k < n) ensures !SplitHolds(gate, req, k, budget) {
        if SplitHolds(gate, req, k, budget) {
          SplitHoldsMono(gate, req, k, budget, budget + slack);
        }
      }
    }
  }

  lemma SplitHoldsMono(gate: Calculator, req: FitRequest, n: nat, low: int, high: int)
    requires gate.CanPrice(req.shape) && low <= high && SplitHolds(gate, req, n, low)
    ensures SplitHolds(gate, req, n, high)
  {
    hide LegalSplit, Calculator.Total;
    var tp: nat, pp: nat :| LegalSplit(req.shape, n, tp, pp) && Fits(gate, req.(plan := Split(tp, pp)), low);
    assert Fits(gate, req.(plan := Split(tp, pp)), high);
  }

  // ----- what is offered

  /** A refusal blamed on the cache leaves no working change unsaid: a shorter context, fewer sequences and a narrower
      cache are each offered exactly when there is one. */
  lemma CacheRefusalOffers(gate: Calculator, req: FitRequest, nodes: seq<NodeProfile>, live: map<string, int>)
    requires gate.CanPrice(req.shape) && nodes != []
    requires Check(gate, req, nodes, live).limitingTerm == KvCacheTerm
    ensures var usable := Usable(gate, req.plan, nodes, live);
      var offered := Check(gate, req, nodes, live).remedies;
      && ((exists c :: DropContext(c) in offered) <==> FitsContext(gate, req, usable, CONTEXT_ROUNDING))
      && ((exists n :: ReduceConcurrency(n) in offered) <==> 2 <= req.seqs && FitsSeqs(gate, req, usable, 1))
      && ((exists claim :: QuantizeCacheToFp8(claim) in offered) <==> 1.0 < KvElemBytes(req.kvDtype, req.shape.dtype))
  {
    hide Check, MaxContext, MaxSeqs, SuggestQuant, Fp8Claim, MinNodes, Calculator.BreakdownOf, BudgetOf, Participating, FitsContext,
         FitsSeqs, KvElemBytes;
    CheckParts(gate, req, nodes, live);
    var usable := Usable(gate, req.plan, nodes, live);
    MaxContextExact(gate, req, usable);
    MaxSeqsExact(gate, req, usable, req.seqs - 1);
    var offered := Check(gate, req, nodes, live).remedies;
    var best, seqs := MaxContext(gate, req, usable), MaxSeqs(gate, req, usable, req.seqs - 1);
    assert CONTEXT_ROUNDING <= best ==> DropContext(best) in offered;
    assert 1 <= seqs ==> ReduceConcurrency(seqs) in offered;
    assert 1.0 < KvElemBytes(req.kvDtype, req.shape.dtype) ==> QuantizeCacheToFp8(Fp8Claim(gate, req, usable)) in offered;
  }

  /** What a memory refusal offers by the term it is blamed on: a machine to use always; another scheme exactly when there is
      one, but not for the cache; fewer sequences exactly when some fit, but not for the weights; a shorter context and a
      narrower cache for the cache alone. */
  lemma OffersByBlame(gate: Calculator, req: FitRequest, nodes: seq<NodeProfile>, live: map<string, int>)
    requires gate.CanPrice(req.shape) && nodes != [] && MemoryRefusal(gate, req, nodes, live)
    ensures var usable := Usable(gate, req.plan, nodes, live);
      var r := Check(gate, req, nodes, live);
      && (exists remedy <- r.remedies :: remedy.SpreadOver? || remedy.DifferentMachine? || remedy.MachineWithGpu?)
      && ((exists name :: Requantize(name) in r.remedies) <==>
            r.limitingTerm != KvCacheTerm && SuggestQuant(gate, req, usable).Some?)
      && ((exists n :: ReduceConcurrency(n) in r.remedies) <==>
            r.limitingTerm != WeightsTerm && 2 <= req.seqs && FitsSeqs(gate, req, usable, 1))
      && ((exists c :: DropContext(c) in r.remedies) ==> r.limitingTerm == KvCacheTerm)
      && ((exists claim :: QuantizeCacheToFp8(claim) in r.remedies) ==> r.limitingTerm == KvCacheTerm)
  {
    hide Check, Remedies, MaxSeqs, SuggestQuant, MinNodes, Diagnose, Calculator.BreakdownOf, BudgetOf, Participating, FitsSeqs;
    CheckParts(gate, req, nodes, live);
    var usable := Usable(gate, req.plan, nodes, live);
    MaxSeqsExact(gate, req, usable, req.seqs - 1);
    Offered(gate, req, BudgetOf(gate, Participating(req.plan, nodes), live));
  }

  /** Which kinds of remedy stand in the list, by the term. */
  lemma Offered(gate: Calculator, req: FitRequest, budget: Budget)
    requires gate.CanPrice(req.shape)
    ensures var term, remedies := Diagnose(gate.BreakdownOf(req), budget.usable), Remedies(gate, req, budget);
      && term in {WeightsTerm, KvCacheTerm, CombinedTerm}
      && (exists remedy <- remedies :: remedy.SpreadOver? || remedy.DifferentMachine? || remedy.MachineWithGpu?)
      && ((exists name :: Requantize(name) in remedies) <==> term != KvCacheTerm && SuggestQuant(gate, req, budget.usable).Some?)
      && ((exists n :: ReduceConcurrency(n) in remedies) <==>
            term != WeightsTerm && 1 <= MaxSeqs(gate, req, budget.usable, req.seqs - 1))
      && ((exists c :: DropContext(c) in remedies) ==> term == KvCacheTerm)
      && ((exists claim :: QuantizeCacheToFp8(claim) in remedies) ==> term == KvCacheTerm)
  {
    hide MaxContext, MaxSeqs, SuggestQuant, Fp8Claim, MinNodes, PhraseBudget, Calculator.BreakdownOf, KvElemBytes;
    var remedies, term := Remedies(gate, req, budget), Diagnose(gate.BreakdownOf(req), budget.usable);
    var seqs, quant := MaxSeqs(gate, req, budget.usable, req.seqs - 1), SuggestQuant(gate, req, budget.usable);
    assert term != WeightsTerm && 1 <= seqs ==> ReduceConcurrency(seqs) in remedies;
    assert term != KvCacheTerm && quant.Some? ==> Requantize(quant.value) in remedies;
    assert NodesPhrase(gate, req, budget) in remedies;
  }
}
