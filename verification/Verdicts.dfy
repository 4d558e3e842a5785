/** What the launch gate's answers guarantee: exact grounds for refusal, verdicts that never worsen when less is
    asked or more is free, and remedies that work when tried. */
module Verdicts {
  import opened Numbers
  import opened Contracts
  import opened Kv
  import opened Memory
  import opened Search
  import opened Nodes
  import opened Gate

  function Usable(gate: Calculator, plan: ParallelismPlan, nodes: seq<NodeProfile>, live: map<string, int>): int
    requires nodes != []
  {
    BudgetOf(gate, Participating(plan, nodes), live).usable
  }

  predicate RanksShort(plan: ParallelismPlan, nodes: seq<NodeProfile>)
    requires nodes != []
  {
    Ranks(Participating(plan, nodes)) < plan.WorldSize()
  }

  /** A refusal has exactly three grounds: too few ranks, too little memory, too long a context. */
  lemma RefusedIff(gate: Calculator, req: FitRequest, nodes: seq<NodeProfile>, live: map<string, int>)
    requires gate.CanPrice(req.shape) && nodes != []
    ensures Check(gate, req, nodes, live).verdict == WontFit <==>
      RanksShort(req.plan, nodes) || !Fits(gate, req, Usable(gate, req.plan, nodes, live)) || PastWindow(req)
  {
    hide Participating, BudgetOf, Calculator.BreakdownOf, MaxContext, Ranks, PredictDecodeTps, Remedies, KvCacheBytes, MinBandwidth;
  }

  /** A context the gate reports is positive on a refusal, really fits, and under a context refusal passes the gate. */
  lemma ReportedContextFits(gate: Calculator, req: FitRequest, nodes: seq<NodeProfile>, live: map<string, int>)
    requires gate.CanPrice(req.shape) && nodes != []
    ensures var r := Check(gate, req, nodes, live);
      && (r.verdict == WontFit && r.maxContext.Some? ==> 0 < r.maxContext.value)
      && (r.maxContext.Some? && 0 < r.maxContext.value ==>
            FitsContext(gate, req, Usable(gate, req.plan, nodes, live), r.maxContext.value))
      && (r.limitingTerm == ContextTerm && r.maxContext.Some? ==>
            Check(gate, req.(context := r.maxContext.value), nodes, live).verdict != WontFit)
  {
    hide Participating, BudgetOf, Calculator.BreakdownOf, MaxContext, Ranks, PredictDecodeTps, Remedies, KvCacheBytes,
         MinBandwidth, Check, FitsContext;
    MaxContextExact(gate, req, Usable(gate, req.plan, nodes, live));
    CheckParts(gate, req, nodes, live);
    RefusedIff(gate, req, nodes, live);
    var r := Check(gate, req, nodes, live);
    if r.maxContext.Some? {
      var shorter := req.(context := r.maxContext.value);
      RefusedIff(gate, shorter, nodes, live);
      FitsContextIsFits(gate, req, Usable(gate, req.plan, nodes, live), r.maxContext.value);
    }
  }

  lemma FitsContextIsFits(gate: Calculator, req: FitRequest, usable: int, context: int)
    requires gate.CanPrice(req.shape)
    ensures FitsContext(gate, req, usable, context) == Fits(gate, req.(context := context), usable)
  {}

  /** The branch the gate takes fixes what it reports. */
  lemma CheckParts(gate: Calculator, req: FitRequest, nodes: seq<NodeProfile>, live: map<string, int>)
    requires gate.CanPrice(req.shape) && nodes != []
    ensures var r := Check(gate, req, nodes, live);
      var usable := Usable(gate, req.plan, nodes, live);
      var best := MaxContext(gate, req, usable);
      && r.usable == usable
      && r.headroom == usable - gate.Total(req)
      && (RanksShort(req.plan, nodes) ==> r.maxContext == None && r.limitingTerm == CombinedTerm && r.remedies == [])
      && (!RanksShort(req.plan, nodes) && !Fits(gate, req, usable) ==>
            && r.maxContext == Reported(best) && r.limitingTerm == Diagnose(gate.BreakdownOf(req), usable)
            && r.remedies == Remedies(gate, req, BudgetOf(gate, Participating(req.plan, nodes), live)))
      && (!RanksShort(req.plan, nodes) && Fits(gate, req, usable) ==> r.remedies == [])
      && (!RanksShort(req.plan, nodes) && Fits(gate, req, usable) && PastWindow(req) ==>
            r.maxContext == Reported(Min(best, req.nativeWindow.value)) && r.limitingTerm == ContextTerm)
      && (!RanksShort(req.plan, nodes) && Fits(gate, req, usable) && !PastWindow(req) ==>
            r.maxContext == Some(best) && r.limitingTerm in {NoTerm, BandwidthTerm})
  {
    hide Participating, BudgetOf, Calculator.BreakdownOf, MaxContext, Ranks, PredictDecodeTps, Remedies, KvCacheBytes, MinBandwidth;
  }

  // ----- monotone verdicts

  function Severity(v: Verdict): nat {
    match v case Fitting => 0 case FitsDegraded => 1 case WontFit => 2
  }

  /** The same nodes polled, every live figure at least as high. */
  ghost predicate MoreLive(low: map<string, int>, high: map<string, int>) {
    low.Keys == high.Keys && forall id <- low :: low[id] <= high[id]
  }

  lemma {:induction false} BudgetsMono(gate: Calculator, used: seq<NodeProfile>, low: map<string, int>, high: map<string, int>)
    requires MoreLive(low, high)
    ensures Budgets(gate, used, low).Keys == Budgets(gate, used, high).Keys
    ensures forall id <- Budgets(gate, used, low) :: Budgets(gate, used, low)[id] <= Budgets(gate, used, high)[id]
  {
    if used != [] {
      BudgetsMono(gate, used[..|used| - 1], low, high);
    }
  }

  lemma UsableMono(gate: Calculator, plan: ParallelismPlan, nodes: seq<NodeProfile>, low: map<string, int>, high: map<string, int>)
    requires nodes != [] && MoreLive(low, high)
    ensures Usable(gate, plan, nodes, low) <= Usable(gate, plan, nodes, high)
  {
    hide UsableMemory;
    var used := Participating(plan, nodes);
    BudgetsMono(gate, used, low, high);
    BudgetsCover(gate, used, low);
    var costs, other := Costs(gate, used, low), Costs(gate, used, high);
    forall i | 0 <= i < |used| ensures costs[i] <= other[i] {
      assert used[i] in used;
    }
  }

  /** Bytes one decoded token moves. */
  function DecodeBytes(gate: Calculator, req: FitRequest): real
    requires gate.CanPrice(req.shape)
  {
    req.shape.ActiveParams() as real * gate.BytesPerParam(req.shape) + KvCacheBytes(req.shape, req.context, 1, req.kvDtype)
  }

  lemma DecodeRateAnti(gate: Calculator, a: FitRequest, b: FitRequest, bandwidth: real)
    requires gate.CanPrice(a.shape) && a.shape == b.shape && a.kvDtype == b.kvDtype && a.context <= b.context
    requires 0.0 < DecodeBytes(gate, a)
    ensures PredictDecodeTps(gate, b.shape, bandwidth, KvCacheBytes(b.shape, b.context, 1, b.kvDtype))
         <= PredictDecodeTps(gate, a.shape, bandwidth, KvCacheBytes(a.shape, a.context, 1, a.kvDtype))
  {
    hide KvCacheBytes, Calculator.BytesPerParam;
    KvCacheMono(a.shape, a.context, b.context, 1, 1, a.kvDtype);
    if 0.0 < bandwidth {
      DivAnti(bandwidth * 1000000000.0, DecodeBytes(gate, a), DecodeBytes(gate, b));
    }
  }

  /** Asking for less, or having more free, never worsens the verdict. A refusal cannot appear at all; a usable rate
      cannot be lost either, as long as a decoded token moves anything. */
  lemma VerdictMono(gate: Calculator, a: FitRequest, b: FitRequest, nodes: seq<NodeProfile>,
                    liveA: map<string, int>, liveB: map<string, int>)
    requires gate.CanPrice(a.shape) && nodes != []
    requires b == a.(context := b.context, seqs := b.seqs) && a.context <= b.context && a.seqs <= b.seqs
    requires MoreLive(liveB, liveA)
    ensures Check(gate, b, nodes, liveB).verdict != WontFit ==> Check(gate, a, nodes, liveA).verdict != WontFit
    ensures 0.0 < DecodeBytes(gate, a) ==>
      Severity(Check(gate, a, nodes, liveA).verdict) <= Severity(Check(gate, b, nodes, liveB).verdict)
  {
    hide Usable, Check, Fits, DecodeBytes;
    UsableMono(gate, a.plan, nodes, liveB, liveA);
    RefusedIff(gate, a, nodes, liveA);
    RefusedIff(gate, b, nodes, liveB);
    FitsMono(gate, a, b, Usable(gate, b.plan, nodes, liveB), Usable(gate, a.plan, nodes, liveA));
    if 0.0 < DecodeBytes(gate, a) {
      DegradedIff(gate, a, nodes, liveA);
      DegradedIff(gate, b, nodes, liveB);
      DecodeRateAnti(gate, a, b, MinBandwidth(Participating(a.plan, nodes)));
    }
  }

  lemma FitsMono(gate: Calculator, a: FitRequest, b: FitRequest, low: int, high: int)
    requires gate.CanPrice(a.shape) && low <= high
    requires b == a.(context := b.context, seqs := b.seqs) && a.context <= b.context && a.seqs <= b.seqs
    ensures Fits(gate, b, low) ==> Fits(gate, a, high)
  {
    hide Calculator.Total;
    TotalMono(gate, a, b);
  }

  lemma DegradedIff(gate: Calculator, req: FitRequest, nodes: seq<NodeProfile>, live: map<string, int>)
    requires gate.CanPrice(req.shape) && nodes != []
    ensures Check(gate, req, nodes, live).verdict == FitsDegraded <==>
      && Check(gate, req, nodes, live).verdict != WontFit
      && PredictDecodeTps(gate, req.shape, MinBandwidth(Participating(req.plan, nodes)),
                          KvCacheBytes(req.shape, req.context, 1, req.kvDtype)) < DEGRADED_TPS_THRESHOLD
  {
    hide Participating, BudgetOf, Calculator.BreakdownOf, MaxContext, Ranks, PredictDecodeTps, Remedies, KvCacheBytes, MinBandwidth;
  }

  /** Exactly when the severity cannot rise: a decoded token of the smaller request moves something, or one of the gate's
      four guards already stands against the larger one. Otherwise the smaller request is reported at a rate of zero, and
      degraded where the larger was not. */
  lemma VerdictMonoIff(gate: Calculator, a: FitRequest, b: FitRequest, nodes: seq<NodeProfile>,
                       liveA: map<string, int>, liveB: map<string, int>)
    requires gate.CanPrice(a.shape) && nodes != []
    requires b == a.(context := b.context, seqs := b.seqs) && a.context <= b.context && a.seqs <= b.seqs
    requires MoreLive(liveB, liveA)
    ensures Severity(Check(gate, a, nodes, liveA).verdict) <= Severity(Check(gate, b, nodes, liveB).verdict)
      <==>
      || 0.0 < DecodeBytes(gate, a)
      || RanksShort(b.plan, nodes) || !Fits(gate, b, Usable(gate, b.plan, nodes, liveB)) || PastWindow(b)
      || PredictDecodeTps(gate, b.shape, MinBandwidth(Participating(b.plan, nodes)),
                          KvCacheBytes(b.shape, b.context, 1, b.kvDtype)) < DEGRADED_TPS_THRESHOLD
  {
    VerdictMono(gate, a, b, nodes, liveA, liveB);
    DegradedIff(gate, a, nodes, liveA);
    RefusedIff(gate, b, nodes, liveB);
    DegradedIff(gate, b, nodes, liveB);
    NothingMoved(gate, a, MinBandwidth(Participating(a.plan, nodes)));
    hide Check, DecodeBytes, PredictDecodeTps;
  }

  lemma NothingMoved(gate: Calculator, req: FitRequest, bandwidth: real)
    requires gate.CanPrice(req.shape)
    ensures DecodeBytes(gate, req) <= 0.0 ==>
      PredictDecodeTps(gate, req.shape, bandwidth, KvCacheBytes(req.shape, req.context, 1, req.kvDtype)) == 0.0
  {
    KvCacheMono(req.shape, req.context, req.context, 1, 1, req.kvDtype);
    hide KvCacheBytes, Calculator.BytesPerParam;
  }

  // ----- refusals for weights

  /** A model refused for its weights is refused for its weights at every context, concurrency and cache dtype, and no
      context is ever suggested. */
  lemma WeightsRefusalIsFinal(gate: Calculator, a: FitRequest, b: FitRequest, nodes: seq<NodeProfile>, live: map<string, int>)
    requires gate.CanPrice(a.shape) && PositivePrices(gate.prices) && nodes != []
    requires b == a.(context := b.context, seqs := b.seqs, kvDtype := b.kvDtype)
    requires Check(gate, a, nodes, live).limitingTerm == WeightsTerm
    ensures var r := Check(gate, b, nodes, live);
      r.verdict == WontFit && r.limitingTerm == WeightsTerm && r.maxContext == None
  {
    var usable := Usable(gate, a.plan, nodes, live);
    CheckParts(gate, a, nodes, live);
    CheckParts(gate, b, nodes, live);
    WeightsTermsFixed(gate, a, b);
    assert Diagnose(gate.BreakdownOf(a), usable) == WeightsTerm;
    WeightsTooBig(gate, b, usable);
    RefusedIff(gate, b, nodes, live);
    MaxContextExact(gate, b, usable);
    var grain := b.(context := CONTEXT_ROUNDING);
    WeightsTermsFixed(gate, b, grain);
    WeightsTooBig(gate, grain, usable);
  }

  lemma WeightsTermsFixed(gate: Calculator, a: FitRequest, b: FitRequest)
    requires gate.CanPrice(a.shape) && b == a.(context := b.context, seqs := b.seqs, kvDtype := b.kvDtype)
    ensures gate.BreakdownOf(b).weights == gate.BreakdownOf(a).weights
    ensures gate.BreakdownOf(b).replicated == gate.BreakdownOf(a).replicated
  {
    hide Calculator.WeightBytesPerRank, Calculator.ReplicatedBytes, KvShare, ActivationBytes, CommBufferBytes, Trunc;
  }

  lemma WeightsTooBig(gate: Calculator, req: FitRequest, usable: int)
    requires gate.CanPrice(req.shape) && PositivePrices(gate.prices)
    requires usable < gate.BreakdownOf(req).weights + gate.BreakdownOf(req).replicated
    ensures !Fits(gate, req, usable)
    ensures Diagnose(gate.BreakdownOf(req), usable) == WeightsTerm
  {
    hide Calculator.BreakdownOf;
    TermsNonneg(gate, req);
  }
}
