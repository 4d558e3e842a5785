/** The blocking launch gate: the budget in force, the verdict, and the remedies a refusal names. */
module Gate {
  import opened Numbers
  import opened Contracts
  import opened Kv
  import opened Memory
  import opened Search
  import opened Nodes

  const DEGRADED_TPS_THRESHOLD: real := 10.0

  datatype Verdict = Fitting | FitsDegraded | WontFit

  datatype LimitingTerm = NoTerm | WeightsTerm | KvCacheTerm | BandwidthTerm | CombinedTerm | ContextTerm

  datatype Basis = Static | Live

  /** What a refusal tells the operator to change. */
  datatype Remedy =
    | DropContext(tokens: int)
    | ReduceConcurrency(seqs: int)
    | QuantizeCacheToFp8(fits: bool)
    | SpreadOver(nodes: int)
    | DifferentMachine
    | MachineWithGpu
    | Requantize(dtype: string)

  datatype FitResult = FitResult(
    verdict: Verdict,
    breakdown: Breakdown,
    usable: int,
    headroom: int,
    limitingTerm: LimitingTerm,
    maxContext: Option<int>,
    tps: real,
    basis: Basis,
    remedies: seq<Remedy>)

  // ----- the nodes and the budget

  /** The profile a name resolves to; a later profile of the same name wins. */
  function ProfileOf(nodes: seq<NodeProfile>, id: string): Option<NodeProfile> {
    if nodes == [] then None
    else if nodes[|nodes| - 1].nodeId == id then Some(nodes[|nodes| - 1])
    else ProfileOf(nodes[..|nodes| - 1], id)
  }

  function Chosen(ids: seq<string>, nodes: seq<NodeProfile>): seq<NodeProfile> {
    if ids == [] then []
    else (match ProfileOf(nodes, ids[0]) case Some(p) => [p] case None => []) + Chosen(ids[1..], nodes)
  }

  /** The nodes the plan names, or every node supplied when it names none of them. */
  function Participating(plan: ParallelismPlan, nodes: seq<NodeProfile>): (used: seq<NodeProfile>)
    requires nodes != []
    ensures used != []
  {
    var chosen := Chosen(plan.nodeIds, nodes);
    if chosen == [] then nodes else chosen
  }

  function UsableMemory(gate: Calculator, node: NodeProfile): int {
    Trunc(node.addressableMemory as real * gate.guardrail)
  }

  /** The live figure where there is one, the static ceiling where there is not. */
  function Budgets(gate: Calculator, used: seq<NodeProfile>, live: map<string, int>): map<string, int> {
    if used == [] then map[]
    else
      var n := used[|used| - 1];
      Budgets(gate, used[..|used| - 1], live)[n.nodeId := if n.nodeId in live then live[n.nodeId] else UsableMemory(gate, n)]
  }

  lemma {:induction false} BudgetsCover(gate: Calculator, used: seq<NodeProfile>, live: map<string, int>)
    ensures forall n <- used :: n.nodeId in Budgets(gate, used, live)
    ensures forall id <- Budgets(gate, used, live) :: id in live ==> Budgets(gate, used, live)[id] == live[id]
  {
    if used != [] {
      BudgetsCover(gate, used[..|used| - 1], live);
    }
  }

  /** One cost per node, in order; the live table stands in for the static ceiling when it is not empty. */
  function Costs(gate: Calculator, used: seq<NodeProfile>, live: map<string, int>): (costs: seq<int>)
    ensures |costs| == |used|
  {
    BudgetsCover(gate, used, live);
    var table := Budgets(gate, used, live);
    seq(|used|, i requires 0 <= i < |used| =>
      if live == map[] then UsableMemory(gate, used[i])
      else (assert used[i] in used; table[used[i].nodeId]))
  }

  /** Python's `min` with a key: the first of the least. */
  function FirstMin(costs: seq<int>): (k: nat)
    requires costs != []
    ensures k < |costs|
    ensures forall i :: 0 <= i < |costs| ==> costs[k] <= costs[i]
    ensures forall i :: 0 <= i < k ==> costs[k] < costs[i]
  {
    if |costs| == 1 then 0
    else
      var last := |costs| - 1;
      var k := FirstMin(costs[..last]);
      if costs[last] < costs[..last][k] then last else k
  }

  datatype Budget = Budget(node: NodeProfile, usable: int, basis: Basis)

  /** The binding node is the argmin over whichever budget is in force, and its reading decides the basis. */
  function BudgetOf(gate: Calculator, used: seq<NodeProfile>, live: map<string, int>): Budget
    requires used != []
  {
    var costs := Costs(gate, used, live);
    var k := FirstMin(costs);
    Budget(used[k], costs[k], if used[k].nodeId in live then Live else Static)
  }

  method FillBudgets(gate: Calculator, used: seq<NodeProfile>, live: map<string, int>) returns (table: map<string, int>)
    ensures table == Budgets(gate, used, live)
  {
    table := map[];
    var i := 0;
    while i < |used|
      invariant 0 <= i <= |used|
      invariant table == Budgets(gate, used[..i], live)
    {
      var n := used[i];
      assert used[..i + 1][..i] == used[..i];
      table := table[n.nodeId := if n.nodeId in live then live[n.nodeId] else UsableMemory(gate, n)];
      i := i + 1;
    }
    assert used[..|used|] == used;
  }

  /** What each node costs, as the loop over the nodes reads it. */
  lemma CostAt(gate: Calculator, used: seq<NodeProfile>, live: map<string, int>, k: nat)
    requires k < |used|
    ensures used[k].nodeId in Budgets(gate, used, live) && |Costs(gate, used, live)| == |used|
    ensures Costs(gate, used, live)[k]
      == if live == map[] then UsableMemory(gate, used[k]) else Budgets(gate, used, live)[used[k].nodeId]
  {
    hide UsableMemory, Budgets;
    BudgetsCover(gate, used, live);
    assert used[k] in used;
  }

  /** The budget as it is computed: fill the table, then keep the first least. */
  method ComputeBudget(gate: Calculator, used: seq<NodeProfile>, live: map<string, int>) returns (b: Budget)
    requires used != []
    ensures b == BudgetOf(gate, used, live)
  {
    hide Budgets, Costs, UsableMemory;
    var table := FillBudgets(gate, used, live);
    ghost var costs := Costs(gate, used, live);
    CostAt(gate, used, live, 0);
    var best, i := 0, 1;
    while i < |used|
      invariant 1 <= i <= |used| && 0 <= best < i
      invariant forall j :: 0 <= j < i ==> costs[best] <= costs[j]
      invariant forall j :: 0 <= j < best ==> costs[best] < costs[j]
    {
      CostAt(gate, used, live, i);
      CostAt(gate, used, live, best);
      var mine := if live == map[] then UsableMemory(gate, used[i]) else table[used[i].nodeId];
      var least := if live == map[] then UsableMemory(gate, used[best]) else table[used[best].nodeId];
      if mine < least {
        best := i;
      }
      i := i + 1;
    }
    assert best == FirstMin(costs);
    CostAt(gate, used, live, best);
    b := Budget(used[best], if live == map[] then UsableMemory(gate, used[best]) else table[used[best].nodeId],
                if used[best].nodeId in live then Live else Static);
  }

  function Ranks(used: seq<NodeProfile>): nat {
    if used == [] then 0 else Ranks(used[..|used| - 1]) + Max(1, used[|used| - 1].gpuCount)
  }

  function MinBandwidth(used: seq<NodeProfile>): real
    requires used != []
  {
    if |used| == 1 then used[0].bandwidthGbps
    else
      var rest, last := MinBandwidth(used[..|used| - 1]), used[|used| - 1].bandwidthGbps;
      if last < rest then last else rest
  }

  // ----- the verdict

  predicate PastWindow(req: FitRequest) {
    req.nativeWindow.Some? && 0 < req.nativeWindow.value < req.context
  }

  /** 0 from the search means no context fits at all, and that is reported as None. */
  function Reported(maxContext: int): Option<int> {
    if maxContext == 0 then None else Some(maxContext)
  }

  ghost function Check(gate: Calculator, req: FitRequest, nodes: seq<NodeProfile>, live: map<string, int>): FitResult
    requires gate.CanPrice(req.shape) && nodes != []
  {
    var used := Participating(req.plan, nodes);
    var budget := BudgetOf(gate, used, live);
    var breakdown := gate.BreakdownOf(req);
    var headroom := budget.usable - breakdown.Total();
    var tps := PredictDecodeTps(gate, req.shape, MinBandwidth(used), KvCacheBytes(req.shape, req.context, 1, req.kvDtype));
    var maxContext := MaxContext(gate, req, budget.usable);
    var fitting := FitResult(Fitting, breakdown, budget.usable, headroom, NoTerm, Some(maxContext), tps, budget.basis, []);
    if Ranks(used) < req.plan.WorldSize() then
      fitting.(verdict := WontFit, limitingTerm := CombinedTerm, maxContext := None)
    else if headroom < 0 then
      fitting.(verdict := WontFit, limitingTerm := Diagnose(breakdown, budget.usable), maxContext := Reported(maxContext),
               remedies := Remedies(gate, req, budget))
    else if PastWindow(req) then
      fitting.(verdict := WontFit, limitingTerm := ContextTerm, maxContext := Reported(Min(maxContext, req.nativeWindow.value)))
    else if tps < DEGRADED_TPS_THRESHOLD then fitting.(verdict := FitsDegraded, limitingTerm := BandwidthTerm)
    else fitting
  }

  /** Which term a memory refusal is blamed on. */
  function Diagnose(breakdown: Breakdown, usable: int): LimitingTerm {
    if usable < breakdown.weights + breakdown.replicated then WeightsTerm
    else if breakdown.Total() - breakdown.kvCache <= usable && 0 < breakdown.kvCache then KvCacheTerm
    else CombinedTerm
  }

  // ----- the remedies

  /** Under a live budget the node count is searched against the live figure, else against the static ceiling. */
  ghost function NodesPhrase(gate: Calculator, req: FitRequest, budget: Budget): Remedy
    requires gate.CanPrice(req.shape)
  {
    if budget.node.addressableMemory <= 0 then MachineWithGpu
    else
      var n := MinNodes(gate, req, PhraseBudget(gate, budget));
      if n < 0 then DifferentMachine else SpreadOver(n)
  }

  function PhraseBudget(gate: Calculator, budget: Budget): int {
    if budget.basis.Live? then budget.usable else UsableMemory(gate, budget.node)
  }

  /** Parameters one rank carries. */
  function ParamsPerRank(shape: ModelShape, plan: ParallelismPlan): real
    requires shape.WellFormed()
  {
    (shape.totalParams - shape.Vision()) as real * StageFraction(shape.numLayers, plan.pipelineParallel) / plan.Tp() as real
  }

  /** The first scheme of the order that is smaller than the current one and affordable. */
  function FirstAffordable(prices: Prices, order: seq<string>, current: real, allowed: real): Option<string>
    requires OrderPriced(prices, order)
  {
    if order == [] then None
    else if prices[order[0]] < current && prices[order[0]] <= allowed then Some(order[0])
    else FirstAffordable(prices, order[1..], current, allowed)
  }

  function SuggestQuant(gate: Calculator, req: FitRequest, usable: int): Option<string>
    requires gate.CanPrice(req.shape)
  {
    var budget := WeightBudget(gate, req, usable);
    var params := ParamsPerRank(req.shape, req.plan);
    if budget <= 0 || params <= 0.0 then None
    else FirstAffordable(gate.prices, QUANT_SUGGESTION_ORDER, gate.BytesPerParam(req.shape), budget as real / params)
  }

  /** What is left for weights with every other term held. */
  function WeightBudget(gate: Calculator, req: FitRequest, usable: int): int
    requires gate.CanPrice(req.shape)
  {
    usable - (gate.Total(req) - gate.BreakdownOf(req).weights)
  }

  /** The source's test for "quantize the KV cache to fp8 ..., which fits". */
  function Fp8Claim(gate: Calculator, req: FitRequest, usable: int): bool
    requires gate.CanPrice(req.shape)
  {
    var b := gate.BreakdownOf(req);
    (b.Total() - b.kvCache) as real + b.kvCache as real / KvElemBytes(req.kvDtype, req.shape.dtype) <= usable as real
  }

  ghost function Remedies(gate: Calculator, req: FitRequest, budget: Budget): seq<Remedy>
    requires gate.CanPrice(req.shape)
  {
    var usable := budget.usable;
    var maxContext := MaxContext(gate, req, usable);
    var seqs := MaxSeqs(gate, req, usable, req.seqs - 1);
    var fewer := if 1 <= seqs then [ReduceConcurrency(seqs)] else [];
    var quant := SuggestQuant(gate, req, usable);
    var smaller := if quant.Some? then [Requantize(quant.value)] else [];
    var spread := [NodesPhrase(gate, req, budget)];
    match Diagnose(gate.BreakdownOf(req), usable)
    case WeightsTerm => spread + smaller
    case KvCacheTerm =>
      (if CONTEXT_ROUNDING <= maxContext then [DropContext(maxContext)] else [])
      + fewer
      + (if 1.0 < KvElemBytes(req.kvDtype, req.shape.dtype) then [QuantizeCacheToFp8(Fp8Claim(gate, req, usable))] else [])
      + spread
    case _ => spread + fewer + smaller
  }

  /** The gate as it runs, with the searches in place of the scans. */
  method RunCheck(gate: Calculator, req: FitRequest, nodes: seq<NodeProfile>, live: map<string, int>) returns (r: FitResult)
    requires gate.CanPrice(req.shape) && nodes != []
    ensures r == Check(gate, req, nodes, live)
  {
    hide MaxContext, MaxSeqs, MinNodes, Participating, BudgetOf, Calculator.BreakdownOf, PredictDecodeTps, KvCacheBytes,
         MinBandwidth, Ranks, Diagnose, SuggestQuant, Fp8Claim, KvElemBytes, PhraseBudget;
    var used := Participating(req.plan, nodes);
    var budget := ComputeBudget(gate, used, live);
    var breakdown := gate.BreakdownOf(req);
    var headroom := budget.usable - breakdown.Total();
    var tps := PredictDecodeTps(gate, req.shape, MinBandwidth(used), KvCacheBytes(req.shape, req.context, 1, req.kvDtype));
    var maxContext, trims := LargestContext(gate, req, budget.usable);
    r := FitResult(Fitting, breakdown, budget.usable, headroom, NoTerm, Some(maxContext), tps, budget.basis, []);
    if Ranks(used) < req.plan.WorldSize() {
      r := r.(verdict := WontFit, limitingTerm := CombinedTerm, maxContext := None);
    } else if headroom < 0 {
      var remedies := FindRemedies(gate, req, budget, maxContext);
      r := r.(verdict := WontFit, limitingTerm := Diagnose(breakdown, budget.usable), maxContext := Reported(maxContext),
              remedies := remedies);
    } else if PastWindow(req) {
      r := r.(verdict := WontFit, limitingTerm := ContextTerm, maxContext := Reported(Min(maxContext, req.nativeWindow.value)));
    } else if tps < DEGRADED_TPS_THRESHOLD {
      r := r.(verdict := FitsDegraded, limitingTerm := BandwidthTerm);
    }
  }

  method FindRemedies(gate: Calculator, req: FitRequest, budget: Budget, maxContext: int) returns (remedies: seq<Remedy>)
    requires gate.CanPrice(req.shape) && maxContext == MaxContext(gate, req, budget.usable)
    ensures remedies == Remedies(gate, req, budget)
  {
    hide MaxContext, MaxSeqs, MinNodes, Calculator.BreakdownOf, Diagnose, SuggestQuant, Fp8Claim, KvElemBytes, PhraseBudget;
    var spread := MachineWithGpu;
    if 0 < budget.node.addressableMemory {
      var n := MinNodesRequired(gate, req, PhraseBudget(gate, budget));
      spread := if n < 0 then DifferentMachine else SpreadOver(n);
    }
    var seqs := LargestMaxSeqs(gate, req, budget.usable, req.seqs - 1);
    var fewer := if 1 <= seqs then [ReduceConcurrency(seqs)] else [];
    var quant := SuggestQuant(gate, req, budget.usable);
    var smaller := if quant.Some? then [Requantize(quant.value)] else [];
    match Diagnose(gate.BreakdownOf(req), budget.usable) {
      case WeightsTerm => remedies := [spread] + smaller;
      case KvCacheTerm =>
        var context := if CONTEXT_ROUNDING <= maxContext then [DropContext(maxContext)] else [];
        var fp8 := if 1.0 < KvElemBytes(req.kvDtype, req.shape.dtype)
                   then [QuantizeCacheToFp8(Fp8Claim(gate, req, budget.usable))] else [];
        remedies := context + fewer + fp8 + [spread];
      case _ => remedies := [spread] + fewer + smaller;
    }
  }
}
