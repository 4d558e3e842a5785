/** The gate's answer in figures: which nodes take part, what their budget is, and when a request is refused or degraded,
    told from the readings and the request alone. */
module GateFigures {
  import opened Numbers
  import opened Contracts
  import opened Kv
  import opened Memory
  import opened Search
  import opened Gate
  import opened Verdicts

  // ----- the nodes

  /** The last profile of its name. */
  ghost predicate Resolves(nodes: seq<NodeProfile>, id: string, node: NodeProfile) {
    exists i :: 0 <= i < |nodes| && nodes[i] == node && node.nodeId == id && forall j :: i < j < |nodes| ==> nodes[j].nodeId != id
  }

  lemma {:induction false} ProfileIs(nodes: seq<NodeProfile>, id: string)
    ensures match ProfileOf(nodes, id)
            case Some(node) => Resolves(nodes, id, node)
            case None => forall i :: 0 <= i < |nodes| ==> nodes[i].nodeId != id
  {
    if nodes != [] {
      var front, last := nodes[..|nodes| - 1], nodes[|nodes| - 1];
      if last.nodeId == id {
        assert nodes[|nodes| - 1] == last;
      } else {
        ProfileIs(front, id);
        if ProfileOf(front, id).Some? {
          var node := ProfileOf(front, id).value;
          var i :| 0 <= i < |front| && front[i] == node && node.nodeId == id && forall j :: i < j < |front| ==> front[j].nodeId != id;
          assert nodes[i] == node;
        }
      }
    }
  }

  /** The nodes a request is judged on: those the plan names, each once for every time it is named and in that order, or every
      node when it names none of them. */
  lemma {:induction false} ChosenAre(ids: seq<string>, nodes: seq<NodeProfile>)
    ensures |Chosen(ids, nodes)| <= |ids|
    ensures forall node <- Chosen(ids, nodes) :: node.nodeId in ids && Resolves(nodes, node.nodeId, node)
    ensures forall i :: 0 <= i < |ids| && Named(nodes, ids[i]) ==>
      exists node :: node in Chosen(ids, nodes) && Resolves(nodes, ids[i], node)
  {
    if ids != [] {
      ChosenAre(ids[1..], nodes);
      ProfileIs(nodes, ids[0]);
      hide Resolves;
      forall i | 0 <= i < |ids| && Named(nodes, ids[i])
        ensures exists node :: node in Chosen(ids, nodes) && Resolves(nodes, ids[i], node)
      {
        if i == 0 {
          assert ProfileOf(nodes, ids[0]).Some?;
          assert ProfileOf(nodes, ids[0]).value in Chosen(ids, nodes);
        } else {
          assert ids[1..][i - 1] == ids[i];
        }
      }
      forall node | node in Chosen(ids, nodes) ensures node.nodeId in ids && Resolves(nodes, node.nodeId, node) {
        if node !in Chosen(ids[1..], nodes) {
          assert ProfileOf(nodes, ids[0]) == Some(node);
          ResolvesName(nodes, ids[0], node);
        }
      }
    }
  }

  lemma ResolvesName(nodes: seq<NodeProfile>, id: string, node: NodeProfile)
    requires Resolves(nodes, id, node)
    ensures node.nodeId == id && Named(nodes, id)
  {}

  ghost predicate Named(nodes: seq<NodeProfile>, id: string) {
    exists i :: 0 <= i < |nodes| && nodes[i].nodeId == id
  }

  lemma ParticipatingAre(plan: ParallelismPlan, nodes: seq<NodeProfile>)
    requires nodes != []
    ensures var used := Participating(plan, nodes);
      if exists id :: id in plan.nodeIds && Named(nodes, id) then
        && (forall node <- used :: node.nodeId in plan.nodeIds && Resolves(nodes, node.nodeId, node))
        && (forall i :: 0 <= i < |plan.nodeIds| && Named(nodes, plan.nodeIds[i]) ==>
              exists node :: node in used && Resolves(nodes, plan.nodeIds[i], node))
      else used == nodes
  {
    hide Resolves;
    ChosenAre(plan.nodeIds, nodes);
    if id :| id in plan.nodeIds && Named(nodes, id) {
      var i :| 0 <= i < |plan.nodeIds| && plan.nodeIds[i] == id;
    } else if Chosen(plan.nodeIds, nodes) != [] {
      var node := Chosen(plan.nodeIds, nodes)[0];
      assert node in Chosen(plan.nodeIds, nodes);
      ResolvesName(nodes, node.nodeId, node);
      assert false;
    }
  }

  /** Every GPU is a rank, and a node counts for one at least. */
  lemma {:induction false} RanksAre(a: seq<NodeProfile>, b: seq<NodeProfile>)
    ensures Ranks(a + b) == Ranks(a) + Ranks(b) && Ranks([]) == 0
    ensures forall node: NodeProfile :: Ranks([node]) == if node.gpuCount <= 1 then 1 else node.gpuCount
  {
    forall node: NodeProfile ensures Ranks([node]) == if node.gpuCount <= 1 then 1 else node.gpuCount {
      assert [node][..0] == [];
    }
    if b == [] {
      assert a + b == a;
    } else {
      RanksAre(a, b[..|b| - 1]);
      assert (a + b)[..|a + b| - 1] == a + b[..|b| - 1];
    }
  }

  /** The slowest node's bandwidth. */
  lemma {:induction false} SlowestIs(used: seq<NodeProfile>)
    requires used != []
    ensures exists k :: 0 <= k < |used| && used[k].bandwidthGbps == MinBandwidth(used)
    ensures forall j :: 0 <= j < |used| ==> MinBandwidth(used) <= used[j].bandwidthGbps
  {
    if |used| == 1 {
      assert used[0].bandwidthGbps == MinBandwidth(used);
    } else {
      var front := used[..|used| - 1];
      SlowestIs(front);
      var k :| 0 <= k < |front| && front[k].bandwidthGbps == MinBandwidth(front);
      var slowest := if used[|used| - 1].bandwidthGbps < MinBandwidth(front) then |used| - 1 else k;
      assert used[k] == front[k] && used[slowest].bandwidthGbps == MinBandwidth(used);
      forall j | 0 <= j < |used| ensures MinBandwidth(used) <= used[j].bandwidthGbps {
        if j < |front| {
          assert used[j] == front[j];
        }
      }
    }
  }

  // ----- the budget

  /** What the guardrail leaves of a node's addressable memory. */
  function Guarded(gate: Calculator, node: NodeProfile): real { node.addressableMemory as real * gate.guardrail }

  lemma WholeBytes(gate: Calculator, node: NodeProfile)
    requires 0.0 <= Guarded(gate, node)
    ensures UsableMemory(gate, node) as real <= Guarded(gate, node) < UsableMemory(gate, node) as real + 1.0
  {}

  /** With no live figures the budget is the whole bytes under the guardrail of the node it names, and no participant has
      less. */
  lemma StaticBudget(gate: Calculator, used: seq<NodeProfile>)
    requires used != [] && forall node <- used :: 0.0 <= Guarded(gate, node)
    ensures var b := BudgetOf(gate, used, map[]);
      && b.basis == Static && b.node in used
      && b.usable as real <= Guarded(gate, b.node) < b.usable as real + 1.0
      && forall node <- used :: b.usable as real <= Guarded(gate, node)
  {
    hide Guarded, UsableMemory, Budgets, Costs;
    var costs := Costs(gate, used, map[]);
    forall j | 0 <= j < |used| ensures costs[j] as real <= Guarded(gate, used[j]) < costs[j] as real + 1.0 {
      CostAt(gate, used, map[], j);
      WholeBytes(gate, used[j]);
    }
    var k := FirstMin(costs);
    assert used[k] in used;
    forall node | node in used ensures costs[k] as real <= Guarded(gate, node) {
      var j :| 0 <= j < |used| && used[j] == node;
      assert costs[k] <= costs[j];
    }
  }

  /** One name, one node. */
  ghost predicate OnePerName(used: seq<NodeProfile>) {
    forall i, j :: 0 <= i < j < |used| && used[i].nodeId == used[j].nodeId ==> used[i] == used[j]
  }

  lemma {:induction false} BudgetAt(gate: Calculator, used: seq<NodeProfile>, live: map<string, int>, k: nat)
    requires k < |used| && OnePerName(used)
    ensures used[k].nodeId in Budgets(gate, used, live)
    ensures Budgets(gate, used, live)[used[k].nodeId]
      == if used[k].nodeId in live then live[used[k].nodeId] else UsableMemory(gate, used[k])
  {
    hide UsableMemory;
    var last := |used| - 1;
    if k < last && used[k].nodeId != used[last].nodeId {
      assert used[..last][k] == used[k];
      BudgetAt(gate, used[..last], live, k);
    } else if k < last {
      assert used[k] == used[last];
    }
  }

  /** With live figures the budget is the named node's own reading, or its share under the guardrail where it was not read,
      and no participant's figure is lower. */
  lemma LiveBudget(gate: Calculator, used: seq<NodeProfile>, live: map<string, int>)
    requires used != [] && live != map[] && OnePerName(used) && forall node <- used :: 0.0 <= Guarded(gate, node)
    ensures var b := BudgetOf(gate, used, live);
      && b.node in used && (b.basis == Live <==> b.node.nodeId in live)
      && (b.node.nodeId in live ==> b.usable == live[b.node.nodeId])
      && (b.node.nodeId !in live ==> b.usable as real <= Guarded(gate, b.node) < b.usable as real + 1.0)
      && forall node <- used ::
        if node.nodeId in live then b.usable <= live[node.nodeId] else b.usable as real <= Guarded(gate, node)
  {
    hide Guarded, UsableMemory, Budgets, Costs;
    var costs := Costs(gate, used, live);
    forall j | 0 <= j < |used| ensures FigureOf(gate, used[j], live, costs[j]) {
      hide OnePerName;
      CostAt(gate, used, live, j);
      BudgetAt(gate, used, live, j);
      WholeBytes(gate, used[j]);
    }
    var k := FirstMin(costs);
    assert used[k] in used && FigureOf(gate, used[k], live, costs[k]);
    forall node | node in used
      ensures if node.nodeId in live then costs[k] <= live[node.nodeId] else costs[k] as real <= Guarded(gate, node)
    {
      var j :| 0 <= j < |used| && used[j] == node;
      assert costs[k] <= costs[j] && FigureOf(gate, used[j], live, costs[j]);
    }
  }

  predicate FigureOf(gate: Calculator, node: NodeProfile, live: map<string, int>, cost: int) {
    if node.nodeId in live then cost == live[node.nodeId] else cost as real <= Guarded(gate, node) < cost as real + 1.0
  }

  // ----- the guardrail

  lemma UsableLess(low: Calculator, high: Calculator, node: NodeProfile)
    requires low == high.(guardrail := low.guardrail) && low.guardrail <= high.guardrail && 0 <= node.addressableMemory
    ensures UsableMemory(low, node) <= UsableMemory(high, node)
  {
    hide UsableMemory, Guarded, Trunc;
    GuardedLess(low, high, node);
    TruncMono(Guarded(low, node), Guarded(high, node));
    UsableIs(low, node);
    UsableIs(high, node);
  }

  lemma UsableIs(gate: Calculator, node: NodeProfile)
    ensures UsableMemory(gate, node) == Trunc(Guarded(gate, node))
  {}

  lemma GuardedLess(low: Calculator, high: Calculator, node: NodeProfile)
    requires low.guardrail <= high.guardrail && 0 <= node.addressableMemory
    ensures Guarded(low, node) <= Guarded(high, node)
  {
    Scaled(node.addressableMemory as real, low.guardrail, high.guardrail);
  }

  lemma Scaled(a: real, b: real, c: real)
    requires 0.0 <= a && b <= c
    ensures a * b <= a * c
  {
    assert 0.0 <= a * (c - b);
  }

  lemma {:induction false} BudgetsLess(low: Calculator, high: Calculator, used: seq<NodeProfile>, live: map<string, int>)
    requires low == high.(guardrail := low.guardrail) && low.guardrail <= high.guardrail
    requires forall node <- used :: 0 <= node.addressableMemory
    ensures Budgets(low, used, live).Keys == Budgets(high, used, live).Keys
    ensures forall id <- Budgets(low, used, live) :: Budgets(low, used, live)[id] <= Budgets(high, used, live)[id]
  {
    hide UsableMemory;
    if used != [] {
      BudgetsLess(low, high, used[..|used| - 1], live);
      UsableLess(low, high, used[|used| - 1]);
    }
  }

  lemma CostsLess(low: Calculator, high: Calculator, used: seq<NodeProfile>, live: map<string, int>)
    requires low == high.(guardrail := low.guardrail) && low.guardrail <= high.guardrail
    requires used != [] && forall node <- used :: 0 <= node.addressableMemory
    ensures BudgetOf(low, used, live).usable <= BudgetOf(high, used, live).usable
  {
    hide UsableMemory, Budgets;
    BudgetsLess(low, high, used, live);
    var costs, other := Costs(low, used, live), Costs(high, used, live);
    forall j | 0 <= j < |used| ensures costs[j] <= other[j] {
      assert used[j] in used;
      CostAt(low, used, live, j);
      CostAt(high, used, live, j);
      UsableLess(low, high, used[j]);
    }
  }

  /** A lower guardrail never turns a refusal into an acceptance. */
  lemma GuardrailMono(low: Calculator, high: Calculator, req: FitRequest, nodes: seq<NodeProfile>, live: map<string, int>)
    requires low == high.(guardrail := low.guardrail) && low.guardrail <= high.guardrail && high.CanPrice(req.shape)
    requires nodes != [] && forall node <- nodes :: 0 <= node.addressableMemory
    requires Check(high, req, nodes, live).verdict == WontFit
    ensures low.CanPrice(req.shape) && Check(low, req, nodes, live).verdict == WontFit
  {
    assert low.CanPrice(req.shape) by { hide Check; }
    hide Check, BudgetOf, RanksShort, Calculator.CanPrice;
    RefusedIff(high, req, nodes, live);
    RefusedIff(low, req, nodes, live);
    ParticipantsSupplied(req.plan, nodes);
    CostsLess(low, high, Participating(req.plan, nodes), live);
    SameTotal(low, high, req);
  }

  lemma ParticipantsSupplied(plan: ParallelismPlan, nodes: seq<NodeProfile>)
    requires nodes != []
    ensures forall node <- Participating(plan, nodes) :: node in nodes
  {
    ChosenAre(plan.nodeIds, nodes);
  }

  lemma SameTotal(low: Calculator, high: Calculator, req: FitRequest)
    requires low == high.(guardrail := low.guardrail) && high.CanPrice(req.shape)
    ensures low.CanPrice(req.shape) && low.Total(req) == high.Total(req)
  {
    hide KvShare, ActivationBytes, Calculator.WeightBytesPerRank, Calculator.ReplicatedBytes, OrderPriced, Trunc;
    SameWeights(low, high, req);
  }

  lemma SameWeights(low: Calculator, high: Calculator, req: FitRequest)
    requires low == high.(guardrail := low.guardrail) && high.CanPrice(req.shape) && low.CanPrice(req.shape)
    ensures low.WeightBytesPerRank(req.shape, req.plan, req.weightBytes) == high.WeightBytesPerRank(req.shape, req.plan, req.weightBytes)
    ensures low.ReplicatedBytes(req.shape) == high.ReplicatedBytes(req.shape)
  {
    hide StageFraction, ModelShape.Vision, OrderPriced, Calculator.ShardableBytes;
    assert low.BytesPerParam(req.shape) == high.BytesPerParam(req.shape);
    SameShardable(low, high, req);
  }

  lemma SameShardable(low: Calculator, high: Calculator, req: FitRequest)
    requires low == high.(guardrail := low.guardrail) && high.CanPrice(req.shape) && low.CanPrice(req.shape)
    ensures low.ShardableBytes(req.shape, req.weightBytes) == high.ShardableBytes(req.shape, req.weightBytes)
  {
    hide ModelShape.Vision, OrderPriced, Calculator.BytesPerParam;
    assert low.BytesPerParam(req.shape) == high.BytesPerParam(req.shape) by { SamePrice(low, high, req.shape); }
  }

  lemma SamePrice(low: Calculator, high: Calculator, shape: ModelShape)
    requires low == high.(guardrail := low.guardrail) && high.CanPrice(shape) && low.CanPrice(shape)
    ensures low.BytesPerParam(shape) == high.BytesPerParam(shape)
  {
    hide OrderPriced;
  }

  // ----- the answer

  /** A request is refused exactly when the plan wants more ranks than there are, a rank needs more than the budget, or the
      context is past the model's own positive window; nothing limits one that fits, and the bandwidth one that is degraded. */
  lemma RefusedInFigures(gate: Calculator, req: FitRequest, nodes: seq<NodeProfile>, live: map<string, int>)
    requires gate.CanPrice(req.shape) && nodes != []
    ensures var r := Check(gate, req, nodes, live);
      && r.usable == BudgetOf(gate, Participating(req.plan, nodes), live).usable
      && r.headroom == r.usable - r.breakdown.Total()
      && (r.verdict == WontFit <==>
            || Ranks(Participating(req.plan, nodes)) < req.plan.tensorParallel * req.plan.pipelineParallel * req.plan.dataParallel
            || r.headroom < 0
            || (req.nativeWindow.Some? && 0 < req.nativeWindow.value && req.nativeWindow.value < req.context))
      && (r.verdict == Fitting <==> r.limitingTerm == NoTerm) && (r.verdict == FitsDegraded <==> r.limitingTerm == BandwidthTerm)
  {
    hide Participating, BudgetOf, Calculator.BreakdownOf, MaxContext, Ranks, PredictDecodeTps, Remedies, KvCacheBytes, MinBandwidth;
  }

  /** The predicted rate moves the active parameters and one sequence's whole cache every token, at 55% of the bandwidth. */
  lemma RateIs(gate: Calculator, req: FitRequest, bandwidth: real)
    requires gate.CanPrice(req.shape)
    ensures var active := match req.shape.activeParams case Some(n) => n case None => req.shape.totalParams;
      DecodeBytes(gate, req) == active as real * gate.prices[req.shape.dtype] + KvCacheBytes(req.shape, req.context, 1, req.kvDtype)
    ensures var rate := PredictDecodeTps(gate, req.shape, bandwidth, KvCacheBytes(req.shape, req.context, 1, req.kvDtype));
      if 0.0 < bandwidth && 0.0 < DecodeBytes(gate, req) then rate * DecodeBytes(gate, req) == bandwidth * 550000000.0 else rate == 0.0
  {
    hide *;
    MovedIs(gate, req);
    RateParts(gate, req, bandwidth);
    if 0.0 < bandwidth && 0.0 < DecodeBytes(gate, req) {
      Efficient(bandwidth, DecodeBytes(gate, req));
    }
  }

  lemma MovedIs(gate: Calculator, req: FitRequest)
    requires gate.CanPrice(req.shape)
    ensures var active := match req.shape.activeParams case Some(n) => n case None => req.shape.totalParams;
      DecodeBytes(gate, req) == active as real * gate.prices[req.shape.dtype] + KvCacheBytes(req.shape, req.context, 1, req.kvDtype)
  {
    hide KvCacheBytes, OrderPriced;
  }

  lemma RateParts(gate: Calculator, req: FitRequest, bandwidth: real)
    requires gate.CanPrice(req.shape)
    ensures PredictDecodeTps(gate, req.shape, bandwidth, KvCacheBytes(req.shape, req.context, 1, req.kvDtype))
      == if bandwidth <= 0.0 || DecodeBytes(gate, req) <= 0.0 then 0.0 else bandwidth * 1000000000.0 / DecodeBytes(gate, req) * 0.55
  {
    KvCacheMono(req.shape, req.context, req.context, 1, 1, req.kvDtype);
    hide KvCacheBytes, Calculator.BytesPerParam, ModelShape.ActiveParams, OrderPriced;
  }

  lemma Efficient(bandwidth: real, bytes: real)
    requires 0.0 < bytes
    ensures bandwidth * 1000000000.0 / bytes * 0.55 * bytes == bandwidth * 550000000.0
  {
    var q := bandwidth * 1000000000.0 / bytes;
    assert q * bytes == bandwidth * 1000000000.0;
    assert q * 0.55 * bytes == q * bytes * 0.55;
  }

  /** A request that is not refused is degraded exactly when ten tokens move more than 55% of the slowest node's bandwidth, or
      there is nothing to move or no bandwidth to move it with. */
  lemma DegradedInFigures(gate: Calculator, req: FitRequest, nodes: seq<NodeProfile>, live: map<string, int>)
    requires gate.CanPrice(req.shape) && nodes != []
    ensures var bandwidth := MinBandwidth(Participating(req.plan, nodes));
      Check(gate, req, nodes, live).verdict == FitsDegraded <==>
        && Check(gate, req, nodes, live).verdict != WontFit
        && (bandwidth <= 0.0 || DecodeBytes(gate, req) <= 0.0 || bandwidth * 550000000.0 < 10.0 * DecodeBytes(gate, req))
  {
    hide Check, Participating, MinBandwidth, PredictDecodeTps, DecodeBytes, KvCacheBytes;
    var bandwidth := MinBandwidth(Participating(req.plan, nodes));
    DegradedIff(gate, req, nodes, live);
    RateIs(gate, req, bandwidth);
    var rate := PredictDecodeTps(gate, req.shape, bandwidth, KvCacheBytes(req.shape, req.context, 1, req.kvDtype));
    if 0.0 < bandwidth && 0.0 < DecodeBytes(gate, req) {
      Compare(rate, DecodeBytes(gate, req), 10.0);
    }
  }

  lemma Compare(x: real, b: real, y: real)
    requires 0.0 < b
    ensures x < y <==> x * b < y * b
  {
    assert y * b - x * b == (y - x) * b;
  }

  /** A memory refusal reports a context exactly when one step of 512 fits, and then the largest on that grain, to the end of the
      search. */
  lemma ReportedIs(gate: Calculator, req: FitRequest, nodes: seq<NodeProfile>, live: map<string, int>)
    requires gate.CanPrice(req.shape) && nodes != []
    requires !RanksShort(req.plan, nodes) && Check(gate, req, nodes, live).headroom < 0
    ensures var usable := Usable(gate, req.plan, nodes, live);
      match Check(gate, req, nodes, live).maxContext
      case Some(c) =>
        && FitsContext(gate, req, usable, c) && c % 512 == 0 && 512 <= c <= 2097152
        && (c == 2097152 || !FitsContext(gate, req, usable, c + 512))
      case None => !FitsContext(gate, req, usable, 512)
  {
    hide Check, Usable, RanksShort, MaxContext, FitsContext, Calculator.BreakdownOf, Diagnose, Remedies, BudgetOf, Participating;
    CheckParts(gate, req, nodes, live);
    MaxContextExact(gate, req, Usable(gate, req.plan, nodes, live));
  }

  /** The node count is searched at the very budget the request was refused at. */
  lemma SearchedAtBudget(gate: Calculator, used: seq<NodeProfile>, live: map<string, int>)
    requires used != [] && OnePerName(used)
    ensures PhraseBudget(gate, BudgetOf(gate, used, live)) == BudgetOf(gate, used, live).usable
  {
    hide UsableMemory, Budgets, Costs;
    var k := FirstMin(Costs(gate, used, live));
    CostAt(gate, used, live, k);
    BudgetAt(gate, used, live, k);
  }

  /** A memory refusal is blamed on the weights exactly when they alone exceed the budget; on the cache exactly when they do
      not and the request would fit without its cache, which it has; on everything otherwise. */
  lemma BlameIs(gate: Calculator, req: FitRequest, nodes: seq<NodeProfile>, live: map<string, int>)
    requires gate.CanPrice(req.shape) && nodes != []
    requires !RanksShort(req.plan, nodes) && Check(gate, req, nodes, live).headroom < 0
    ensures var r := Check(gate, req, nodes, live); var b := r.breakdown;
      var heavy := r.usable < b.weights + b.replicated;
      var cached := b.weights + b.activations + b.commBuffers + b.replicated + b.framework <= r.usable && 0 < b.kvCache;
      && (r.limitingTerm == WeightsTerm <==> heavy)
      && (r.limitingTerm == KvCacheTerm <==> !heavy && cached)
      && (r.limitingTerm == CombinedTerm <==> !heavy && !cached)
  {
    hide Participating, BudgetOf, Calculator.BreakdownOf, MaxContext, Ranks, PredictDecodeTps, Remedies, KvCacheBytes, MinBandwidth;
  }
}
