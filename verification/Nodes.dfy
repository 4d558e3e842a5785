/** How many machines a model needs: the legal splits of a rank count, and the smallest count that holds it. */
module Nodes {
  import opened Numbers
  import opened Contracts
  import opened Memory
  import opened Search

  const MAX_SEARCH_NODES: nat := 64

  /** A split the runtime can load: tensor degree divides both head counts, no empty pipeline stage. */
  predicate LegalSplit(shape: ModelShape, n: nat, tp: nat, pp: nat) {
    1 <= tp && 1 <= pp && tp * pp == n && shape.numAttentionHeads % tp == 0 && shape.numKvHeads % tp == 0
    && pp <= shape.numLayers
  }

  function Split(tp: nat, pp: nat): ParallelismPlan { ParallelismPlan(tp, pp, 1, 1, []) }

  /** The legal splits of `n` ranks with tensor degree at most `tp`, by rising tensor degree. */
  function Shards(shape: ModelShape, n: nat, tp: nat): seq<ParallelismPlan> {
    if tp == 0 then []
    else Shards(shape, n, tp - 1) + if n % tp == 0 && LegalSplit(shape, n, tp, n / tp) then [Split(tp, n / tp)] else []
  }

  /** Exactly the legal splits, each once. */
  lemma {:induction false} ShardsExact(shape: ModelShape, n: nat, upTo: nat)
    ensures forall plan <- Shards(shape, n, upTo) ::
      1 <= plan.tensorParallel <= upTo && 1 <= plan.pipelineParallel
      && LegalSplit(shape, n, plan.tensorParallel, plan.pipelineParallel)
      && plan == Split(plan.tensorParallel, plan.pipelineParallel)
    ensures forall tp: nat, pp: nat :: LegalSplit(shape, n, tp, pp) && tp <= upTo ==> Split(tp, pp) in Shards(shape, n, upTo)
    ensures forall i, j :: 0 <= i < j < |Shards(shape, n, upTo)| ==>
      Shards(shape, n, upTo)[i].tensorParallel < Shards(shape, n, upTo)[j].tensorParallel
  {
    if upTo != 0 {
      ShardsExact(shape, n, upTo - 1);
      forall tp: nat, pp: nat | LegalSplit(shape, n, tp, pp) && tp <= upTo ensures Split(tp, pp) in Shards(shape, n, upTo) {
        if tp == upTo {
          ExactQuotient(n, tp, pp);
        }
      }
    }
  }

  /** A split is listed exactly when its degrees multiply to the ranks, the tensor degree divides both head counts, and no
      pipeline stage is empty. */
  lemma SplitsAre(shape: ModelShape, n: nat)
    ensures forall tp: nat, pp: nat ::
      Split(tp, pp) in Shards(shape, n, n) <==>
        1 <= tp && 1 <= pp && tp * pp == n && shape.numAttentionHeads % tp == 0 && shape.numKvHeads % tp == 0 && pp <= shape.numLayers
  {
    ShardsExact(shape, n, n);
    forall tp: nat, pp: nat | 1 <= tp && 1 <= pp && tp * pp == n ensures tp <= n {
      IntMulMono(1, pp, tp);
    }
  }

  lemma ExactQuotient(n: nat, a: nat, b: nat)
    requires 1 <= a && a * b == n
    ensures n % a == 0 && n / a == b
  {
    var q, r := n / a, n % a;
    assert n == a * q + r;
    if q < b {
      IntMulMono(q + 1, b, a);
    } else if b < q {
      IntMulMono(b + 1, q, a);
    }
  }

  /** The rank search always prices one full default prefill chunk, whatever the gate was built with. */
  function Searcher(gate: Calculator): Calculator { gate.(chunkTokens := ACTIVATION_CHUNK_TOKENS) }

  predicate FitsSplit(gate: Calculator, req: FitRequest, usable: int, plan: ParallelismPlan)
    requires gate.CanPrice(req.shape)
  {
    Fits(Searcher(gate), req.(plan := plan), usable)
  }

  ghost predicate SomeSplitFits(gate: Calculator, req: FitRequest, usable: int, n: nat)
    requires gate.CanPrice(req.shape)
  {
    exists tp: nat, pp: nat :: LegalSplit(req.shape, n, tp, pp) && FitsSplit(gate, req, usable, Split(tp, pp))
  }

  /** The least rank count from `n` on that holds the model; -1 past the search ceiling. */
  ghost function MinNodesFrom(gate: Calculator, req: FitRequest, usable: int, n: nat): int
    requires gate.CanPrice(req.shape)
    decreases MAX_SEARCH_NODES + 1 - n
  {
    if MAX_SEARCH_NODES < n then -1
    else if SomeSplitFits(gate, req, usable, n) then n
    else MinNodesFrom(gate, req, usable, n + 1)
  }

  ghost function MinNodes(gate: Calculator, req: FitRequest, usable: int): int
    requires gate.CanPrice(req.shape)
  {
    MinNodesFrom(gate, req, usable, 1)
  }

  lemma {:induction false} MinNodesFromLeast(gate: Calculator, req: FitRequest, usable: int, n: nat)
    requires gate.CanPrice(req.shape)
    ensures var r := MinNodesFrom(gate, req, usable, n);
      && (r == -1 || n <= r <= MAX_SEARCH_NODES)
      && (r != -1 ==> SomeSplitFits(gate, req, usable, r))
      && (forall k: nat :: n <= k <= MAX_SEARCH_NODES && (r == -1 || k < r) ==> !SomeSplitFits(gate, req, usable, k))
    decreases MAX_SEARCH_NODES + 1 - n
  {
    if n <= MAX_SEARCH_NODES && !SomeSplitFits(gate, req, usable, n) {
      MinNodesFromLeast(gate, req, usable, n + 1);
    }
  }

  /** The splits in the order the source tries them. */
  method CandidateShards(n: nat, shape: ModelShape) returns (plans: seq<ParallelismPlan>)
    ensures plans == Shards(shape, n, n)
  {
    plans := [];
    var tp := 1;
    while tp <= n
      invariant 1 <= tp <= n + 1
      invariant plans == Shards(shape, n, tp - 1)
    {
      if n % tp == 0 && shape.numAttentionHeads % tp == 0 && shape.numKvHeads % tp == 0 {
        var pp := n / tp;
        QuotientPositive(n, tp);
        if pp <= shape.numLayers {
          plans := plans + [Split(tp, pp)];
        }
      }
      tp := tp + 1;
    }
  }

  lemma QuotientPositive(n: nat, a: nat)
    requires 1 <= a <= n && n % a == 0
    ensures 1 <= n / a && a * (n / a) == n
  {}

  /** The node-count search as it runs: the least count up to the ceiling for which some legal split fits. */
  method MinNodesRequired(gate: Calculator, req: FitRequest, usable: int) returns (count: int)
    requires gate.CanPrice(req.shape)
    ensures count == MinNodes(gate, req, usable)
    ensures count == -1 || 1 <= count <= MAX_SEARCH_NODES
    ensures count != -1 ==> SomeSplitFits(gate, req, usable, count)
    ensures forall k: nat :: 1 <= k <= MAX_SEARCH_NODES && (count == -1 || k < count) ==> !SomeSplitFits(gate, req, usable, k)
  {
    hide FitsSplit, LegalSplit;
    MinNodesFromLeast(gate, req, usable, 1);
    var n := 1;
    while n <= MAX_SEARCH_NODES
      invariant 1 <= n <= MAX_SEARCH_NODES + 1
      invariant MinNodes(gate, req, usable) == MinNodesFrom(gate, req, usable, n)
    {
      var plans := CandidateShards(n, req.shape);
      ShardsExact(req.shape, n, n);
      var i := 0;
      while i < |plans|
        invariant 0 <= i <= |plans|
        invariant forall k :: 0 <= k < i ==> !FitsSplit(gate, req, usable, plans[k])
      {
        if FitsSplit(gate, req, usable, plans[i]) {
          var plan := plans[i];
          assert plan in plans;
          assert SomeSplitFits(gate, req, usable, n);
          return n;
        }
        i := i + 1;
      }
      NoSplitFits(gate, req, usable, n, plans);
      n := n + 1;
    }
    return -1;
  }

  lemma NoSplitFits(gate: Calculator, req: FitRequest, usable: int, n: nat, plans: seq<ParallelismPlan>)
    requires gate.CanPrice(req.shape) && plans == Shards(req.shape, n, n)
    requires forall k :: 0 <= k < |plans| ==> !FitsSplit(gate, req, usable, plans[k])
    ensures !SomeSplitFits(gate, req, usable, n)
  {
    hide FitsSplit;
    ShardsExact(req.shape, n, n);
    forall tp: nat, pp: nat | LegalSplit(req.shape, n, tp, pp) ensures !FitsSplit(gate, req, usable, Split(tp, pp)) {
      if n < tp {
        IntMulMono(1, pp, tp);
      }
      assert Split(tp, pp) in plans;
    }
  }
}
