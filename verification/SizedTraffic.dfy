/** Exactly when admission honours the size a deployment was given: so many outstanding requests, each within its context. */
module SizedTraffic {
  import opened Numbers
  import opened Contracts
  import opened Kv
  import opened Memory
  import opened Admission

  /** A run and a next request within the size: fewer than `seqs` outstanding, none longer than the context. */
  ghost predicate WithinSize(settings: Settings, hasEstimator: bool, fleet: map<string, Deployment>, d: Deployment,
                             seqs: nat, context: nat, ops: seq<Op>, ask: Ask)
  {
    && Traffic(fleet, ops)
    && (var grants := Run(settings, hasEstimator, fleet, ops).grants;
        CountOf(grants, d.id) < seqs && forall g <- grants :: g.id == d.id ==> g.tokens <= context)
    && Requested(settings, ask) <= context
  }

  ghost predicate Admits(settings: Settings, hasEstimator: bool, fleet: map<string, Deployment>, d: Deployment,
                         ops: seq<Op>, ask: Ask)
    requires Traffic(fleet, ops) && d.shape.WellFormed()
  {
    Decide(settings, hasEstimator, d, ask, Committed(Run(settings, hasEstimator, fleet, ops).committed, d.id)).Admitted?
  }

  /** The configured context, if there is one, is no shorter. */
  predicate Allows(d: Deployment, context: nat) {
    d.contextLength == 0 || context <= d.contextLength
  }

  /** No traffic within the size is ever refused. */
  ghost predicate AdmitsAllWithin(settings: Settings, hasEstimator: bool, fleet: map<string, Deployment>, d: Deployment,
                                  seqs: nat, context: nat)
    requires d.shape.WellFormed()
  {
    forall ops, ask | WithinSize(settings, hasEstimator, fleet, d, seqs, context, ops, ask) ::
      Admits(settings, hasEstimator, fleet, d, ops, ask)
  }

  /** There is no positive budget, or it covers that many full-context requests at what they cost. */
  predicate CoversSize(settings: Settings, hasEstimator: bool, d: Deployment, seqs: nat, context: nat)
    requires d.shape.WellFormed()
  {
    KvBudget(settings, d) <= 0 || seqs * KvCost(settings, hasEstimator, d, context) <= KvBudget(settings, d)
  }

  // ----- the heaviest traffic: full-context requests, one after another

  function FullAsk(context: nat): Ask { Ask(0, Some(context)) }

  function Offers(d: Deployment, context: nat, n: nat): seq<Op> {
    if n == 0 then [] else Offers(d, context, n - 1) + [Offer(d, FullAsk(context))]
  }

  lemma {:induction false} OffersAreTraffic(fleet: map<string, Deployment>, d: Deployment, context: nat, n: nat)
    requires d.id in fleet && fleet[d.id] == d && d.shape.WellFormed()
    ensures Traffic(fleet, Offers(d, context, n))
  {
    if 0 < n {
      OffersAreTraffic(fleet, d, context, n - 1);
    }
  }

  /** What the first `n` full-context requests leave: all granted and each at its cost, or fewer than `n` granted. */
  ghost predicate AfterOffers(settings: Settings, hasEstimator: bool, d: Deployment, context: nat, n: nat, l: Ledger)
    requires d.shape.WellFormed()
  {
    var cost := KvCost(settings, hasEstimator, d, context);
    && |l.grants| <= n
    && (forall i :: 0 <= i < |l.grants| ==> l.grants[i] == Grant(d.id, FullAsk(context), context, cost))
    && Committed(l.committed, d.id) == |l.grants| * cost
    && (|l.grants| == n <==> CoversSize(settings, hasEstimator, d, n, context))
  }

  lemma {:induction false} FullLoad(settings: Settings, hasEstimator: bool, fleet: map<string, Deployment>, d: Deployment,
                                    context: nat, n: nat)
    requires d.id in fleet && fleet[d.id] == d && d.shape.WellFormed() && 1 <= context && Allows(d, context)
    ensures Traffic(fleet, Offers(d, context, n))
    ensures AfterOffers(settings, hasEstimator, d, context, n, Run(settings, hasEstimator, fleet, Offers(d, context, n)))
  {
    hide KvCost, KvBudget, AfterOffers;
    OffersAreTraffic(fleet, d, context, n);
    CostRange(settings, hasEstimator, d, context);
    if n == 0 {
      NothingOffered(settings, hasEstimator, d, context);
    } else {
      FullLoad(settings, hasEstimator, fleet, d, context, n - 1);
      var ops := Offers(d, context, n);
      assert ops[..|ops| - 1] == Offers(d, context, n - 1);
      OneMoreOffer(settings, hasEstimator, d, context, n - 1,
                   Run(settings, hasEstimator, fleet, Offers(d, context, n - 1)));
    }
  }

  lemma NothingOffered(settings: Settings, hasEstimator: bool, d: Deployment, context: nat)
    requires d.shape.WellFormed()
    ensures AfterOffers(settings, hasEstimator, d, context, 0, Ledger(map[], []))
  {
    hide KvCost, KvBudget;
  }

  lemma OneMoreOffer(settings: Settings, hasEstimator: bool, d: Deployment, context: nat, n: nat, l: Ledger)
    requires d.shape.WellFormed() && 1 <= context && Allows(d, context) && AfterOffers(settings, hasEstimator, d, context, n, l)
    ensures AfterOffers(settings, hasEstimator, d, context, n + 1, Step(settings, hasEstimator, l, Offer(d, FullAsk(context))))
  {
    CostRange(settings, hasEstimator, d, context);
    hide KvCost, KvBudget;
    var cost := KvCost(settings, hasEstimator, d, context);
    Times(|l.grants|, n, cost);
  }

  lemma Times(m: nat, n: nat, cost: int)
    requires m <= n && 0 <= cost
    ensures (m + 1) * cost == m * cost + cost && (n + 1) * cost == n * cost + cost && m * cost <= n * cost
  {
    IntMulMono(m, n, cost);
  }

  // ----- any traffic within the size is no heavier

  lemma CostMono(settings: Settings, hasEstimator: bool, d: Deployment, m: nat, n: nat)
    requires d.shape.WellFormed() && m <= n
    ensures KvCost(settings, hasEstimator, d, m) <= KvCost(settings, hasEstimator, d, n)
  {
    hide BytesPerToken, Shards, Trunc;
    ShardsPositive(d);
    var rate := BytesPerToken(hasEstimator, d.shape, settings.defaultKvDtype);
    TokenBytesNonneg(hasEstimator, d.shape, settings.defaultKvDtype);
    MulMono(m as real, n as real, rate);
    DivMono(rate * m as real, rate * n as real, Shards(d) as real);
    TruncMono(RequestShare(settings, hasEstimator, d, m), RequestShare(settings, hasEstimator, d, n));
  }

  lemma {:induction false} OutstandingWithin(settings: Settings, hasEstimator: bool, fleet: map<string, Deployment>,
                                             grants: seq<Grant>, d: Deployment, context: nat)
    requires Priced(settings, hasEstimator, fleet, grants) && d.id in fleet && fleet[d.id] == d && d.shape.WellFormed()
    requires forall g <- grants :: g.id == d.id ==> g.tokens <= context
    ensures Outstanding(grants, d.id) <= CountOf(grants, d.id) * KvCost(settings, hasEstimator, d, context)
  {
    hide KvCost;
    if grants != [] {
      var front, last := grants[..|grants| - 1], grants[|grants| - 1];
      forall g | g in front ensures g in grants {}
      OutstandingWithin(settings, hasEstimator, fleet, front, d, context);
      if last.id == d.id {
        assert last in grants;
        CostMono(settings, hasEstimator, d, last.tokens, context);
        CostRange(settings, hasEstimator, d, context);
        Times(CountOf(front, d.id), CountOf(front, d.id), KvCost(settings, hasEstimator, d, context));
      }
    }
  }

  lemma CoveredAdmits(settings: Settings, hasEstimator: bool, fleet: map<string, Deployment>, d: Deployment,
                      seqs: nat, context: nat, ops: seq<Op>, ask: Ask)
    requires d.id in fleet && fleet[d.id] == d && d.shape.WellFormed() && Allows(d, context)
    requires CoversSize(settings, hasEstimator, d, seqs, context)
    requires WithinSize(settings, hasEstimator, fleet, d, seqs, context, ops, ask)
    ensures Traffic(fleet, ops) && Admits(settings, hasEstimator, fleet, d, ops, ask)
  {
    hide KvCost, KvBudget, Run, Traffic, Outstanding, CountOf, Priced, WithinBudgets;
    var l := Run(settings, hasEstimator, fleet, ops);
    CommitmentsConserved(settings, hasEstimator, fleet, ops);
    OutstandingWithin(settings, hasEstimator, fleet, l.grants, d, context);
    CostMono(settings, hasEstimator, d, Requested(settings, ask), context);
    CostRange(settings, hasEstimator, d, context);
    var cost := KvCost(settings, hasEstimator, d, context);
    assert Committed(l.committed, d.id) == Outstanding(l.grants, d.id);
    Times(CountOf(l.grants, d.id), seqs - 1, cost);
  }

  lemma RefusedLoadIsWithin(settings: Settings, hasEstimator: bool, fleet: map<string, Deployment>, d: Deployment,
                            context: nat, n: nat, l: Ledger)
    requires d.shape.WellFormed() && AfterOffers(settings, hasEstimator, d, context, n, l)
    ensures CountOf(l.grants, d.id) == |l.grants| && forall g <- l.grants :: g.id == d.id ==> g.tokens <= context
  {
    hide KvCost, CoversSize;
    AllCounted(l.grants, d.id);
  }

  lemma {:induction false} AllCounted(grants: seq<Grant>, id: string)
    requires forall i :: 0 <= i < |grants| ==> grants[i].id == id
    ensures CountOf(grants, id) == |grants|
  {
    if grants != [] {
      AllCounted(grants[..|grants| - 1], id);
    }
  }

  /** While the full-context load stays within the size and nothing within it is refused, all of it is granted. */
  lemma {:induction false} AdmittingGrants(settings: Settings, hasEstimator: bool, fleet: map<string, Deployment>, d: Deployment,
                                           seqs: nat, context: nat, n: nat)
    requires d.id in fleet && fleet[d.id] == d && d.shape.WellFormed() && 1 <= context && Allows(d, context) && n <= seqs
    requires AdmitsAllWithin(settings, hasEstimator, fleet, d, seqs, context)
    ensures CoversSize(settings, hasEstimator, d, n, context)
  {
    hide KvCost, KvBudget, Decide, CoversSize;
    FullLoad(settings, hasEstimator, fleet, d, context, n);
    if n == 0 {
      hide AfterOffers;
      NothingOffered(settings, hasEstimator, d, context);
      NoneCovered(settings, hasEstimator, d, context);
    } else {
      AdmittingGrants(settings, hasEstimator, fleet, d, seqs, context, n - 1);
      FullLoad(settings, hasEstimator, fleet, d, context, n - 1);
      var ops := Offers(d, context, n - 1);
      var l := Run(settings, hasEstimator, fleet, ops);
      RefusedLoadIsWithin(settings, hasEstimator, fleet, d, context, n - 1, l);
      assert WithinSize(settings, hasEstimator, fleet, d, seqs, context, ops, FullAsk(context));
      assert Admits(settings, hasEstimator, fleet, d, ops, FullAsk(context));
      assert Offers(d, context, n)[..n - 1] == ops by { OffersLength(d, context, n - 1); }
      OffersLength(d, context, n);
    }
  }

  lemma {:induction false} OffersLength(d: Deployment, context: nat, n: nat)
    ensures |Offers(d, context, n)| == n
  {
    if 0 < n {
      OffersLength(d, context, n - 1);
    }
  }

  lemma NoneCovered(settings: Settings, hasEstimator: bool, d: Deployment, context: nat)
    requires d.shape.WellFormed()
    ensures CoversSize(settings, hasEstimator, d, 0, context)
  {
    hide KvCost, KvBudget;
  }

  /** Over every run, traffic within a deployment's size is never refused if and only if the budget covers that many
      full-context requests: whatever the shape, the cache dtype, the budget fraction and the ranks. */
  lemma AdmitsAllIff(settings: Settings, hasEstimator: bool, fleet: map<string, Deployment>, d: Deployment, seqs: nat, context: nat)
    requires d.id in fleet && fleet[d.id] == d && d.shape.WellFormed() && 1 <= context && Allows(d, context)
    ensures AdmitsAllWithin(settings, hasEstimator, fleet, d, seqs, context) <==> CoversSize(settings, hasEstimator, d, seqs, context)
  {
    hide CoversSize, WithinSize, Admits;
    if AdmitsAllWithin(settings, hasEstimator, fleet, d, seqs, context) {
      AdmittingGrants(settings, hasEstimator, fleet, d, seqs, context, seqs);
    }
    if CoversSize(settings, hasEstimator, d, seqs, context) {
      forall ops, ask | WithinSize(settings, hasEstimator, fleet, d, seqs, context, ops, ask)
        ensures Traffic(fleet, ops) && Admits(settings, hasEstimator, fleet, d, ops, ask)
      {
        CoveredAdmits(settings, hasEstimator, fleet, d, seqs, context, ops, ask);
      }
    }
  }

  // ----- a cache the gate capped

  /** The gateway charges every layer for every token. On one rank, where nothing is rounded, the traffic the gate sized is
      therefore all admitted exactly when no window caps the cache, and from an idle deployment the sized number of
      full-context requests are all granted exactly then. */
  lemma CappedCacheRefuses(gate: Calculator, settings: Settings, hasEstimator: bool, fleet: map<string, Deployment>,
                           d: Deployment, req: FitRequest)
    requires GateSized(gate, settings, d, req) && req.plan.tensorParallel == 1 && req.plan.pipelineParallel == 1
    requires 1 <= req.seqs && 1 <= req.context && 0.0 < PerLayerPerToken(req.shape, req.kvDtype)
    requires d.id in fleet && fleet[d.id] == d
    ensures d.shape.WellFormed() && Traffic(fleet, Offers(d, req.context, req.seqs))
    ensures AdmitsAllWithin(settings, hasEstimator, fleet, d, req.seqs, req.context)
      <==> CachedLayerTokens(req.shape, req.context) == req.shape.numLayers * req.context
    ensures |Run(settings, hasEstimator, fleet, Offers(d, req.context, req.seqs)).grants| == req.seqs
      <==> CachedLayerTokens(req.shape, req.context) == req.shape.numLayers * req.context
  {
    SizedContext(gate, settings, d, req);
    hide AdmitsAllWithin, Run, GateSized, CachedLayerTokens, PerLayerPerToken, CoversSize;
    CoveredIffUncapped(gate, settings, hasEstimator, d, req);
    AdmitsAllIff(settings, hasEstimator, fleet, d, req.seqs, req.context);
    FullLoad(settings, hasEstimator, fleet, d, req.context, req.seqs);
  }

  lemma CoveredIffUncapped(gate: Calculator, settings: Settings, hasEstimator: bool, d: Deployment, req: FitRequest)
    requires GateSized(gate, settings, d, req) && req.plan.tensorParallel == 1 && req.plan.pipelineParallel == 1
    requires 1 <= req.seqs && 1 <= req.context && 0.0 < PerLayerPerToken(req.shape, req.kvDtype)
    ensures d.shape.WellFormed()
    ensures CoversSize(settings, hasEstimator, d, req.seqs, req.context)
      <==> CachedLayerTokens(req.shape, req.context) == req.shape.numLayers * req.context
  {
    SizedContext(gate, settings, d, req);
    var p := WholeRate(req.shape, req.kvDtype);
    CostWhole(gate, settings, hasEstimator, d, req, p);
    BudgetWhole(gate, settings, d, req, p);
    CachedTokensPositive(req.shape, req.context);
    WindowCaps(req.shape, req.context);
    var cached := CachedLayerTokens(req.shape, req.context);
    hide KvCost, KvBudget, GateSized, CachedLayerTokens, PerLayerPerToken, RequestShare;
    LoadAgainstBudget(p, req.shape.numLayers * req.context, cached, req.seqs);
  }

  lemma LoadAgainstBudget(p: int, full: int, cached: int, n: int)
    requires 1 <= p && 1 <= n && 1 <= cached
    ensures 0 < p * cached * n
    ensures n * (p * full) <= p * cached * n <==> full <= cached
  {
    var budget, need := p * cached, p * full;
    assert n * need == need * n;
    StrictMono(cached, full, p);
    StrictMono(budget, need, n);
    StrictMono(0, cached, p);
    StrictMono(0, budget, n);
  }

  lemma StrictMono(a: int, b: int, k: int)
    requires 1 <= k
    ensures k * a < k * b <==> a < b
    ensures a * k < b * k <==> a < b
  {
    if a < b {
      IntMulMono(a + 1, b, k);
    } else {
      IntMulMono(b, a, k);
    }
  }

  lemma WholeRate(shape: ModelShape, kvDtype: string) returns (p: int)
    requires shape.WellFormed() && 0.0 < PerLayerPerToken(shape, kvDtype)
    ensures 1 <= p && PerLayerPerToken(shape, kvDtype) == p as real
  {
    var elem := KvElemBytes(kvDtype, shape.dtype);
    var width: nat := if shape.IsMla() then shape.mlaLatentDim.value + shape.MlaRopeDim() else 2 * shape.numKvHeads * shape.HeadDim();
    var e: nat := if elem == 1.0 then 1 else if elem == 2.0 then 2 else 4;
    p := width * e;
    assert PerLayerPerToken(shape, kvDtype) == width as real * e as real;
  }

  lemma CostWhole(gate: Calculator, settings: Settings, hasEstimator: bool, d: Deployment, req: FitRequest, p: int)
    requires GateSized(gate, settings, d, req) && req.plan.tensorParallel == 1 && req.plan.pipelineParallel == 1
    requires 1 <= p && PerLayerPerToken(req.shape, req.kvDtype) == p as real
    ensures d.shape.WellFormed()
    ensures KvCost(settings, hasEstimator, d, req.context) == p * (req.shape.numLayers * req.context)
  {
    hide PerLayerPerToken, FallbackBytesPerToken, FallbackEntry, Calculator.BreakdownOf;
    FallbackAgrees(d.shape, req.kvDtype);
    var n := req.shape.numLayers;
    assert n as real * p as real * req.context as real == (p * (n * req.context)) as real by {
      assert n * p * req.context == p * (n * req.context);
    }
    IntMulMono(0, n, req.context);
    IntMulMono(0, n * req.context, p);
  }

  lemma BudgetWhole(gate: Calculator, settings: Settings, d: Deployment, req: FitRequest, p: int)
    requires GateSized(gate, settings, d, req) && req.plan.tensorParallel == 1 && req.plan.pipelineParallel == 1
    requires 1 <= p && PerLayerPerToken(req.shape, req.kvDtype) == p as real
    ensures KvBudget(settings, d) == p * CachedLayerTokens(req.shape, req.context) * req.seqs
  {
    SizedBudget(gate, settings, d, req);
    OneRankDivisor(req.shape, req.plan);
    WholeBytes(req, p);
    hide PerLayerPerToken, CachedLayerTokens, FallbackEntry, KvBudget, Calculator.BreakdownOf, KvCacheBytes, KvDivisor;
  }

  lemma WholeBytes(req: FitRequest, p: int)
    requires req.shape.WellFormed() && 0 <= req.seqs && 1 <= p && PerLayerPerToken(req.shape, req.kvDtype) == p as real
    ensures KvCacheBytes(req.shape, req.context, req.seqs, req.kvDtype) == (p * CachedLayerTokens(req.shape, req.context) * req.seqs) as real
    ensures 0 <= p * CachedLayerTokens(req.shape, req.context) * req.seqs
  {
    hide PerLayerPerToken, CachedLayerTokens;
    var cached := CachedLayerTokens(req.shape, req.context);
    assert p as real * cached as real * req.seqs as real == (p * cached * req.seqs) as real;
    IntMulMono(0, cached, p);
    IntMulMono(0, p * cached, req.seqs);
  }

  lemma CachedTokensPositive(shape: ModelShape, context: int)
    requires 1 <= shape.numLayers && 1 <= context
    ensures 1 <= CachedLayerTokens(shape, context)
  {
    CachedTokensAreLayerSum(shape, context);
    assert 1 <= LayerTokens(shape, shape.numLayers - 1, context);
  }
}
