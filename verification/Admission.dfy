/** Request-level admission: what a request costs in cache, what a deployment can afford, and the commitments held
    until responses complete. */
module Admission {
  import opened Numbers
  import opened Contracts
  import opened Fsm
  import opened Kv
  import opened Memory

  const MEMORY_CRITICAL := "memory_critical"
  const DRAINING := "draining"

  datatype Settings = Settings(
    kvBudgetFraction: real,
    assumedMaxTokens: nat,
    defaultKvDtype: string,
    criticalMemoryPct: real)

  /** A node as the registry last saw it. */
  datatype NodeState = NodeState(addressable: int, used: int, healthy: bool)
  {
    predicate Critical(settings: Settings) {
      0 < addressable && settings.criticalMemoryPct <= used as real / addressable as real
    }
  }

  /** What reconciliation reads of a deployment. */
  datatype Placement = Placement(id: string, nodeIds: seq<string>, state: State)
  {
    predicate Pressured(settings: Settings, nodes: map<string, NodeState>) {
      exists n <- nodeIds :: n in nodes && nodes[n].Critical(settings)
    }

    /** Stopping drains; so does failing on a node that is itself unwell. */
    predicate Draining(nodes: map<string, NodeState>) {
      state in {Stopping, Stopped} || (state == Failed && exists n <- nodeIds :: n in nodes && !nodes[n].healthy)
    }
  }

  /** A deployment, with the cache term the launch gate approved it at. */
  datatype Deployment = Deployment(
    id: string,
    shape: ModelShape,
    plan: ParallelismPlan,
    contextLength: int,
    fitKvCache: int)

  /** What the body says, read: estimated prompt tokens, and the completion length when the client named one. */
  datatype Ask = Ask(promptTokens: nat, explicitMax: Option<nat>)

  /** The tokens the client itself asked for: the prompt, and the completion it named. */
  function Named(ask: Ask): nat {
    match ask.explicitMax
    case Some(n) => ask.promptTokens + n
    case None => ask.promptTokens
  }

  /** A request longer than the deployment's configured context, if it has one. */
  predicate Overlong(d: Deployment, ask: Ask) { d.contextLength != 0 && d.contextLength < Named(ask) }

  datatype Decision = TooLong | Exhausted(kvBytes: int) | Admitted(kvBytes: int)

  /** The gateway's own element table, used when the gate exports no estimator. */
  function FallbackEntry(name: string): Option<real> {
    if name in {"fp32", "float32"} then Some(4.0)
    else if name in {"bf16", "bfloat16", "fp16", "float16"} then Some(2.0)
    else if name in {"fp8", "float8", "fp8_e5m2", "fp8_e4m3", "int8"} then Some(1.0)
    else None
  }

  function FallbackBytesPerToken(shape: ModelShape, kvDtype: string): real
    requires shape.WellFormed()
  {
    var elem := if FallbackEntry(kvDtype).Some? then FallbackEntry(kvDtype).value else 2.0;
    if shape.IsMla() then (shape.numLayers * (shape.mlaLatentDim.value + shape.MlaRopeDim())) as real * elem
    else 2.0 * shape.numLayers as real * shape.numKvHeads as real * shape.HeadDim() as real * elem
  }

  /** The gate's estimator when it has one. */
  function BytesPerToken(hasEstimator: bool, shape: ModelShape, kvDtype: string): real
    requires shape.WellFormed()
  {
    if hasEstimator then KvBytesPerToken(shape, kvDtype) else FallbackBytesPerToken(shape, kvDtype)
  }

  /** The cache dtypes the gateway names. */
  const GATEWAY_DTYPES: set<string> := {
    "fp32", "float32", "bf16", "bfloat16", "fp16", "float16", "fp8", "float8", "fp8_e5m2", "fp8_e4m3", "int8"}

  lemma GatewayNames(kvDtype: string)
    ensures kvDtype in GATEWAY_DTYPES <==> FallbackEntry(kvDtype).Some?
  {}

  /** For every cache dtype the gateway names, its fallback prices a token exactly as the gate does. */
  lemma FallbackAgrees(shape: ModelShape, kvDtype: string)
    requires shape.WellFormed() && kvDtype in GATEWAY_DTYPES
    ensures FallbackBytesPerToken(shape, kvDtype) == KvBytesPerToken(shape, kvDtype)
  {
    GatewayNames(kvDtype);
    hide KvElemBytes, FallbackEntry, ModelShape.HeadDim, ModelShape.MlaRopeDim, GATEWAY_DTYPES;
    SameElem(kvDtype, shape.dtype);
    var elem := KvElemBytes(kvDtype, shape.dtype);
    if shape.IsMla() {
      SameLatent(shape.numLayers, shape.mlaLatentDim.value + shape.MlaRopeDim(), elem);
    } else {
      SameProduct(shape.numLayers, shape.numKvHeads, shape.HeadDim(), elem);
    }
  }

  /** For any other it charges two bytes an element: where a token takes any room the two prices agree exactly on the dtypes
      the gateway names and on those the gate charges two bytes for. */
  lemma FallbackAgreesIff(shape: ModelShape, kvDtype: string)
    requires shape.WellFormed() && (shape.IsMla() || 0 < shape.numKvHeads * shape.HeadDim())
    ensures FallbackBytesPerToken(shape, kvDtype) == KvBytesPerToken(shape, kvDtype)
            <==> kvDtype in GATEWAY_DTYPES || KvElemBytes(kvDtype, shape.dtype) == 2.0
  {
    GatewayNames(kvDtype);
    if kvDtype in GATEWAY_DTYPES {
      hide *;
      FallbackAgrees(shape, kvDtype);
    } else {
      hide *;
      UnnamedAgreesIff(shape, kvDtype);
    }
  }

  lemma UnnamedAgreesIff(shape: ModelShape, kvDtype: string)
    requires shape.WellFormed() && (shape.IsMla() || 0 < shape.numKvHeads * shape.HeadDim())
    requires FallbackEntry(kvDtype).None?
    ensures FallbackBytesPerToken(shape, kvDtype) == KvBytesPerToken(shape, kvDtype) <==> KvElemBytes(kvDtype, shape.dtype) == 2.0
  {
    if shape.IsMla() {
      hide *;
      LatentAgreesIff(shape, kvDtype);
    } else {
      hide *;
      HeadsAgreeIff(shape, kvDtype);
    }
  }

  lemma LatentAgreesIff(shape: ModelShape, kvDtype: string)
    requires shape.WellFormed() && shape.IsMla() && FallbackEntry(kvDtype).None?
    ensures FallbackBytesPerToken(shape, kvDtype) == KvBytesPerToken(shape, kvDtype) <==> KvElemBytes(kvDtype, shape.dtype) == 2.0
  {
    assert 1 <= shape.numLayers;
    hide *;
    LatentPricesAre(shape, kvDtype);
    LatentPrices(shape.numLayers, LatentWidth(shape), KvElemBytes(kvDtype, shape.dtype));
  }

  lemma HeadsAgreeIff(shape: ModelShape, kvDtype: string)
    requires shape.WellFormed() && !shape.IsMla() && 0 < shape.numKvHeads * shape.HeadDim() && FallbackEntry(kvDtype).None?
    ensures FallbackBytesPerToken(shape, kvDtype) == KvBytesPerToken(shape, kvDtype) <==> KvElemBytes(kvDtype, shape.dtype) == 2.0
  {
    assert 1 <= shape.numLayers;
    hide *;
    HeadPricesAre(shape, kvDtype);
    HeadPrices(shape.numLayers, shape.numKvHeads, shape.HeadDim(), KvElemBytes(kvDtype, shape.dtype),
               FallbackBytesPerToken(shape, kvDtype), KvBytesPerToken(shape, kvDtype));
  }

  function LatentWidth(shape: ModelShape): (n: nat)
    requires shape.IsMla()
    ensures 1 <= n
  {
    shape.mlaLatentDim.value + shape.MlaRopeDim()
  }

  lemma LatentPricesAre(shape: ModelShape, kvDtype: string)
    requires shape.WellFormed() && shape.IsMla() && FallbackEntry(kvDtype).None?
    ensures FallbackBytesPerToken(shape, kvDtype) == (shape.numLayers * LatentWidth(shape)) as real * 2.0
    ensures KvBytesPerToken(shape, kvDtype)
         == shape.numLayers as real * (LatentWidth(shape) as real * KvElemBytes(kvDtype, shape.dtype))
  {
    hide KvElemBytes, FallbackEntry, ModelShape.MlaRopeDim;
  }

  lemma HeadPricesAre(shape: ModelShape, kvDtype: string)
    requires shape.WellFormed() && !shape.IsMla() && FallbackEntry(kvDtype).None?
    ensures FallbackBytesPerToken(shape, kvDtype)
         == 2.0 * shape.numLayers as real * shape.numKvHeads as real * shape.HeadDim() as real * 2.0
    ensures KvBytesPerToken(shape, kvDtype)
         == shape.numLayers as real * ((2 * shape.numKvHeads * shape.HeadDim()) as real * KvElemBytes(kvDtype, shape.dtype))
  {
    hide KvElemBytes, FallbackEntry, ModelShape.HeadDim;
  }

  lemma Scales(x: real, a: real, b: real)
    requires 0.0 < x
    ensures x * a == x * b <==> a == b
  {
    if x * a == x * b {
      assert x * (a - b) == 0.0;
    }
  }

  lemma LatentPrices(layers: nat, width: nat, elem: real)
    requires 1 <= layers && 1 <= width
    ensures (layers * width) as real * 2.0 == layers as real * (width as real * elem) <==> elem == 2.0
  {
    SameLatent(layers, width, elem);
    IntMulMono(1, layers, width);
    var x := (layers * width) as real;
    assert 1.0 <= x;
    Scales(x, elem, 2.0);
  }

  lemma HeadPrices(layers: nat, heads: nat, dim: nat, elem: real, fallback: real, own: real)
    requires 1 <= layers && 0 < heads * dim
    requires fallback == 2.0 * layers as real * heads as real * dim as real * 2.0
    requires own == layers as real * ((2 * heads * dim) as real * elem)
    ensures fallback == own <==> elem == 2.0
  {
    SameProduct(layers, heads, dim, 2.0);
    var x := layers as real * (2 * heads * dim) as real;
    assert 0.0 < x by { TwiceLayers(layers, heads * dim); assert 2 * heads * dim == 2 * (heads * dim); }
    assert layers as real * ((2 * heads * dim) as real * elem) == x * elem;
    assert layers as real * ((2 * heads * dim) as real * 2.0) == x * 2.0;
    Scales(x, elem, 2.0);
  }

  lemma TwiceLayers(layers: nat, width: nat)
    requires 1 <= layers && 1 <= width
    ensures 0.0 < layers as real * (2 * width) as real
  {}

  lemma SameElem(kvDtype: string, modelDtype: string)
    requires FallbackEntry(kvDtype).Some?
    ensures FallbackEntry(kvDtype) == Some(KvElemBytes(kvDtype, modelDtype))
  {}

  lemma SameLatent(layers: nat, width: nat, elem: real)
    ensures (layers * width) as real * elem == layers as real * (width as real * elem)
  {
    assert (layers * width) as real == layers as real * width as real;
  }

  lemma SameProduct(layers: nat, heads: nat, dim: nat, elem: real)
    ensures 2.0 * layers as real * heads as real * dim as real * elem == layers as real * ((2 * heads * dim) as real * elem)
  {
    assert (2 * heads * dim) as real == 2.0 * heads as real * dim as real;
  }

  function KvBudget(settings: Settings, d: Deployment): int {
    Trunc(d.fitKvCache as real * settings.kvBudgetFraction)
  }

  /** The cache is split by head and by layer. */
  function Shards(d: Deployment): nat {
    Max(1, d.plan.tensorParallel * d.plan.pipelineParallel)
  }

  function Requested(settings: Settings, ask: Ask): nat {
    ask.promptTokens + if ask.explicitMax.Some? && 0 < ask.explicitMax.value then ask.explicitMax.value else settings.assumedMaxTokens
  }

  function KvCost(settings: Settings, hasEstimator: bool, d: Deployment, tokens: nat): int
    requires d.shape.WellFormed()
  {
    Trunc(RequestShare(settings, hasEstimator, d, tokens))
  }

  /** What so many tokens hold on one rank, before truncation. */
  function RequestShare(settings: Settings, hasEstimator: bool, d: Deployment, tokens: int): real
    requires d.shape.WellFormed()
  {
    BytesPerToken(hasEstimator, d.shape, settings.defaultKvDtype) * tokens as real / Shards(d) as real
  }

  /** Only explicit numbers refuse a request for its length; the assumed completion counts toward its cost. */
  function Decide(settings: Settings, hasEstimator: bool, d: Deployment, ask: Ask, used: int): Decision
    requires d.shape.WellFormed()
  {
    var hard := ask.promptTokens + if ask.explicitMax.Some? then ask.explicitMax.value else 0;
    var cost := KvCost(settings, hasEstimator, d, Requested(settings, ask));
    var budget := KvBudget(settings, d);
    if d.contextLength != 0 && d.contextLength < hard then TooLong
    else if 0 < budget < used + cost then Exhausted(cost)
    else Admitted(cost)
  }

  /** Refused for its length exactly when it is overlong, else for the cache exactly when a positive budget does not cover it,
      and admitted at its cost otherwise. */
  lemma DecisionIs(settings: Settings, hasEstimator: bool, d: Deployment, ask: Ask, used: int)
    requires d.shape.WellFormed()
    ensures var decision := Decide(settings, hasEstimator, d, ask, used);
      var cost, budget := KvCost(settings, hasEstimator, d, Requested(settings, ask)), KvBudget(settings, d);
      && (decision == TooLong <==> Overlong(d, ask))
      && (decision == Exhausted(cost) <==> !Overlong(d, ask) && 0 < budget && budget < used + cost)
      && (decision == Admitted(cost) <==> !Overlong(d, ask) && (budget <= 0 || used + cost <= budget))
      && (decision.Admitted? ==> decision == Admitted(cost))
  {
    hide KvCost, KvBudget, Requested;
  }

  function Committed(table: map<string, int>, id: string): int {
    if id in table then table[id] else 0
  }

  function Commit(table: map<string, int>, id: string, kv: int): map<string, int> {
    table[id := Committed(table, id) + kv]
  }

  function Release(table: map<string, int>, id: string, kv: int): map<string, int> {
    var remaining := Committed(table, id) - kv;
    if 0 < remaining then table[id := remaining] else table - {id}
  }

  /** A node that has used so large a share of what it can address. */
  predicate AtLimit(node: NodeState, share: real) {
    0 < node.addressable && share * node.addressable as real <= node.used as real
  }

  lemma PressuredIs(p: Placement, settings: Settings, nodes: map<string, NodeState>)
    ensures p.Pressured(settings, nodes) <==> exists n <- p.nodeIds :: n in nodes && AtLimit(nodes[n], settings.criticalMemoryPct)
  {
    forall n | n in p.nodeIds && n in nodes ensures nodes[n].Critical(settings) <==> AtLimit(nodes[n], settings.criticalMemoryPct) {
      if 0 < nodes[n].addressable {
        ShareIs(nodes[n].used as real, nodes[n].addressable as real, settings.criticalMemoryPct);
      }
    }
  }

  lemma ShareIs(used: real, whole: real, share: real)
    requires 0.0 < whole
    ensures share <= used / whole <==> share * whole <= used
  {
    var x := used / whole;
    assert x * whole == used;
    if share <= x {
      MulMono(share, x, whole);
    } else {
      assert 0.0 < (share - x) * whole;
    }
  }

  class AdmissionController {
    const settings: Settings
    const hasEstimator: bool
    var committed: map<string, int>
    var blocks: map<string, set<string>>

    constructor (settings: Settings, hasEstimator: bool)
      ensures this.settings == settings && this.hasEstimator == hasEstimator && committed == map[] && blocks == map[]
    {
      this.settings, this.hasEstimator := settings, hasEstimator;
      committed, blocks := map[], map[];
    }

    function Blocks(id: string): set<string>
      reads this
    {
      if id in blocks then blocks[id] else {}
    }

    method Block(id: string, reason: string)
      modifies this`blocks
      ensures Blocks(id) == old(Blocks(id)) + {reason}
      ensures forall other | other != id :: Blocks(other) == old(Blocks(other))
    {
      blocks := blocks[id := Blocks(id) + {reason}];
    }

    method Unblock(id: string, reason: string)
      modifies this`blocks
      ensures Blocks(id) == old(Blocks(id)) - {reason}
      ensures forall other | other != id :: Blocks(other) == old(Blocks(other))
    {
      var left := Blocks(id) - {reason};
      blocks := if left == {} then blocks - {id} else blocks[id := left];
    }

    /** Every listed deployment ends blocked for memory exactly when one of its nodes is critical, and for draining
        exactly when it drains; nobody else's blocks, and no other reason, move. */
    method Reconcile(nodes: map<string, NodeState>, deployments: seq<Placement>)
      requires forall i, j :: 0 <= i < j < |deployments| ==> deployments[i].id != deployments[j].id
      modifies this`blocks
      ensures forall i :: 0 <= i < |deployments| ==>
        && (MEMORY_CRITICAL in Blocks(deployments[i].id) <==>
              exists n <- deployments[i].nodeIds :: n in nodes && AtLimit(nodes[n], settings.criticalMemoryPct))
        && (DRAINING in Blocks(deployments[i].id) <==>
              || deployments[i].state == Stopping || deployments[i].state == Stopped
              || (deployments[i].state == Failed && exists n <- deployments[i].nodeIds :: n in nodes && !nodes[n].healthy))
      ensures forall id, reason | reason !in {MEMORY_CRITICAL, DRAINING} || (forall i :: 0 <= i < |deployments| ==> deployments[i].id != id) ::
        reason in Blocks(id) <==> reason in old(Blocks(id))
    {
      for k := 0 to |deployments|
        invariant forall i :: 0 <= i < k ==>
          && (MEMORY_CRITICAL in Blocks(deployments[i].id) <==> deployments[i].Pressured(settings, nodes))
          && (DRAINING in Blocks(deployments[i].id) <==> deployments[i].Draining(nodes))
        invariant forall id, reason | reason !in {MEMORY_CRITICAL, DRAINING} || (forall i :: 0 <= i < k ==> deployments[i].id != id) ::
          reason in Blocks(id) <==> reason in old(Blocks(id))
      {
        var d := deployments[k];
        if d.Pressured(settings, nodes) {
          Block(d.id, MEMORY_CRITICAL);
        } else {
          Unblock(d.id, MEMORY_CRITICAL);
        }
        if d.Draining(nodes) {
          Block(d.id, DRAINING);
        } else {
          Unblock(d.id, DRAINING);
        }
      }
      forall i | 0 <= i < |deployments|
        ensures deployments[i].Pressured(settings, nodes) <==>
          exists n <- deployments[i].nodeIds :: n in nodes && AtLimit(nodes[n], settings.criticalMemoryPct)
      {
        PressuredIs(deployments[i], settings, nodes);
      }
    }

    /** Refused for its length exactly when the client's own numbers exceed a configured context, whatever the load and
        however long the assumed completion; for the cache exactly when a positive budget does not cover it. */
    function Check(d: Deployment, ask: Ask): (decision: Decision)
      requires d.shape.WellFormed()
      reads this`committed
      ensures decision.TooLong? <==> Overlong(d, ask)
      ensures !decision.TooLong? ==>
        var budget := KvBudget(settings, d);
        decision.Exhausted? <==> 0 < budget && budget - Committed(committed, d.id) < decision.kvBytes
    {
      Decide(settings, hasEstimator, d, ask, Committed(committed, d.id))
    }

    method CommitBytes(id: string, kv: int)
      modifies this`committed
      ensures committed == Commit(old(committed), id, kv)
    {
      committed := committed[id := Committed(committed, id) + kv];
    }

    method ReleaseBytes(id: string, kv: int)
      modifies this`committed
      ensures committed == Release(old(committed), id, kv)
      ensures id in committed <==> 0 < Committed(old(committed), id) - kv
    {
      var remaining := Committed(committed, id) - kv;
      if 0 < remaining {
        committed := committed[id := remaining];
      } else {
        committed := committed - {id};
      }
    }
  }

  // ----- conservation over whole runs

  /** A commitment not yet given back. */
  datatype Grant = Grant(id: string, ask: Ask, tokens: nat, kvBytes: int)

  datatype Ledger = Ledger(committed: map<string, int>, grants: seq<Grant>)

  /** Check-then-commit is one step: nothing awaits between the two. A finished response releases its own grant. */
  datatype Op = Offer(deployment: Deployment, ask: Ask) | Finish(grant: nat)

  /** The run's offers come from the fleet; every deployment keeps one description throughout. */
  predicate Traffic(fleet: map<string, Deployment>, ops: seq<Op>) {
    forall i :: 0 <= i < |ops| && ops[i].Offer? ==>
      var d := ops[i].deployment; d.id in fleet && fleet[d.id] == d && d.shape.WellFormed()
  }

  /** Finishing a request that is not outstanding changes nothing: each grant is given back once. */
  function Step(settings: Settings, hasEstimator: bool, l: Ledger, op: Op): Ledger
    requires op.Offer? ==> op.deployment.shape.WellFormed()
  {
    match op
    case Offer(d, ask) =>
      (match Decide(settings, hasEstimator, d, ask, Committed(l.committed, d.id))
       case Admitted(kv) => Ledger(Commit(l.committed, d.id, kv), l.grants + [Grant(d.id, ask, Requested(settings, ask), kv)])
       case _ => l)
    case Finish(g) =>
      if g < |l.grants| then
        Ledger(Release(l.committed, l.grants[g].id, l.grants[g].kvBytes), l.grants[..g] + l.grants[g + 1..])
      else l
  }

  function Run(settings: Settings, hasEstimator: bool, fleet: map<string, Deployment>, ops: seq<Op>): Ledger
    requires Traffic(fleet, ops)
  {
    if ops == [] then Ledger(map[], [])
    else Step(settings, hasEstimator, Run(settings, hasEstimator, fleet, ops[..|ops| - 1]), ops[|ops| - 1])
  }

  function Outstanding(grants: seq<Grant>, id: string): int {
    if grants == [] then 0
    else Outstanding(grants[..|grants| - 1], id) + if grants[|grants| - 1].id == id then grants[|grants| - 1].kvBytes else 0
  }

  /** Every outstanding grant is held at what its request was priced. */
  ghost predicate Priced(settings: Settings, hasEstimator: bool, fleet: map<string, Deployment>, grants: seq<Grant>) {
    forall i :: 0 <= i < |grants| ==>
      && grants[i].id in fleet && fleet[grants[i].id].shape.WellFormed()
      && grants[i].kvBytes == KvCost(settings, hasEstimator, fleet[grants[i].id], grants[i].tokens)
      && 0 <= grants[i].kvBytes
  }

  ghost predicate Balanced(l: Ledger) {
    forall id :: Committed(l.committed, id) == Outstanding(l.grants, id)
  }

  ghost predicate WithinBudgets(settings: Settings, fleet: map<string, Deployment>, committed: map<string, int>) {
    forall id | id in fleet && 0 < KvBudget(settings, fleet[id]) :: Committed(committed, id) <= KvBudget(settings, fleet[id])
  }

  lemma {:induction false} OutstandingNonneg(grants: seq<Grant>, id: string)
    requires forall i :: 0 <= i < |grants| ==> 0 <= grants[i].kvBytes
    ensures 0 <= Outstanding(grants, id)
  {
    if grants != [] {
      OutstandingNonneg(grants[..|grants| - 1], id);
    }
  }

  lemma {:induction false} OutstandingJoin(a: seq<Grant>, b: seq<Grant>, id: string)
    ensures Outstanding(a + b, id) == Outstanding(a, id) + Outstanding(b, id)
  {
    if b == [] {
      assert a + b == a;
    } else {
      var n := |b| - 1;
      assert (a + b)[..|a| + n] == a + b[..n];
      OutstandingJoin(a, b[..n], id);
    }
  }

  lemma OutstandingRemove(grants: seq<Grant>, g: nat, id: string)
    requires g < |grants|
    ensures Outstanding(grants[..g] + grants[g + 1..], id)
      == Outstanding(grants, id) - if grants[g].id == id then grants[g].kvBytes else 0
  {
    hide Outstanding;
    assert grants == grants[..g] + [grants[g]] + grants[g + 1..];
    OutstandingJoin(grants[..g] + [grants[g]], grants[g + 1..], id);
    OutstandingAppend(grants[..g], grants[g], id);
    OutstandingJoin(grants[..g], grants[g + 1..], id);
  }

  lemma OutstandingAppend(grants: seq<Grant>, grant: Grant, id: string)
    ensures Outstanding(grants + [grant], id) == Outstanding(grants, id) + if grant.id == id then grant.kvBytes else 0
  {
    assert (grants + [grant])[..|grants|] == grants;
  }

  lemma CostRange(settings: Settings, hasEstimator: bool, d: Deployment, tokens: nat)
    requires d.shape.WellFormed()
    ensures 0 <= KvCost(settings, hasEstimator, d, tokens)
    ensures KvCost(settings, hasEstimator, d, tokens) as real <= RequestShare(settings, hasEstimator, d, tokens)
  {
    hide Trunc, BytesPerToken, Shards;
    ShardsPositive(d);
    TokenBytesNonneg(hasEstimator, d.shape, settings.defaultKvDtype);
    var rate := BytesPerToken(hasEstimator, d.shape, settings.defaultKvDtype);
    MulNonneg(rate, tokens as real);
    DivMono(0.0, rate * tokens as real, Shards(d) as real);
    TruncBelow(RequestShare(settings, hasEstimator, d, tokens));
  }

  lemma ShardsPositive(d: Deployment)
    ensures 1 <= Shards(d)
  {}

  lemma TruncBelow(x: real)
    requires 0.0 <= x
    ensures 0 <= Trunc(x) && Trunc(x) as real <= x < Trunc(x) as real + 1.0
  {}

  lemma TokenBytesNonneg(hasEstimator: bool, shape: ModelShape, kvDtype: string)
    requires shape.WellFormed()
    ensures 0.0 <= BytesPerToken(hasEstimator, shape, kvDtype)
  {
    hide PerLayerPerToken;
    PerLayerNonneg(shape, kvDtype);
    MulNonneg(shape.numLayers as real, PerLayerPerToken(shape, kvDtype));
    FallbackNonneg(shape, kvDtype);
  }

  lemma FallbackNonneg(shape: ModelShape, kvDtype: string)
    requires shape.WellFormed()
    ensures 0.0 <= FallbackBytesPerToken(shape, kvDtype)
  {
    var elem := if FallbackEntry(kvDtype).Some? then FallbackEntry(kvDtype).value else 2.0;
    SameProduct(shape.numLayers, shape.numKvHeads, shape.HeadDim(), elem);
    MulNonneg((2 * shape.numKvHeads * shape.HeadDim()) as real, elem);
    MulNonneg(shape.numLayers as real, (2 * shape.numKvHeads * shape.HeadDim()) as real * elem);
  }

  /** After every run, what is committed to a deployment is exactly the sum of its outstanding grants, never exceeds a
      positive budget, and is nothing once every request has finished. */
  lemma {:induction false} CommitmentsConserved(settings: Settings, hasEstimator: bool, fleet: map<string, Deployment>, ops: seq<Op>)
    requires Traffic(fleet, ops)
    ensures var l := Run(settings, hasEstimator, fleet, ops);
            && Balanced(l) && Priced(settings, hasEstimator, fleet, l.grants)
            && WithinBudgets(settings, fleet, l.committed)
            && (l.grants == [] ==> forall id :: Committed(l.committed, id) == 0)
    decreases |ops|
  {
    hide KvBudget, KvCost, Decide;
    if ops != [] {
      var op := ops[|ops| - 1];
      var before := Run(settings, hasEstimator, fleet, ops[..|ops| - 1]);
      CommitmentsConserved(settings, hasEstimator, fleet, ops[..|ops| - 1]);
      match op
      case Offer(d, ask) => OfferKeeps(settings, hasEstimator, fleet, before, d, ask);
      case Finish(g) =>
        if g < |before.grants| {
          FinishKeeps(settings, hasEstimator, fleet, before, g);
        }
    }
  }

  lemma OfferKeeps(settings: Settings, hasEstimator: bool, fleet: map<string, Deployment>, l: Ledger, d: Deployment, ask: Ask)
    requires Balanced(l) && Priced(settings, hasEstimator, fleet, l.grants) && WithinBudgets(settings, fleet, l.committed)
    requires d.shape.WellFormed() && d.id in fleet && fleet[d.id] == d
    ensures var after := Step(settings, hasEstimator, l, Offer(d, ask));
            Balanced(after) && Priced(settings, hasEstimator, fleet, after.grants) && WithinBudgets(settings, fleet, after.committed)
  {
    hide KvBudget, KvCost;
    CostRange(settings, hasEstimator, d, Requested(settings, ask));
    var after := Step(settings, hasEstimator, l, Offer(d, ask));
    if after != l {
      assert after.grants[..|l.grants|] == l.grants;
      forall id ensures Committed(after.committed, id) == Outstanding(after.grants, id) {
        assert Committed(l.committed, id) == Outstanding(l.grants, id);
      }
    }
  }

  lemma FinishKeeps(settings: Settings, hasEstimator: bool, fleet: map<string, Deployment>, l: Ledger, g: nat)
    requires Balanced(l) && Priced(settings, hasEstimator, fleet, l.grants) && WithinBudgets(settings, fleet, l.committed)
    requires g < |l.grants|
    ensures var after := Step(settings, hasEstimator, l, Finish(g));
            Balanced(after) && Priced(settings, hasEstimator, fleet, after.grants) && WithinBudgets(settings, fleet, after.committed)
  {
    hide KvBudget, KvCost, Balanced, Priced, WithinBudgets, Release;
    FinishBalanced(l, g, settings, hasEstimator, fleet);
    FinishPriced(settings, hasEstimator, fleet, l.grants, g);
    FinishWithin(settings, fleet, l.committed, l.grants[g].id, l.grants[g].kvBytes, hasEstimator, l.grants, g);
  }

  lemma FinishPriced(settings: Settings, hasEstimator: bool, fleet: map<string, Deployment>, grants: seq<Grant>, g: nat)
    requires Priced(settings, hasEstimator, fleet, grants) && g < |grants|
    ensures Priced(settings, hasEstimator, fleet, grants[..g] + grants[g + 1..])
  {
    hide KvCost;
  }

  lemma FinishWithin(settings: Settings, fleet: map<string, Deployment>, committed: map<string, int>, id: string, kv: int,
                     hasEstimator: bool, grants: seq<Grant>, g: nat)
    requires WithinBudgets(settings, fleet, committed) && g < |grants| && Priced(settings, hasEstimator, fleet, grants)
    requires grants[g].id == id && grants[g].kvBytes == kv
    ensures WithinBudgets(settings, fleet, Release(committed, id, kv))
  {
    hide KvBudget, KvCost;
  }

  lemma FinishBalanced(l: Ledger, g: nat, settings: Settings, hasEstimator: bool, fleet: map<string, Deployment>)
    requires Balanced(l) && g < |l.grants| && Priced(settings, hasEstimator, fleet, l.grants)
    ensures Balanced(Ledger(Release(l.committed, l.grants[g].id, l.grants[g].kvBytes), l.grants[..g] + l.grants[g + 1..]))
  {
    hide KvCost;
    var grants := l.grants[..g] + l.grants[g + 1..];
    FinishPriced(settings, hasEstimator, fleet, l.grants, g);
    forall id ensures Committed(Release(l.committed, l.grants[g].id, l.grants[g].kvBytes), id) == Outstanding(grants, id) {
      hide Outstanding;
      assert Committed(l.committed, id) == Outstanding(l.grants, id);
      OutstandingRemove(l.grants, g, id);
      OutstandingNonneg(grants, id);
    }
  }

  /** Over every run, no outstanding grant is longer than its deployment's configured context, in the client's own numbers. */
  lemma {:induction false} NoneOverlong(settings: Settings, hasEstimator: bool, fleet: map<string, Deployment>, ops: seq<Op>)
    requires Traffic(fleet, ops)
    ensures forall g <- Run(settings, hasEstimator, fleet, ops).grants :: g.id in fleet && !Overlong(fleet[g.id], g.ask)
    decreases |ops|
  {
    hide KvBudget, KvCost, Commit, Release, Requested;
    if ops != [] {
      NoneOverlong(settings, hasEstimator, fleet, ops[..|ops| - 1]);
      if ops[|ops| - 1].Offer? {
        assert ops[|ops| - 1].deployment.id in fleet;
      }
    }
  }

  /** Whole bytes of an amount. */
  predicate WholeOf(n: int, amount: real) { n as real <= amount < n as real + 1.0 }

  /** A request costs the whole bytes of its share on one rank: the ranks together hold the bytes of its prompt and of the
      completion the client named, or else the assumed one. */
  lemma CostIs(settings: Settings, hasEstimator: bool, d: Deployment, ask: Ask)
    requires d.shape.WellFormed() && 1 <= d.plan.tensorParallel && 1 <= d.plan.pipelineParallel
    ensures var tokens := Requested(settings, ask);
      && tokens == ask.promptTokens + (match ask.explicitMax case Some(n) => (if n == 0 then settings.assumedMaxTokens else n)
                                                             case None => settings.assumedMaxTokens)
      && WholeOf(KvCost(settings, hasEstimator, d, tokens), RequestShare(settings, hasEstimator, d, tokens))
      && RequestShare(settings, hasEstimator, d, tokens) * (d.plan.tensorParallel * d.plan.pipelineParallel) as real
         == (if hasEstimator then KvBytesPerToken(d.shape, settings.defaultKvDtype)
             else FallbackBytesPerToken(d.shape, settings.defaultKvDtype)) * tokens as real
  {
    hide RequestShare, KvCost, WholeOf, Requested, KvBytesPerToken, FallbackBytesPerToken;
    RequestedIs(settings, ask);
    CostWhole(settings, hasEstimator, d, Requested(settings, ask));
    SharedOut(settings, hasEstimator, d, Requested(settings, ask));
  }

  lemma RequestedIs(settings: Settings, ask: Ask)
    ensures Requested(settings, ask)
      == ask.promptTokens + match ask.explicitMax case Some(n) => (if n == 0 then settings.assumedMaxTokens else n)
                                                  case None => settings.assumedMaxTokens
  {}

  lemma CostWhole(settings: Settings, hasEstimator: bool, d: Deployment, tokens: nat)
    requires d.shape.WellFormed()
    ensures WholeOf(KvCost(settings, hasEstimator, d, tokens), RequestShare(settings, hasEstimator, d, tokens))
  {
    hide RequestShare;
    ShareNonneg(settings, hasEstimator, d, tokens);
    TruncBelow(RequestShare(settings, hasEstimator, d, tokens));
  }

  lemma SharedOut(settings: Settings, hasEstimator: bool, d: Deployment, tokens: int)
    requires d.shape.WellFormed() && 1 <= d.plan.tensorParallel && 1 <= d.plan.pipelineParallel
    ensures RequestShare(settings, hasEstimator, d, tokens) * (d.plan.tensorParallel * d.plan.pipelineParallel) as real
      == BytesPerToken(hasEstimator, d.shape, settings.defaultKvDtype) * tokens as real
  {
    hide KvBytesPerToken, FallbackBytesPerToken;
    IntMulMono(1, d.plan.tensorParallel, d.plan.pipelineParallel);
    Quotient(BytesPerToken(hasEstimator, d.shape, settings.defaultKvDtype) * tokens as real, Shards(d) as real);
  }

  lemma Quotient(x: real, y: real)
    requires y != 0.0
    ensures x / y * y == x
  {}

  lemma ShareNonneg(settings: Settings, hasEstimator: bool, d: Deployment, tokens: nat)
    requires d.shape.WellFormed()
    ensures 0.0 <= RequestShare(settings, hasEstimator, d, tokens)
  {
    RequestShareBounds(settings, hasEstimator, d, tokens, tokens);
    hide RequestShare;
  }

  lemma BudgetIs(settings: Settings, d: Deployment)
    requires 0.0 <= d.fitKvCache as real * settings.kvBudgetFraction
    ensures WholeOf(KvBudget(settings, d), d.fitKvCache as real * settings.kvBudgetFraction)
  {
    TruncBelow(d.fitKvCache as real * settings.kvBudgetFraction);
  }

  /** What an offer does: it is granted, at its cost, exactly when it is not overlong and what is held leaves room for it under
      a positive budget; otherwise nothing moves. */
  lemma OfferIs(settings: Settings, hasEstimator: bool, l: Ledger, d: Deployment, ask: Ask)
    requires d.shape.WellFormed()
    ensures var cost := KvCost(settings, hasEstimator, d, Requested(settings, ask));
      var budget, held := KvBudget(settings, d), Committed(l.committed, d.id);
      Step(settings, hasEstimator, l, Offer(d, ask))
      == if !Overlong(d, ask) && (budget <= 0 || held + cost <= budget)
         then Ledger(l.committed[d.id := held + cost], l.grants + [Grant(d.id, ask, Requested(settings, ask), cost)])
         else l
  {
    hide KvCost, KvBudget, Requested, Committed;
  }

  // ----- admission honours what the gate sized

  /** The deployment runs at the size the gate approved, with the cache dtype the gateway charges by. */
  ghost predicate GateSized(gate: Calculator, settings: Settings, d: Deployment, req: FitRequest) {
    && gate.CanPrice(req.shape) && 1 <= req.plan.tensorParallel && 1 <= req.plan.pipelineParallel && 0 <= req.context && 0 <= req.seqs
    && d.shape == req.shape && d.plan == req.plan && d.contextLength == req.context
    && d.fitKvCache == gate.BreakdownOf(req).kvCache
    && settings.kvBudgetFraction == 1.0
    && settings.defaultKvDtype == req.kvDtype && req.kvDtype in GATEWAY_DTYPES
  }

  function CountOf(grants: seq<Grant>, id: string): nat {
    if grants == [] then 0
    else CountOf(grants[..|grants| - 1], id) + if grants[|grants| - 1].id == id then 1 else 0
  }

  /** On a cache no window caps, a request within the configured context is admitted whenever fewer than the sized
      number of such requests are outstanding, whatever else the run did. */
  lemma GateSizedTrafficAdmitted(gate: Calculator, settings: Settings, hasEstimator: bool, fleet: map<string, Deployment>, ops: seq<Op>,
                                 d: Deployment, req: FitRequest, ask: Ask)
    requires Traffic(fleet, ops) && GateSized(gate, settings, d, req) && d.id in fleet && fleet[d.id] == d
    requires CachedLayerTokens(req.shape, req.context) == req.shape.numLayers * req.context
    requires CountOf(Run(settings, hasEstimator, fleet, ops).grants, d.id) < req.seqs
    requires forall g <- Run(settings, hasEstimator, fleet, ops).grants :: g.id == d.id ==> g.tokens <= req.context
    requires Requested(settings, ask) <= req.context
    ensures Decide(settings, hasEstimator, d, ask, Committed(Run(settings, hasEstimator, fleet, ops).committed, d.id)).Admitted?
  {
    SizedContext(gate, settings, d, req);
    hide KvCost, KvBudget, GateSized, CachedLayerTokens, CountOf, Outstanding, Run, Traffic, WithinBudgets, Priced;
    var l := Run(settings, hasEstimator, fleet, ops);
    CommitmentsConserved(settings, hasEstimator, fleet, ops);
    SizedLoadFits(gate, settings, hasEstimator, fleet, l.grants, d, req, Requested(settings, ask));
  }

  /** Fewer than the sized number of in-context requests, plus one more, stay within the budget. */
  lemma SizedLoadFits(gate: Calculator, settings: Settings, hasEstimator: bool, fleet: map<string, Deployment>, grants: seq<Grant>,
                      d: Deployment, req: FitRequest, tokens: nat)
    requires Priced(settings, hasEstimator, fleet, grants) && GateSized(gate, settings, d, req) && d.id in fleet && fleet[d.id] == d
    requires CachedLayerTokens(req.shape, req.context) == req.shape.numLayers * req.context
    requires CountOf(grants, d.id) < req.seqs && tokens <= req.context
    requires forall g <- grants :: g.id == d.id ==> g.tokens <= req.context
    ensures d.shape.WellFormed()
    ensures Outstanding(grants, d.id) + KvCost(settings, hasEstimator, d, tokens) <= KvBudget(settings, d)
  {
    SizedContext(gate, settings, d, req);
    hide KvCost, KvBudget, GateSized, CachedLayerTokens, CountOf, Outstanding, Priced, RequestShare, Copies;
    OutstandingBound(settings, hasEstimator, fleet, grants, d, req.context);
    RequestShareBounds(settings, hasEstimator, d, req.context, tokens);
    BudgetCovers(gate, settings, hasEstimator, d, req);
    Pile(RequestShare(settings, hasEstimator, d, req.context), CountOf(grants, d.id), req.seqs, Outstanding(grants, d.id),
         KvCost(settings, hasEstimator, d, tokens), KvBudget(settings, d));
  }

  lemma SizedContext(gate: Calculator, settings: Settings, d: Deployment, req: FitRequest)
    requires GateSized(gate, settings, d, req)
    ensures d.contextLength == req.context && d.shape == req.shape && d.shape.WellFormed() && 0 <= req.context
  {}

  function Copies(n: int, u: real): real { n as real * u }

  lemma NoCopies(u: real)
    ensures Copies(0, u) == 0.0
  {}

  lemma OneMore(n: int, u: real)
    ensures Copies(n + 1, u) == Copies(n, u) + u
  {}

  lemma Pile(u: real, count: nat, seqs: int, used: int, cost: int, budget: int)
    requires 0.0 <= u && count < seqs && used as real <= Copies(count, u) && cost as real <= u
    requires Copies(seqs, u) < budget as real + 1.0
    ensures used + cost <= budget
  {
    hide Copies;
    OneMore(count, u);
    CopiesMono(count + 1, seqs, u);
  }

  lemma CopiesMono(m: int, n: int, u: real)
    requires m <= n && 0.0 <= u
    ensures Copies(m, u) <= Copies(n, u)
  {
    MulMono(m as real, n as real, u);
  }

  lemma RequestShareBounds(settings: Settings, hasEstimator: bool, d: Deployment, context: int, tokens: nat)
    requires d.shape.WellFormed() && tokens <= context
    ensures 0.0 <= RequestShare(settings, hasEstimator, d, context)
    ensures 0 <= KvCost(settings, hasEstimator, d, tokens)
    ensures KvCost(settings, hasEstimator, d, tokens) as real <= RequestShare(settings, hasEstimator, d, context)
  {
    hide BytesPerToken, KvCost, Shards;
    ShardsPositive(d);
    CostRange(settings, hasEstimator, d, tokens);
    var rate := BytesPerToken(hasEstimator, d.shape, settings.defaultKvDtype);
    TokenBytesNonneg(hasEstimator, d.shape, settings.defaultKvDtype);
    MulMono(tokens as real, context as real, rate);
    MulNonneg(rate, tokens as real);
    DivMono(rate * tokens as real, rate * context as real, Shards(d) as real);
    DivMono(0.0, rate * context as real, Shards(d) as real);
  }

  lemma {:induction false} OutstandingBound(settings: Settings, hasEstimator: bool, fleet: map<string, Deployment>, grants: seq<Grant>,
                                            d: Deployment, context: nat)
    requires Priced(settings, hasEstimator, fleet, grants) && d.id in fleet && fleet[d.id] == d && d.shape.WellFormed()
    requires forall g <- grants :: g.id == d.id ==> g.tokens <= context
    ensures Outstanding(grants, d.id) as real <= Copies(CountOf(grants, d.id), RequestShare(settings, hasEstimator, d, context))
  {
    hide KvCost, RequestShare, Copies;
    if grants == [] {
      NoCopies(RequestShare(settings, hasEstimator, d, context));
    } else {
      var last := |grants| - 1;
      forall g | g in grants[..last] ensures g in grants {}
      OutstandingBound(settings, hasEstimator, fleet, grants[..last], d, context);
      if grants[last].id == d.id {
        assert grants[last] in grants;
        RequestShareBounds(settings, hasEstimator, d, context, grants[last].tokens);
        OneMore(CountOf(grants[..last], d.id), RequestShare(settings, hasEstimator, d, context));
      }
    }
  }

  /** The gate's cache term, truncated once, covers every full-context share it was sized for. */
  lemma BudgetCovers(gate: Calculator, settings: Settings, hasEstimator: bool, d: Deployment, req: FitRequest)
    requires GateSized(gate, settings, d, req)
    requires CachedLayerTokens(req.shape, req.context) == req.shape.numLayers * req.context
    ensures 0 <= req.context
    ensures d.shape.WellFormed()
    ensures Copies(req.seqs, RequestShare(settings, hasEstimator, d, req.context)) < KvBudget(settings, d) as real + 1.0
  {
    SizedContext(gate, settings, d, req);
    SizedShare(gate, settings, hasEstimator, d, req);
    SizedBudget(gate, settings, d, req);
    SizedWhole(gate, settings, d, req);
    KvDivisorRange(req.shape, req.plan);
    hide *;
    var whole, divisor := KvCacheBytes(req.shape, req.context, req.seqs, req.kvDtype), KvDivisor(req.shape, req.plan);
    DivAnti(whole, divisor, (req.plan.Tp() * req.plan.Pp()) as real);
    DivMono(0.0, whole, divisor);
    TruncBelow(whole / divisor);
  }

  lemma SizedShare(gate: Calculator, settings: Settings, hasEstimator: bool, d: Deployment, req: FitRequest)
    requires GateSized(gate, settings, d, req)
    requires CachedLayerTokens(req.shape, req.context) == req.shape.numLayers * req.context
    ensures d.shape.WellFormed()
    ensures Copies(req.seqs, RequestShare(settings, hasEstimator, d, req.context))
      == KvCacheBytes(req.shape, req.context, req.seqs, req.kvDtype) / (req.plan.Tp() * req.plan.Pp()) as real
  {
    hide CachedLayerTokens, FallbackBytesPerToken, FallbackEntry, KvElemBytes, Trunc, KvCacheBytes, KvBytesPerToken, KvBudget,
         Calculator.BreakdownOf;
    WholeCache(req);
    FallbackAgrees(d.shape, req.kvDtype);
    assert Shards(d) == req.plan.Tp() * req.plan.Pp() by { IntMulMono(1, req.plan.Tp(), req.plan.Pp()); }
    SpreadOut(req.seqs as real, KvBytesPerToken(req.shape, req.kvDtype) * req.context as real, Shards(d) as real);
  }

  lemma SizedWhole(gate: Calculator, settings: Settings, d: Deployment, req: FitRequest)
    requires GateSized(gate, settings, d, req)
    ensures req.shape.WellFormed()
    ensures 0.0 <= KvCacheBytes(req.shape, req.context, req.seqs, req.kvDtype)
  {
    hide KvCacheBytes, Calculator.BreakdownOf;
    KvCacheMono(req.shape, req.context, req.context, req.seqs, req.seqs, req.kvDtype);
  }

  lemma SpreadOut(n: real, x: real, s: real)
    requires 0.0 < s
    ensures n * (x / s) == (x * n) / s
  {
    assert x / s * s == x;
    assert n * (x / s) * s == n * x;
  }

  lemma WholeCache(req: FitRequest)
    requires req.shape.WellFormed() && 0 <= req.context && 0 <= req.seqs
    requires CachedLayerTokens(req.shape, req.context) == req.shape.numLayers * req.context
    ensures KvCacheBytes(req.shape, req.context, req.seqs, req.kvDtype)
      == KvBytesPerToken(req.shape, req.kvDtype) * req.context as real * req.seqs as real
  {
    hide PerLayerPerToken, CachedLayerTokens;
    var p := PerLayerPerToken(req.shape, req.kvDtype);
    assert (req.shape.numLayers * req.context) as real == req.shape.numLayers as real * req.context as real;
    assert p * (req.shape.numLayers as real * req.context as real) == req.shape.numLayers as real * p * req.context as real;
  }

  lemma SizedBudget(gate: Calculator, settings: Settings, d: Deployment, req: FitRequest)
    requires GateSized(gate, settings, d, req)
    ensures KvBudget(settings, d)
      == Trunc(KvCacheBytes(req.shape, req.context, req.seqs, req.kvDtype) / KvDivisor(req.shape, req.plan))
  {
    hide KvCacheBytes, KvDivisor;
    assert d.fitKvCache as real * 1.0 == d.fitKvCache as real;
  }
}
