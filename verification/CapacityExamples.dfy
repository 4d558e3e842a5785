/** Capacity lists put through the gate: two models of one size, and a plan with too few ranks. */
module CapacityExamples {
  import opened Numbers
  import opened Contracts
  import opened Kv
  import opened Memory
  import opened Search
  import opened Gate
  import opened Verdicts
  import opened Capacity
  import opened GateExamples

  const TIE_FREE: nat := 2000000000

  /** A thousand parameters, of which so many are active. */
  function TieShape(active: nat): ModelShape {
    ModelShape(1, 0, 1, 1, 0, 1000, "bf16", Some(1), Some(active), None, None, None, None, 0)
  }

  function TieCandidate(active: nat): Candidate {
    Candidate(Probe(PricedGate(2048), OneNode(TIE_FREE), map[], OneRank(), 1, "bf16", None), [Rung(TieShape(active), None)], Some(1))
  }

  /** Of two models with the same parameters the first listed is kept, whichever has more of them active. */
  lemma TieKeepsFirst(a: nat, b: nat, rows: seq<Row>, best: Option<nat>)
    requires var list := [TieCandidate(a), TieCandidate(b)];
      && |rows| == 2 && (forall i :: 0 <= i < 2 ==> WalkEnds(list[i].p, list[i].rungs, list[i].At(), rows[i]))
      && IsLargest(list, rows, 2, best)
    ensures best == Some(0)
  {
    var list := [TieCandidate(a), TieCandidate(b)];
    hide WalkEnds;
    assert list[0] == TieCandidate(a) && list[1] == TieCandidate(b);
    TieFits(a, rows[0]);
    TieFits(b, rows[1]);
  }

  lemma TieFits(active: nat, row: Row)
    requires var c := TieCandidate(active); WalkEnds(c.p, c.rungs, c.At(), row)
    ensures RowFits(row)
  {
    var c := TieCandidate(active);
    TiePasses(active);
    hide Probe.Passes, PricedGate;
  }

  lemma TiePasses(active: nat)
    ensures var c := TieCandidate(active);
      c.p.Answers(c.rungs[0]) && c.p.Passes(c.rungs[0], 1)
  {
    var c := TieCandidate(active);
    var req := c.p.Request(c.rungs[0], 1);
    TieParts(active, req);
    hide Check, Fits, Calculator.BreakdownOf, PerLayerPerToken, CachedLayerTokens, ModelShape.Vision, ActivationBytes, OneRankParts;
    OneRankBreakdown(PricedGate(2048), req, 2.0, 1000, 0, 4.0, 1, 2000, 4, 0);
    TieHolds(PricedGate(2048), req);
    AnsweredThroughGate(PricedGate(2048), req, TIE_FREE);
  }

  lemma TieParts(active: nat, req: FitRequest)
    requires req == FitRequest(TieShape(active), 1, 1, "bf16", OneRank(), None, None)
    ensures PricedGate(2048).CanPrice(req.shape) && OneRankParts(PricedGate(2048), req, 2.0, 1000, 0, 4.0, 1)
    ensures ActivationBytes(req.shape, 1, 1, 2048) == 0
  {}

  lemma TieHolds(gate: Calculator, req: FitRequest)
    requires gate.CanPrice(req.shape) && gate.BreakdownOf(req) == Breakdown(2000, 4, 0, 0, 0, FRAMEWORK_OVERHEAD)
    ensures Fits(gate, req, TIE_FREE)
  {
    hide Calculator.BreakdownOf;
  }

  // ----- too few ranks

  /** Two layers that cost nothing, on two pipeline stages, asked of one GPU. */
  function ShortProbe(): Probe {
    Probe(PricedGate(2048), OneNode(4000000000), map[], ParallelismPlan(1, 2, 1, 1, []), 1, "bf16", None)
  }

  function FreeShape(): ModelShape { ModelShape(2, 0, 1, 0, 0, 0, "bf16", Some(1), None, None, None, None, None, 0) }

  /** The derivation names the native rung and its context, and the walk refuses every rung at that context: the context
      search counts bytes, the gate also counts ranks. */
  lemma ShortOfRanks(row: Row)
    requires var p, rungs := ShortProbe(), [Rung(FreeShape(), None)];
      WalkEnds(p, rungs, LadderContextOf(p, rungs), row)
    ensures LadderRung(ShortProbe(), [Rung(FreeShape(), None)]) == Some(0) && row == Judged(None)
  {
    var p, rung := ShortProbe(), Rung(FreeShape(), None);
    ShortHolds(p, rung);
    ShortRanks(p);
    hide Probe.Holds, Probe.Passes, Capacity.Chosen, ShortProbe, RanksShort, LadderContextOf, FreeShape, HoldsWindow, Probe.Answers;
    HoldsAnswers(p, rung);
    LadderAgreesWithWalk(p, [rung], row);
  }

  lemma ShortRanks(p: Probe)
    requires p == ShortProbe()
    ensures p.nodes != [] && RanksShort(p.plan, p.nodes)
  {
    assert p.nodes[..0] == [] && Ranks(p.nodes) == 1;
  }

  lemma ShortHolds(p: Probe, rung: Rung)
    requires p == ShortProbe() && rung == Rung(FreeShape(), None)
    ensures p.Holds(rung)
  {
    hide Calculator.BreakdownOf, Calculator.CanPrice, Usable, ShortProbe, FreeShape, PricedGate, Probe.Holds, Probe.Request,
         Calculator.Total, RanksShort;
    ShortParts(p, rung);
    ShortRanks(p);
    ShortUsable(p);
    HoldsStep(p, rung);
  }

  lemma ShortParts(p: Probe, rung: Rung)
    requires p == ShortProbe() && rung == Rung(FreeShape(), None)
    ensures p.gate.CanPrice(rung.shape) && p.Request(rung, 512).shape == rung.shape
    ensures p.gate.BreakdownOf(p.Request(rung, 512)) == Breakdown(0, 0, 0, COMM_BUFFER_BYTES, 0, FRAMEWORK_OVERHEAD)
  {
    hide Calculator.BreakdownOf, OrderPrices;
    ShortPrices(p.gate, rung.shape);
    ShortBreakdown(p.gate, p.Request(rung, 512));
  }

  /** A rung whose breakdown at one step of the search is within the budget holds that step. */
  lemma HoldsStep(p: Probe, rung: Rung)
    requires p.Answers(rung) && Usable(p.gate, p.plan, p.nodes, p.live) == 4000000000
    requires p.gate.BreakdownOf(p.Request(rung, 512)) == Breakdown(0, 0, 0, COMM_BUFFER_BYTES, 0, FRAMEWORK_OVERHEAD)
    ensures p.Holds(rung)
  {
    hide Calculator.BreakdownOf, Usable, MaxContext, FitsContext, Calculator.CanPrice;
    var req := p.Request(rung, 0);
    FitsContextIsFits(p.gate, req, 4000000000, 512);
    assert req.(context := 512) == p.Request(rung, 512);
    MaxContextExact(p.gate, req, 4000000000);
  }

  lemma ShortUsable(p: Probe)
    requires p == ShortProbe()
    ensures Usable(p.gate, p.plan, p.nodes, p.live) == 4000000000
  {
    hide OrderPrices;
    assert Participating(p.plan, p.nodes) == p.nodes;
    assert p.nodes[..0] == [];
    WholeTrunc(4000000000);
    assert UsableMemory(p.gate, p.nodes[0]) == 4000000000;
  }

  lemma ShortPrices(gate: Calculator, shape: ModelShape)
    requires gate == PricedGate(2048) && shape == FreeShape()
    ensures gate.CanPrice(shape)
  {}

  lemma ShortBreakdown(gate: Calculator, req: FitRequest)
    requires gate == PricedGate(2048) && req == ShortProbe().Request(Rung(FreeShape(), None), 512) && gate.CanPrice(req.shape)
    ensures gate.BreakdownOf(req) == Breakdown(0, 0, 0, COMM_BUFFER_BYTES, 0, FRAMEWORK_OVERHEAD)
  {
    hide KvShare, Calculator.WeightBytesPerRank, Calculator.ReplicatedBytes, ActivationBytes, OrderPrices, Trunc;
    ShortTerms(gate, req);
    Whole(0);
  }

  lemma ShortTerms(gate: Calculator, req: FitRequest)
    requires req == ShortProbe().Request(Rung(FreeShape(), None), 512) && gate.CanPrice(req.shape)
    ensures gate.WeightBytesPerRank(req.shape, req.plan, None) == 0.0 && gate.ReplicatedBytes(req.shape) == 0.0
    ensures ActivationBytes(req.shape, 1, 512, gate.chunkTokens) == 0 && KvShare(req) == 0.0
  {
    hide StageFraction, Calculator.BytesPerParam, KvDivisor, CachedLayerTokens, OrderPrices;
    assert req.shape.Vision() == 0;
    assert gate.ShardableBytes(req.shape, None) == 0.0;
    assert PerLayerPerToken(req.shape, req.kvDtype) == 0.0;
    KvDivisorRange(req.shape, req.plan);
    NoShareOf(KvDivisor(req.shape, req.plan));
  }

  lemma NoShareOf(divisor: real)
    requires 1.0 <= divisor
    ensures 0.0 / divisor == 0.0
  {}
}
