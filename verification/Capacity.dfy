/** The capacity ladder: one context derived for a whole ladder of quantizations, and the walk that judges every
    rung at it. */
module Capacity {
  import opened Numbers
  import opened Contracts
  import opened Memory
  import opened Search
  import opened Gate
  import opened Verdicts

  const FALLBACK_CONTEXT: int := 8192
  const MIN_USEFUL_CONTEXT: int := 4096

  datatype Rung = Rung(shape: ModelShape, weightBytes: Option<int>)

  /** Everything a capacity question fixes besides the rung and the context. */
  datatype Probe = Probe(
    gate: Calculator,
    nodes: seq<NodeProfile>,
    live: map<string, int>,
    plan: ParallelismPlan,
    seqs: int,
    kvDtype: string,
    nativeWindow: Option<int>)
  {
    function Request(rung: Rung, context: int): FitRequest {
      FitRequest(rung.shape, context, seqs, kvDtype, plan, rung.weightBytes, nativeWindow)
    }

    /** Whether the gate answers about this rung at all, rather than raising. */
    predicate Answers(rung: Rung) { nodes != [] && gate.CanPrice(rung.shape) }

    /** `max_context` for a rung; None where it raises. */
    function Solve(rung: Rung): Option<nat> {
      if !Answers(rung) then None
      else Some(MaxContext(gate, Request(rung, 0), Usable(gate, plan, nodes, live)))
    }

    /** The rung holds some context. */
    predicate Holds(rung: Rung) { Solve(rung).Some? && 0 < Solve(rung).value }

    ghost predicate Passes(rung: Rung, context: int)
      requires Answers(rung)
    {
      Check(gate, Request(rung, context), nodes, live).verdict != WontFit
    }
  }

  // ----- the rungs

  /** The native scheme, with its measured weights, then every scheme after it in the ladder. */
  function Rungs(shape: ModelShape, ladder: seq<string>, weightBytes: Option<int>): (rungs: seq<Rung>)
    ensures 1 <= |rungs| && rungs[0].shape == shape
  {
    [Rung(shape, weightBytes)] + Below(shape, ladder, false)
  }

  function Below(shape: ModelShape, ladder: seq<string>, seen: bool): seq<Rung> {
    if ladder == [] then []
    else if ladder[0] == shape.dtype then Below(shape, ladder[1..], true)
    else (if seen then [Rung(shape.(dtype := ladder[0]), None)] else []) + Below(shape, ladder[1..], seen)
  }

  /** Where the ladder lists the native scheme once, the rungs are it and every scheme listed after it, in that order. */
  lemma RungsAre(shape: ModelShape, better: seq<string>, worse: seq<string>, weightBytes: Option<int>)
    requires shape.dtype !in better && shape.dtype !in worse
    ensures var rungs := Rungs(shape, better + [shape.dtype] + worse, weightBytes);
      && |rungs| == |worse| + 1 && rungs[0] == Rung(shape, weightBytes)
      && forall k :: 0 <= k < |worse| ==> rungs[k + 1] == Rung(shape.(dtype := worse[k]), None)
  {
    SkipsBetter(shape, better, [shape.dtype] + worse);
    assert better + [shape.dtype] + worse == better + ([shape.dtype] + worse);
    assert ([shape.dtype] + worse)[1..] == worse;
    TakesWorse(shape, worse);
  }

  lemma {:induction false} SkipsBetter(shape: ModelShape, better: seq<string>, rest: seq<string>)
    requires shape.dtype !in better
    ensures Below(shape, better + rest, false) == Below(shape, rest, false)
  {
    if better == [] {
      assert better + rest == rest;
    } else {
      assert (better + rest)[1..] == better[1..] + rest;
      SkipsBetter(shape, better[1..], rest);
    }
  }

  lemma {:induction false} TakesWorse(shape: ModelShape, worse: seq<string>)
    requires shape.dtype !in worse
    ensures |Below(shape, worse, true)| == |worse|
    ensures forall k :: 0 <= k < |worse| ==> Below(shape, worse, true)[k] == Rung(shape.(dtype := worse[k]), None)
  {
    if worse != [] {
      TakesWorse(shape, worse[1..]);
    }
  }

  method BuildRungs(shape: ModelShape, ladder: seq<string>, weightBytes: Option<int>) returns (out: seq<Rung>)
    ensures out == Rungs(shape, ladder, weightBytes)
  {
    out := [Rung(shape, weightBytes)];
    var seenNative := false;
    var i := 0;
    while i < |ladder|
      invariant 0 <= i <= |ladder|
      invariant Rungs(shape, ladder, weightBytes) == out + Below(shape, ladder[i..], seenNative)
    {
      if ladder[i] == shape.dtype {
        seenNative := true;
      } else if seenNative {
        out := out + [Rung(shape.(dtype := ladder[i]), None)];
      }
      i := i + 1;
    }
  }

  /** Only ever downward: the first rung alone keeps the measured weights, every other rung is a scheme the ladder lists
      after the native one, and nothing but the dtype changes. */
  lemma RungsGoDown(shape: ModelShape, ladder: seq<string>, weightBytes: Option<int>)
    ensures var rungs := Rungs(shape, ladder, weightBytes);
      && rungs[0] == Rung(shape, weightBytes)
      && (forall k :: 1 <= k < |rungs| ==>
            && rungs[k].weightBytes == None && rungs[k].shape == shape.(dtype := rungs[k].shape.dtype)
            && (exists i, j :: 0 <= i < j < |ladder| && ladder[i] == shape.dtype && ladder[j] == rungs[k].shape.dtype != shape.dtype))
  {
    BelowIs(shape, ladder, false);
    var below := Below(shape, ladder, false);
    forall k | 0 <= k < |below|
      ensures exists i, j :: 0 <= i < j < |ladder| && ladder[i] == shape.dtype && ladder[j] == below[k].shape.dtype
    {
      assert below[k] in below;
      var j :| 0 <= j < |ladder| && ladder[j] == below[k].shape.dtype && shape.dtype in ladder[..j];
      var i :| 0 <= i < j && ladder[i] == shape.dtype;
    }
    forall k | 1 <= k <= |below| ensures Rungs(shape, ladder, weightBytes)[k] == below[k - 1] && below[k - 1] in below {}
  }

  lemma {:induction false} BelowIs(shape: ModelShape, ladder: seq<string>, seen: bool)
    ensures forall rung <- Below(shape, ladder, seen) ::
      && rung.weightBytes == None && rung.shape == shape.(dtype := rung.shape.dtype) && rung.shape.dtype != shape.dtype
      && (exists j :: 0 <= j < |ladder| && ladder[j] == rung.shape.dtype && (seen || shape.dtype in ladder[..j]))
  {
    if ladder != [] {
      var on := seen || ladder[0] == shape.dtype;
      BelowIs(shape, ladder[1..], on);
      forall rung <- Below(shape, ladder, seen)
        ensures exists j :: 0 <= j < |ladder| && ladder[j] == rung.shape.dtype && (seen || shape.dtype in ladder[..j])
      {
        if rung in Below(shape, ladder[1..], on) {
          var j :| 0 <= j < |ladder[1..]| && ladder[1..][j] == rung.shape.dtype && (on || shape.dtype in ladder[1..][..j]);
          assert ladder[..j + 1] == [ladder[0]] + ladder[1..][..j];
          assert ladder[j + 1] == rung.shape.dtype;
        } else {
          assert ladder[0] == rung.shape.dtype;
        }
      }
    }
  }

  // ----- the derived context

  function Ceiling(nativeWindow: Option<int>): int {
    if nativeWindow.Some? && 0 < nativeWindow.value then nativeWindow.value else FALLBACK_CONTEXT
  }

  /** The model's own window or what fits, whichever is smaller; 0 means the window, for the gate to refuse. */
  function ClampContext(largest: int, nativeWindow: Option<int>): int {
    if 0 < largest then Min(Ceiling(nativeWindow), largest) else Ceiling(nativeWindow)
  }

  function Chosen(p: Probe, rung: Rung): int
    requires p.Holds(rung)
  {
    ClampContext(p.Solve(rung).value, p.nativeWindow)
  }

  /** The best rung with a workable context, else the best rung with any, from rung `i` on. */
  function LadderFrom(p: Probe, rungs: seq<Rung>, i: nat, bestEffort: Option<nat>): (k: Option<nat>)
    requires i <= |rungs|
    requires bestEffort.Some? ==> bestEffort.value < |rungs|
    ensures k.Some? ==> k.value < |rungs|
    decreases |rungs| - i
  {
    if i == |rungs| then bestEffort
    else if !p.Holds(rungs[i]) then LadderFrom(p, rungs, i + 1, bestEffort)
    else if MIN_USEFUL_CONTEXT <= Chosen(p, rungs[i]) then Some(i)
    else LadderFrom(p, rungs, i + 1, if bestEffort.None? then Some(i) else bestEffort)
  }

  /** The rung the context is derived on. */
  function LadderRung(p: Probe, rungs: seq<Rung>): Option<nat> { LadderFrom(p, rungs, 0, None) }

  /** What the choice means, without the loop that makes it. */
  ghost predicate BestRung(p: Probe, rungs: seq<Rung>, k: Option<nat>) {
    match k
    case None => forall rung <- rungs :: !p.Holds(rung)
    case Some(k) =>
      && k < |rungs| && p.Holds(rungs[k])
      && (if MIN_USEFUL_CONTEXT <= Chosen(p, rungs[k]) then
            forall j :: 0 <= j < k && p.Holds(rungs[j]) ==> Chosen(p, rungs[j]) < MIN_USEFUL_CONTEXT
          else
            && (forall j :: 0 <= j < k ==> !p.Holds(rungs[j]))
            && (forall j :: 0 <= j < |rungs| && p.Holds(rungs[j]) ==> Chosen(p, rungs[j]) < MIN_USEFUL_CONTEXT))
  }

  lemma {:induction false} LadderFromIsBest(p: Probe, rungs: seq<Rung>, i: nat, bestEffort: Option<nat>)
    requires i <= |rungs|
    requires forall j :: 0 <= j < i && p.Holds(rungs[j]) ==> Chosen(p, rungs[j]) < MIN_USEFUL_CONTEXT
    requires match bestEffort
             case None => forall j :: 0 <= j < i ==> !p.Holds(rungs[j])
             case Some(b) => b < i && p.Holds(rungs[b]) && forall j :: 0 <= j < b ==> !p.Holds(rungs[j])
    ensures BestRung(p, rungs, LadderFrom(p, rungs, i, bestEffort))
    decreases |rungs| - i
  {
    hide Probe.Holds, Chosen;
    if i < |rungs| {
      if !p.Holds(rungs[i]) {
        LadderFromIsBest(p, rungs, i + 1, bestEffort);
      } else if Chosen(p, rungs[i]) < MIN_USEFUL_CONTEXT {
        LadderFromIsBest(p, rungs, i + 1, if bestEffort.None? then Some(i) else bestEffort);
      }
    }
  }

  /** The derivation as it runs: the context, and the rung it was chosen for. */
  method LadderContext(p: Probe, rungs: seq<Rung>) returns (context: int, rung: Option<nat>)
    ensures rung == LadderRung(p, rungs)
    ensures context == LadderContextOf(p, rungs)
  {
    hide Probe.Holds, Probe.Solve, MaxContext;
    LadderFromIsBest(p, rungs, 0, None);
    var bestEffort: Option<(int, nat)> := None;
    var i := 0;
    while i < |rungs|
      invariant 0 <= i <= |rungs|
      invariant bestEffort.Some? ==> bestEffort.value.1 < i && p.Holds(rungs[bestEffort.value.1])
      invariant bestEffort.Some? ==> bestEffort.value.0 == Chosen(p, rungs[bestEffort.value.1])
      invariant LadderRung(p, rungs)
        == LadderFrom(p, rungs, i, if bestEffort.None? then None else Some(bestEffort.value.1))
    {
      var largest := p.Solve(rungs[i]);
      assert p.Holds(rungs[i]) == (largest.Some? && 0 < largest.value) by { HoldsIff(p, rungs[i]); }
      if largest.Some? && 0 < largest.value {
        var chosen := ClampContext(largest.value, p.nativeWindow);
        if MIN_USEFUL_CONTEXT <= chosen {
          return chosen, Some(i);
        }
        if bestEffort.None? {
          bestEffort := Some((chosen, i));
        }
      }
      i := i + 1;
    }
    if bestEffort.Some? {
      return bestEffort.value.0, Some(bestEffort.value.1);
    }
    return CONTEXT_ROUNDING, None;
  }

  lemma HoldsIff(p: Probe, rung: Rung)
    ensures p.Holds(rung) == (p.Solve(rung).Some? && 0 < p.Solve(rung).value)
  {}

  function LadderContextOf(p: Probe, rungs: seq<Rung>): int {
    LadderFromIsBest(p, rungs, 0, None);
    var k := LadderRung(p, rungs);
    if k.None? then CONTEXT_ROUNDING else Chosen(p, rungs[k.value])
  }

  /** The derived context is the largest there is a reason to judge at: where a rung is named it fits on that rung, and it is
      the model's own window (8192 when the window is unknown), or one step of 512 more does not fit, or the search goes no
      further. Where none is named it is one step, which no rung that the gate can price holds. */
  lemma DerivedIsLargest(p: Probe, rungs: seq<Rung>)
    requires p.nodes != []
    ensures var context, usable := LadderContextOf(p, rungs), Usable(p.gate, p.plan, p.nodes, p.live);
      var window := if p.nativeWindow.Some? && 0 < p.nativeWindow.value then p.nativeWindow.value else 8192;
      match LadderRung(p, rungs)
      case Some(k) =>
        && k < |rungs| && p.gate.CanPrice(rungs[k].shape)
        && 0 < context <= window && FitsContext(p.gate, p.Request(rungs[k], 0), usable, context)
        && (context == window || context == 2097152
            || !FitsContext(p.gate, p.Request(rungs[k], 0), usable, context + 512))
      case None =>
        && context == 512
        && forall rung <- rungs :: p.gate.CanPrice(rung.shape) ==> !FitsContext(p.gate, p.Request(rung, 0), usable, 512)
  {
    hide FitsContext, MaxContext, Usable, Calculator.CanPrice;
    LadderFromIsBest(p, rungs, 0, None);
    var usable := Usable(p.gate, p.plan, p.nodes, p.live);
    match LadderRung(p, rungs)
    case Some(k) => MaxContextExact(p.gate, p.Request(rungs[k], 0), usable);
    case None =>
      forall rung | rung in rungs && p.gate.CanPrice(rung.shape) ensures !FitsContext(p.gate, p.Request(rung, 0), usable, 512) {
        assert !p.Holds(rung);
        MaxContextExact(p.gate, p.Request(rung, 0), usable);
      }
  }

  // ----- the walk

  /** `error` when the gate cannot be run on the native rung; otherwise the rung the walk stops at, if any fits. */
  datatype Row = ErrorRow | Judged(rung: Option<nat>)

  ghost predicate WalkEnds(p: Probe, rungs: seq<Rung>, context: int, row: Row)
    requires rungs != []
  {
    match row
    case ErrorRow => !p.Answers(rungs[0])
    case Judged(Some(k)) =>
      && p.Answers(rungs[0]) && k < |rungs| && p.Answers(rungs[k]) && p.Passes(rungs[k], context)
      && (forall j :: 0 <= j < k && p.Answers(rungs[j]) ==> !p.Passes(rungs[j], context))
    case Judged(None) =>
      && p.Answers(rungs[0])
      && (forall j :: 0 <= j < |rungs| && p.Answers(rungs[j]) ==> !p.Passes(rungs[j], context))
  }

  /** The walk as it runs: the native rung first, then down, stopping at the first that fits. */
  method Walk(p: Probe, rungs: seq<Rung>, context: int) returns (row: Row)
    requires rungs != []
    ensures WalkEnds(p, rungs, context, row)
  {
    hide Check, Calculator.CanPrice, Probe.Request;
    if !p.Answers(rungs[0]) {
      return ErrorRow;
    }
    var first := RunGate(p, rungs[0], context);
    if first != WontFit {
      return Judged(Some(0));
    }
    var i := 1;
    while i < |rungs|
      invariant 1 <= i <= |rungs|
      invariant forall j :: 0 <= j < i && p.Answers(rungs[j]) ==> !p.Passes(rungs[j], context)
    {
      if p.Answers(rungs[i]) {
        var verdict := RunGate(p, rungs[i], context);
        if verdict != WontFit {
          return Judged(Some(i));
        }
      }
      i := i + 1;
    }
    return Judged(None);
  }

  method RunGate(p: Probe, rung: Rung, context: int) returns (verdict: Verdict)
    requires p.Answers(rung)
    ensures verdict != WontFit <==> p.Passes(rung, context)
  {
    var r := RunCheck(p.gate, p.Request(rung, context), p.nodes, p.live);
    verdict := r.verdict;
  }

  // ----- derivation and walk agree

  /** The window is unknown, or at least one step of the search wide. */
  predicate WindowUsable(p: Probe) {
    p.nativeWindow.None? || p.nativeWindow.value <= 0 || CONTEXT_ROUNDING <= p.nativeWindow.value
  }

  lemma PassesIff(p: Probe, rung: Rung, context: int)
    requires p.Answers(rung)
    ensures p.Passes(rung, context) <==>
      && !RanksShort(p.plan, p.nodes)
      && FitsContext(p.gate, p.Request(rung, 0), Usable(p.gate, p.plan, p.nodes, p.live), context)
      && !PastWindow(p.Request(rung, context))
  {
    hide Check, RanksShort, Usable, Fits;
    RefusedIff(p.gate, p.Request(rung, context), p.nodes, p.live);
    FitsContextIsFits(p.gate, p.Request(rung, 0), Usable(p.gate, p.plan, p.nodes, p.live), context);
    assert p.Request(rung, 0).(context := context) == p.Request(rung, context);
  }

  /** A rung that holds nothing, or whose own context stays under `context` on the grid, refuses `context`. */
  lemma WorseRungFails(p: Probe, rung: Rung, context: int)
    requires p.Answers(rung) && CONTEXT_ROUNDING <= context <= Ceiling(p.nativeWindow)
    requires p.Holds(rung) ==> Chosen(p, rung) < MIN_USEFUL_CONTEXT <= context
    ensures !p.Passes(rung, context)
  {
    hide Check, RanksShort, Usable, Fits, FitsContext, MaxContext, Probe.Passes;
    PassesIff(p, rung, context);
    var usable := Usable(p.gate, p.plan, p.nodes, p.live);
    MaxContextExact(p.gate, p.Request(rung, 0), usable);
    var largest := MaxContext(p.gate, p.Request(rung, 0), usable);
    if largest != 0 {
      assert largest < MIN_USEFUL_CONTEXT;
      assert largest + CONTEXT_ROUNDING <= MIN_USEFUL_CONTEXT;
    }
  }

  lemma ChosenRungPasses(p: Probe, rung: Rung)
    requires p.Holds(rung)
    ensures Chosen(p, rung) <= Ceiling(p.nativeWindow)
    ensures if WindowUsable(p) then CONTEXT_ROUNDING <= Chosen(p, rung) else Chosen(p, rung) == p.nativeWindow.value
    ensures p.Passes(rung, Chosen(p, rung)) <==> !RanksShort(p.plan, p.nodes)
  {
    hide Check, RanksShort, Usable, Fits, FitsContext, MaxContext, Probe.Passes;
    PassesIff(p, rung, Chosen(p, rung));
    MaxContextExact(p.gate, p.Request(rung, 0), Usable(p.gate, p.plan, p.nodes, p.live));
  }

  /** A window narrower than one step of the search, which a rung holds although it does not hold the step. */
  predicate HoldsWindow(p: Probe, rung: Rung) {
    !WindowUsable(p) && p.Answers(rung)
    && FitsContext(p.gate, p.Request(rung, 0), Usable(p.gate, p.plan, p.nodes, p.live), p.nativeWindow.value)
  }

  /** The context the ladder derives and the verdicts the walk takes at it agree: the context never exceeds the model's
      window (or the fallback), and the walk ends on exactly the rung the context was derived on -- if and only if the plan's
      ranks are all supplied, the native scheme has a price, and no better rung was passed over that holds a narrow window. */
  lemma LadderAgreesWithWalk(p: Probe, rungs: seq<Rung>, row: Row)
    requires rungs != [] && LadderRung(p, rungs).Some?
    requires WalkEnds(p, rungs, LadderContextOf(p, rungs), row)
    ensures var context := LadderContextOf(p, rungs);
      context <= Ceiling(p.nativeWindow) && if WindowUsable(p) then CONTEXT_ROUNDING <= context else context == p.nativeWindow.value
    ensures forall j :: 0 <= j < LadderRung(p, rungs).value && p.Answers(rungs[j]) && !HoldsWindow(p, rungs[j]) ==>
      !p.Passes(rungs[j], LadderContextOf(p, rungs))
    ensures row == Judged(LadderRung(p, rungs)) <==>
      && p.Answers(rungs[0]) && !RanksShort(p.plan, p.nodes)
      && (forall j :: 0 <= j < LadderRung(p, rungs).value ==> !HoldsWindow(p, rungs[j]))
  {
    hide Probe.Passes, Chosen, Probe.Holds, RanksShort, Probe.Solve, Probe.Answers, Calculator.CanPrice, HoldsWindow, WindowUsable;
    LadderFromIsBest(p, rungs, 0, None);
    var k := LadderRung(p, rungs).value;
    HoldsIff(p, rungs[k]);
    HoldsAnswers(p, rungs[k]);
    ChosenRungPasses(p, rungs[k]);
    var c := LadderContextOf(p, rungs);
    assert c == Chosen(p, rungs[k]);
    forall j | 0 <= j < k && p.Answers(rungs[j])
      ensures p.Passes(rungs[j], c) <==> HoldsWindow(p, rungs[j]) && !RanksShort(p.plan, p.nodes)
    {
      BetterRung(p, rungs[j], c);
    }
    forall j | 0 <= j < k && HoldsWindow(p, rungs[j]) ensures p.Answers(rungs[j]) {
      WindowAnswers(p, rungs[j]);
    }
  }

  lemma WindowAnswers(p: Probe, rung: Rung)
    requires HoldsWindow(p, rung)
    ensures p.Answers(rung)
  {}

  /** A better rung passes only at a narrow window that it holds. */
  lemma BetterRung(p: Probe, rung: Rung, context: int)
    requires p.Answers(rung) && context <= Ceiling(p.nativeWindow)
    requires if WindowUsable(p) then CONTEXT_ROUNDING <= context else context == p.nativeWindow.value
    requires WindowUsable(p) && p.Holds(rung) ==> Chosen(p, rung) < MIN_USEFUL_CONTEXT <= context
    ensures p.Passes(rung, context) <==> HoldsWindow(p, rung) && !RanksShort(p.plan, p.nodes)
  {
    hide Probe.Passes, Chosen, Probe.Holds, RanksShort, Probe.Solve, Probe.Answers, Calculator.CanPrice, FitsContext, Usable;
    if WindowUsable(p) {
      WorseRungFails(p, rung, context);
    } else {
      PassesIff(p, rung, context);
    }
  }

  /** On the walk's own rungs the native scheme always has a price where a rung is named: the ladder's schemes all have one. */
  lemma OwnLadderAgrees(p: Probe, shape: ModelShape, ladder: seq<string>, weightBytes: Option<int>, row: Row)
    requires OrderPriced(p.gate.prices, ladder) && p.nodes != []
    requires var rungs := Rungs(shape, ladder, weightBytes);
      LadderRung(p, rungs).Some? && WalkEnds(p, rungs, LadderContextOf(p, rungs), row)
    ensures var rungs := Rungs(shape, ladder, weightBytes);
      row == Judged(LadderRung(p, rungs)) <==>
        !RanksShort(p.plan, p.nodes) && forall j :: 0 <= j < LadderRung(p, rungs).value ==> !HoldsWindow(p, rungs[j])
  {
    hide Probe.Passes, Chosen, Probe.Holds, RanksShort, Probe.Solve, HoldsWindow, WalkEnds, LadderContextOf;
    var rungs := Rungs(shape, ladder, weightBytes);
    LadderAgreesWithWalk(p, rungs, row);
    LadderFromIsBest(p, rungs, 0, None);
    var k := LadderRung(p, rungs).value;
    HoldsAnswers(p, rungs[k]);
    RungsGoDown(shape, ladder, weightBytes);
  }

  lemma HoldsAnswers(p: Probe, rung: Rung)
    requires p.Holds(rung)
    ensures p.Answers(rung) && p.nodes != []
  {}

  /** Where the ladder names no rung, no rung holds even one step, and the walk refuses them all. */
  lemma NoRungNoWalk(p: Probe, rungs: seq<Rung>, row: Row)
    requires rungs != [] && LadderRung(p, rungs).None?
    requires WalkEnds(p, rungs, LadderContextOf(p, rungs), row)
    ensures row == if p.Answers(rungs[0]) then Judged(None) else ErrorRow
  {
    hide Probe.Passes, Chosen, Probe.Holds, Probe.Solve, Calculator.CanPrice;
    LadderFromIsBest(p, rungs, 0, None);
    forall j | 0 <= j < |rungs| && p.Answers(rungs[j]) ensures !p.Passes(rungs[j], CONTEXT_ROUNDING) {
      if CONTEXT_ROUNDING <= Ceiling(p.nativeWindow) {
        WorseRungFails(p, rungs[j], CONTEXT_ROUNDING);
      } else {
        PassesIff(p, rungs[j], CONTEXT_ROUNDING);
      }
    }
  }

  // ----- the largest model that runs

  /** One model of a list: everything its walk fixes, its rungs, and the context the caller named, if any. */
  datatype Candidate = Candidate(p: Probe, rungs: seq<Rung>, context: Option<int>)
  {
    function At(): int {
      if context.Some? then context.value else LadderContextOf(p, rungs)
    }

    function Params(): nat
      requires rungs != []
    {
      rungs[0].shape.totalParams
    }
  }

  predicate RowFits(row: Row) { row.Judged? && row.rung.Some? }

  /** The first of the fitting rows with the most parameters; active parameters break no tie. */
  ghost predicate IsLargest(list: seq<Candidate>, rows: seq<Row>, n: nat, best: Option<nat>)
    requires n <= |rows| == |list| && forall i :: 0 <= i < |list| ==> list[i].rungs != []
  {
    match best
    case None => forall i :: 0 <= i < n ==> !RowFits(rows[i])
    case Some(b) =>
      && b < n && RowFits(rows[b])
      && forall i :: 0 <= i < n && RowFits(rows[i]) ==>
        list[i].Params() <= list[b].Params() && (i < b ==> list[i].Params() < list[b].Params())
  }

  /** Walk every model, then keep the largest that fits. */
  method LargestRunnable(list: seq<Candidate>, nodes: seq<NodeProfile>) returns (rows: seq<Row>, best: Option<nat>)
    requires forall i :: 0 <= i < |list| ==> list[i].rungs != [] && list[i].p.nodes == nodes
    ensures nodes == [] ==> rows == [] && best == None
    ensures nodes != [] ==> |rows| == |list| && IsLargest(list, rows, |list|, best)
    ensures nodes != [] ==> forall i :: 0 <= i < |list| ==> WalkEnds(list[i].p, list[i].rungs, list[i].At(), rows[i])
  {
    hide WalkEnds, LadderContextOf, LadderRung;
    rows, best := [], None;
    if nodes == [] {
      return;
    }
    for i := 0 to |list|
      invariant |rows| == i
      invariant forall j :: 0 <= j < i ==> WalkEnds(list[j].p, list[j].rungs, list[j].At(), rows[j])
    {
      var context := list[i].context;
      if context.None? {
        var derived, _ := LadderContext(list[i].p, list[i].rungs);
        context := Some(derived);
      }
      var row := Walk(list[i].p, list[i].rungs, context.value);
      rows := rows + [row];
    }
    for i: nat := 0 to |rows|
      invariant IsLargest(list, rows, i, best)
    {
      if RowFits(rows[i]) && (best.None? || list[best.value].Params() < list[i].Params()) {
        best := Some(i);
      }
    }
  }
}
