/** The watch over serving backends: which are probed each tick, when a silent one is given up, and how long that takes. */
module Watch {
  import opened Numbers
  import opened Contracts

  const DEATH_BOUND: real := 15.0
  const MIN_PROBE_TIMEOUT: real := 0.25
  const PROBE_OVERHEAD: real := 0.3
  const MAX_PROBE_WORKERS: nat := 64

  // ----- the rotating window

  /** Where the window starts, and where the next one does. */
  function Start(n: nat, offset: nat): nat
    requires 0 < n
  {
    offset % n
  }

  function NextOffset(n: nat, cap: nat, offset: nat): nat {
    if n <= cap then offset else (Start(n, offset) + cap) % n
  }

  /** The probed backends, in probing order. */
  function Window<T>(targets: seq<T>, cap: nat, offset: nat): seq<T> {
    if |targets| <= cap then targets
    else
      var start := Start(|targets|, offset);
      (targets[start..] + targets[..start])[..cap]
  }

  /** How far around the ring backend `k` is from the window's start. */
  function Distance(n: nat, offset: nat, k: nat): nat
    requires k < n
  {
    var start := Start(n, offset);
    if start <= k then k - start else k - start + n
  }

  predicate InWindow(n: nat, cap: nat, offset: nat, k: nat)
    requires k < n
  {
    n <= cap || Distance(n, offset, k) < cap
  }

  /** The slicing picks out exactly the backends the window covers. */
  lemma WindowIs<T>(targets: seq<T>, cap: nat, offset: nat, k: nat)
    requires k < |targets| && forall i, j :: 0 <= i < j < |targets| ==> targets[i] != targets[j]
    ensures targets[k] in Window(targets, cap, offset) <==> InWindow(|targets|, cap, offset, k)
  {
    var n := |targets|;
    if cap < n {
      var start := Start(n, offset);
      var ring := targets[start..] + targets[..start];
      var d := Distance(n, offset, k);
      assert ring[d] == targets[k];
      assert forall i :: 0 <= i < n ==> ring[i] == targets[if i < n - start then start + i else i - (n - start)];
      if d < cap {
        assert ring[..cap][d] == targets[k];
      }
    }
  }

  function OffsetAfter(n: nat, cap: nat, offset: nat, ticks: nat): nat
    decreases ticks
  {
    if ticks == 0 then offset else OffsetAfter(n, cap, NextOffset(n, cap, offset), ticks - 1)
  }

  lemma DistanceShrinks(n: nat, cap: nat, offset: nat, k: nat)
    requires k < n && 1 <= cap < n && cap <= Distance(n, offset, k)
    ensures Distance(n, NextOffset(n, cap, offset), k) == Distance(n, offset, k) - cap
  {
    var start := Start(n, offset);
    assert (start + cap) % n == if start + cap < n then start + cap else start + cap - n by {
      if n <= start + cap {
        ModOnce(start + cap, n);
      }
    }
    ModSmall(NextOffset(n, cap, offset), n);
  }

  lemma ModOnce(x: nat, n: nat)
    requires 0 < n <= x < 2 * n
    ensures x % n == x - n
  {}

  lemma ModSmall(x: nat, n: nat)
    requires x < n
    ensures x % n == x
  {}

  /** From any offset, a backend is probed once the ticks have covered its distance. */
  lemma {:induction false} ProbedAfter(n: nat, cap: nat, offset: nat, k: nat, ticks: nat) returns (j: nat)
    requires k < n && 1 <= cap && 1 <= ticks && DistanceOr(n, cap, offset, k) < cap * ticks
    ensures j < ticks && InWindow(n, cap, OffsetAfter(n, cap, offset, j), k)
    decreases ticks
  {
    if InWindow(n, cap, offset, k) {
      j := 0;
    } else {
      DistanceShrinks(n, cap, offset, k);
      hide NextOffset, Distance;
      assert cap * ticks == cap * (ticks - 1) + cap;
      var i := ProbedAfter(n, cap, NextOffset(n, cap, offset), k, ticks - 1);
      j := i + 1;
    }
  }

  function DistanceOr(n: nat, cap: nat, offset: nat, k: nat): nat
    requires k < n
  {
    if n <= cap then 0 else Distance(n, offset, k)
  }

  /** Any ceil(n / cap) consecutive ticks probe every backend of a fixed fleet. */
  lemma EveryoneProbed(n: nat, cap: nat, offset: nat, k: nat) returns (j: nat)
    requires k < n && 1 <= cap
    ensures j < CeilDiv(n, cap) && InWindow(n, cap, OffsetAfter(n, cap, offset, j), k)
  {
    CeilCovers(n, cap);
    DistanceRange(n, cap, offset, k);
    j := ProbedAfter(n, cap, offset, k, CeilDiv(n, cap));
  }

  lemma DistanceRange(n: nat, cap: nat, offset: nat, k: nat)
    requires k < n
    ensures DistanceOr(n, cap, offset, k) < n
  {}

  lemma CeilCovers(n: nat, cap: nat)
    requires 1 <= cap
    ensures n <= cap * CeilDiv(n, cap)
    ensures 1 <= n ==> 1 <= CeilDiv(n, cap)
  {
    assert n + cap - 1 == (n + cap - 1) / cap * cap + (n + cap - 1) % cap;
  }

  // ----- counting misses

  /** One tick's answers: what each backend would say if it were probed. */
  type Answers = seq<bool>

  datatype State = State(offset: nat, failures: seq<nat>)

  /** A healthy answer clears the count, a miss adds one, no probe leaves it alone. */
  function Counted(failures: nat, probed: bool, healthy: bool): nat {
    if !probed then failures else if healthy then 0 else failures + 1
  }

  function Tick(cap: nat, s: State, answers: Answers): State
    requires |answers| == |s.failures|
  {
    var n := |s.failures|;
    State(NextOffset(n, cap, s.offset),
          seq(n, k requires 0 <= k < n => Counted(s.failures[k], InWindow(n, cap, s.offset, k), answers[k])))
  }

  lemma TickAt(cap: nat, s: State, answers: Answers, k: nat)
    requires |answers| == |s.failures| && k < |answers|
    ensures Tick(cap, s, answers).failures[k] == Counted(s.failures[k], InWindow(|answers|, cap, s.offset, k), answers[k])
    ensures Tick(cap, s, answers).offset == NextOffset(|answers|, cap, s.offset)
  {
    hide InWindow, NextOffset;
  }

  /** Given up this tick: probed, missed, and the count has reached the threshold. */
  predicate LostNow(cap: nat, threshold: int, s: State, answers: Answers, k: nat)
    requires |answers| == |s.failures| && k < |answers|
  {
    InWindow(|answers|, cap, s.offset, k) && !answers[k] && threshold <= s.failures[k] + 1
  }

  /** A tick that stops short: the loop over the fleet went no further than backend `last`. */
  function TickTo(cap: nat, s: State, answers: Answers, last: nat): State
    requires |answers| == |s.failures|
  {
    var n := |s.failures|;
    State(NextOffset(n, cap, s.offset),
          seq(n, k requires 0 <= k < n => Counted(s.failures[k], k <= last && InWindow(n, cap, s.offset, k), answers[k])))
  }

  /** Up to there it is the whole tick; from there on it is as if nobody had been probed, though the window has moved on. */
  lemma TickToIs(cap: nat, s: State, answers: Answers, last: nat)
    requires |answers| == |s.failures|
    ensures var cut, whole := TickTo(cap, s, answers, last), Tick(cap, s, answers);
      && cut.offset == whole.offset
      && (forall k :: 0 <= k < |answers| ==> cut.failures[k] == if k <= last then whole.failures[k] else s.failures[k])
      && (|answers| <= last + 1 ==> cut == whole)
  {
    hide InWindow, NextOffset;
  }

  ghost predicate SameFleet(n: nat, run: seq<Answers>) {
    forall i :: 0 <= i < |run| ==> |run[i]| == n
  }

  function Run(cap: nat, s: State, run: seq<Answers>): (r: State)
    requires SameFleet(|s.failures|, run)
    ensures |r.failures| == |s.failures|
  {
    if run == [] then s else Tick(cap, Run(cap, s, run[..|run| - 1]), run[|run| - 1])
  }

  /** What one backend answered, over the ticks that probed it. */
  function ProbesOf(cap: nat, s: State, run: seq<Answers>, k: nat): seq<bool>
    requires SameFleet(|s.failures|, run) && k < |s.failures|
  {
    if run == [] then []
    else
      var front := run[..|run| - 1];
      ProbesOf(cap, s, front, k)
      + if InWindow(|s.failures|, cap, Run(cap, s, front).offset, k) then [run[|run| - 1][k]] else []
  }

  /** Misses since the last healthy answer. */
  function TrailingMisses(probes: seq<bool>, before: nat): nat {
    if probes == [] then before
    else if probes[|probes| - 1] then 0
    else TrailingMisses(probes[..|probes| - 1], before) + 1
  }

  /** The count is the length of the current streak of misses, whatever ticks went by unprobed. */
  lemma {:induction false} CountIsStreak(cap: nat, s: State, run: seq<Answers>, k: nat)
    requires SameFleet(|s.failures|, run) && k < |s.failures|
    ensures Run(cap, s, run).failures[k] == TrailingMisses(ProbesOf(cap, s, run, k), s.failures[k])
  {
    if run != [] {
      CountIsStreak(cap, s, run[..|run| - 1], k);
      LastTick(cap, s, run, k);
      hide Run, ProbesOf, InWindow, TrailingMisses;
      StreakExtends(ProbesOf(cap, s, run[..|run| - 1], k), run[|run| - 1][k], s.failures[k]);
    }
  }

  lemma StreakExtends(probes: seq<bool>, healthy: bool, before: nat)
    ensures TrailingMisses(probes + [healthy], before) == Counted(TrailingMisses(probes, before), true, healthy)
  {
    assert (probes + [healthy])[..|probes|] == probes;
  }

  /** What the last tick of a run does to one backend. */
  lemma LastTick(cap: nat, s: State, run: seq<Answers>, k: nat)
    requires SameFleet(|s.failures|, run) && k < |s.failures| && run != []
    ensures SameFleet(|s.failures|, run[..|run| - 1])
    ensures var before := Run(cap, s, run[..|run| - 1]);
            var probed := InWindow(|s.failures|, cap, before.offset, k);
            && Run(cap, s, run).failures[k] == Counted(before.failures[k], probed, run[|run| - 1][k])
            && ProbesOf(cap, s, run, k)
               == (if probed then ProbesOf(cap, s, run[..|run| - 1], k) + [run[|run| - 1][k]] else ProbesOf(cap, s, run[..|run| - 1], k))
  {
    hide Tick, InWindow, Counted;
    TickAt(cap, Run(cap, s, run[..|run| - 1]), run[|run| - 1], k);
  }

  /** Given up at the `i`th tick of the run. */
  predicate LostAt(cap: nat, threshold: int, s: State, run: seq<Answers>, i: nat, k: nat)
    requires SameFleet(|s.failures|, run) && i < |run| && k < |s.failures|
  {
    LostNow(cap, threshold, Run(cap, s, run[..i]), run[i], k)
  }

  /** Every stretch of so many probes holds a healthy one. */
  ghost predicate AnswersWithin(probes: seq<bool>, threshold: nat) {
    forall i: nat :: i + threshold <= |probes| ==> SomeAnswer(probes, i, threshold)
  }

  ghost predicate SomeAnswer(probes: seq<bool>, from: nat, count: nat)
    requires from + count <= |probes|
  {
    exists j :: from <= j < from + count && probes[j]
  }

  lemma {:induction false} StreakShows(probes: seq<bool>)
    ensures TrailingMisses(probes, 0) <= |probes|
    ensures forall j :: |probes| - TrailingMisses(probes, 0) <= j < |probes| ==> !probes[j]
  {
    if probes != [] {
      StreakShows(probes[..|probes| - 1]);
    }
  }

  /** A backend that answers at least once in every `threshold` consecutive probes is never given up. */
  lemma AnsweringNeverLost(cap: nat, threshold: nat, s: State, run: seq<Answers>, i: nat, k: nat)
    requires SameFleet(|s.failures|, run) && i < |run| && k < |s.failures| && s.failures[k] == 0
    requires AnswersWithin(ProbesOf(cap, s, run[..i + 1], k), threshold)
    ensures !LostAt(cap, threshold, s, run, i, k)
  {
    hide InWindow, Tick;
    var upTo := run[..i + 1];
    assert upTo[..i] == run[..i] && upTo[i] == run[i];
    CountIsStreak(cap, s, run[..i], k);
    var probes := ProbesOf(cap, s, run[..i], k);
    if InWindow(|s.failures|, cap, Run(cap, s, run[..i]).offset, k) && !run[i][k] {
      assert ProbesOf(cap, s, upTo, k) == probes + [false];
      StreakShort(probes + [false], threshold);
      assert (probes + [false])[..|probes|] == probes;
    }
  }

  lemma StreakShort(probes: seq<bool>, threshold: nat)
    requires AnswersWithin(probes, threshold)
    ensures TrailingMisses(probes, 0) < threshold
  {
    StreakShows(probes);
    assert threshold <= |probes| ==> SomeAnswer(probes, |probes| - threshold, threshold);
  }

  // ----- how fast a silent backend is given up

  lemma {:induction false} OffsetOfRun(cap: nat, s: State, run: seq<Answers>, i: nat)
    requires SameFleet(|s.failures|, run) && i <= |run|
    ensures Run(cap, s, run[..i]).offset == OffsetAfter(|s.failures|, cap, s.offset, i)
  {
    hide NextOffset, InWindow;
    if 0 < i {
      OffsetOfRun(cap, s, run, i - 1);
      assert run[..i][..i - 1] == run[..i - 1];
      OffsetSnoc(|s.failures|, cap, s.offset, i - 1);
    }
  }

  lemma {:induction false} OffsetSnoc(n: nat, cap: nat, offset: nat, ticks: nat)
    ensures OffsetAfter(n, cap, offset, ticks + 1) == NextOffset(n, cap, OffsetAfter(n, cap, offset, ticks))
    decreases ticks
  {
    hide NextOffset;
    if 0 < ticks {
      OffsetSnoc(n, cap, NextOffset(n, cap, offset), ticks - 1);
    }
  }

  /** A backend's count, and whether it is probed, at tick `i` of a run. */
  function CountAt(cap: nat, s: State, run: seq<Answers>, i: nat, k: nat): nat
    requires SameFleet(|s.failures|, run) && i <= |run| && k < |s.failures|
  {
    Run(cap, s, run[..i]).failures[k]
  }

  predicate ProbedAt(cap: nat, s: State, run: seq<Answers>, i: nat, k: nat)
    requires SameFleet(|s.failures|, run) && i < |run| && k < |s.failures|
  {
    InWindow(|s.failures|, cap, Run(cap, s, run[..i]).offset, k)
  }

  ghost predicate NeverAnswers(n: nat, run: seq<Answers>, k: nat)
    requires SameFleet(n, run) && k < n
  {
    forall m :: 0 <= m < |run| ==> !run[m][k]
  }

  lemma SilentTick(cap: nat, s: State, run: seq<Answers>, i: nat, k: nat)
    requires SameFleet(|s.failures|, run) && k < |s.failures| && i < |run| && NeverAnswers(|s.failures|, run, k)
    ensures CountAt(cap, s, run, i + 1, k) == CountAt(cap, s, run, i, k) + if ProbedAt(cap, s, run, i, k) then 1 else 0
  {
    hide InWindow, NextOffset, Tick, ProbesOf, Run;
    assert run[..i + 1][..i] == run[..i] && run[..i + 1][i] == run[i];
    LastTick(cap, s, run[..i + 1], k);
  }

  lemma {:induction false} SilentGrows(cap: nat, s: State, run: seq<Answers>, i: nat, j: nat, k: nat)
    requires SameFleet(|s.failures|, run) && i <= j <= |run| && k < |s.failures| && NeverAnswers(|s.failures|, run, k)
    ensures CountAt(cap, s, run, i, k) <= CountAt(cap, s, run, j, k)
    decreases j
  {
    hide CountAt, ProbedAt;
    if i < j {
      SilentGrows(cap, s, run, i, j - 1, k);
      SilentTick(cap, s, run, j - 1, k);
    }
  }

  lemma {:induction false} OffsetPlus(n: nat, cap: nat, offset: nat, i: nat, j: nat)
    ensures OffsetAfter(n, cap, OffsetAfter(n, cap, offset, i), j) == OffsetAfter(n, cap, offset, i + j)
    decreases i
  {
    hide NextOffset;
    if 0 < i {
      OffsetPlus(n, cap, NextOffset(n, cap, offset), i - 1, j);
    }
  }

  /** Every round of ticks probes every backend. */
  lemma ProbedInRound(cap: nat, s: State, run: seq<Answers>, from: nat, k: nat) returns (at: nat)
    requires SameFleet(|s.failures|, run) && k < |s.failures| && 1 <= cap
    requires from + CeilDiv(|s.failures|, cap) <= |run|
    ensures from <= at < from + CeilDiv(|s.failures|, cap) && ProbedAt(cap, s, run, at, k)
  {
    hide InWindow, CeilDiv, NextOffset, OffsetAfter, Tick, Run;
    var j := EveryoneProbed(|s.failures|, cap, Run(cap, s, run[..from]).offset, k);
    at := from + j;
    OffsetOfRun(cap, s, run, from);
    OffsetOfRun(cap, s, run, at);
    OffsetPlus(|s.failures|, cap, s.offset, from, j);
  }

  /** So many rounds of ticks cost a silent backend at least as many misses. */
  lemma {:induction false} RoundsMiss(cap: nat, s: State, run: seq<Answers>, rounds: nat, k: nat)
    requires SameFleet(|s.failures|, run) && k < |s.failures| && 1 <= cap && NeverAnswers(|s.failures|, run, k)
    requires rounds * CeilDiv(|s.failures|, cap) <= |run|
    ensures rounds <= CountAt(cap, s, run, rounds * CeilDiv(|s.failures|, cap), k)
  {
    hide CeilDiv, CountAt, ProbedAt, NeverAnswers;
    if 0 < rounds {
      var round := CeilDiv(|s.failures|, cap);
      var from := (rounds - 1) * round;
      assert rounds * round == from + round;
      RoundsMiss(cap, s, run, rounds - 1, k);
      var at := ProbedInRound(cap, s, run, from, k);
      SilentGrows(cap, s, run, from, at, k);
      SilentTick(cap, s, run, at, k);
      SilentGrows(cap, s, run, at + 1, from + round, k);
    }
  }

  /** A backend that never answers is given up within threshold times ceil(n / cap) ticks, from any starting point. */
  lemma SilentIsLost(cap: nat, threshold: int, s: State, run: seq<Answers>, k: nat) returns (i: nat)
    requires SameFleet(|s.failures|, run) && k < |s.failures| && 1 <= cap && NeverAnswers(|s.failures|, run, k)
    requires |run| == Max(1, threshold) * CeilDiv(|s.failures|, cap)
    ensures i < |run| && LostAt(cap, threshold, s, run, i, k)
  {
    var round := CeilDiv(|s.failures|, cap);
    var from := (Max(1, threshold) - 1) * round;
    assert |run| == from + round;
    RoundsMiss(cap, s, run, Max(1, threshold) - 1, k);
    i := ProbedInRound(cap, s, run, from, k);
    SilentGrows(cap, s, run, from, i, k);
    hide CeilDiv, InWindow, Run;
    assert LostAt(cap, threshold, s, run, i, k);
  }

  // ----- the watch, imperatively

  class BackendWatch {
    const threshold: int
    var probeOffset: nat
    var failures: seq<nat>

    constructor (threshold: int, n: nat)
      ensures this.threshold == threshold && Now() == State(0, seq(n, _ => 0))
    {
      this.threshold := threshold;
      probeOffset, failures := 0, seq(n, _ => 0);
    }

    function Now(): State
      reads this
    {
      State(probeOffset, failures)
    }

    /** The backends to probe this tick; past the worker cap, a rotating window of them. */
    method PickTargets<T>(targets: seq<T>) returns (picked: seq<T>)
      modifies this`probeOffset
      ensures picked == Window(targets, MAX_PROBE_WORKERS, old(probeOffset))
      ensures probeOffset == NextOffset(|targets|, MAX_PROBE_WORKERS, old(probeOffset))
    {
      picked := targets;
      if MAX_PROBE_WORKERS < |targets| {
        var start := probeOffset % |targets|;
        picked := (targets[start..] + targets[..start])[..MAX_PROBE_WORKERS];
        probeOffset := (start + MAX_PROBE_WORKERS) % |targets|;
      }
    }

    /** React to one backend's probe, if it was probed: true when it has now missed once too often. */
    method ApplyProbe(k: nat, probed: bool, healthy: bool) returns (lost: bool)
      requires k < |failures|
      modifies this`failures
      ensures failures == old(failures)[k := Counted(old(failures)[k], probed, healthy)]
      ensures lost <==> probed && !healthy && threshold <= old(failures)[k] + 1
    {
      if !probed {
        return false;
      }
      if healthy {
        failures := failures[k := 0];
        return false;
      }
      failures := failures[k := failures[k] + 1];
      return threshold <= failures[k];
    }

    /** One pass over the fleet. Giving up a backend whose record a stop has moved on meanwhile raises, and that ends the
        pass: the backends before it and it itself keep their new counts, those after it lose this tick's answers. */
    method OnePass(answers: Answers, stopped: set<nat>) returns (lost: set<nat>, raised: Option<nat>)
      requires |answers| == |failures|
      modifies this
      ensures Now() == TickTo(MAX_PROBE_WORKERS, old(Now()), answers, if raised.Some? then raised.value else |answers|)
      ensures raised.Some? ==>
        raised.value < |answers| && raised.value in stopped && LostNow(MAX_PROBE_WORKERS, threshold, old(Now()), answers, raised.value)
      ensures forall k: nat :: k in lost <==>
        && k < (if raised.Some? then raised.value else |answers|)
        && LostNow(MAX_PROBE_WORKERS, threshold, old(Now()), answers, k)
      ensures lost !! stopped
    {
      var n := |failures|;
      var ids := seq(n, i requires 0 <= i < n => i);
      var picked := PickTargets(ids);
      lost, raised := {}, None;
      for k: nat := 0 to n
        invariant |failures| == n && raised == None && lost !! stopped
        invariant probeOffset == NextOffset(n, MAX_PROBE_WORKERS, old(probeOffset))
        invariant forall i: nat :: i < k ==>
          failures[i] == Counted(old(failures)[i], InWindow(n, MAX_PROBE_WORKERS, old(probeOffset), i), answers[i])
        invariant forall i: nat :: k <= i < n ==> failures[i] == old(failures)[i]
        invariant forall i: nat :: i in lost <==> i < k && LostNow(MAX_PROBE_WORKERS, threshold, old(Now()), answers, i)
      {
        WindowIs(ids, MAX_PROBE_WORKERS, old(probeOffset), k);
        assert ids[k] == k;
        var gone := ApplyProbe(k, k in picked, answers[k]);
        if gone && k in stopped {
          return lost, Some(k);
        }
        if gone {
          lost := lost + {k};
        }
      }
    }
  }

  // ----- how long a probe may take

  /** The per-path timeout: what is left of the death bound per miss, after the poll wait and the tick's other work. */
  function ProbeTimeout(threshold: int, poll: real, paths: nat): real {
    var misses := Max(1, threshold);
    var perPath := (DEATH_BOUND / misses as real - poll - PROBE_OVERHEAD) / Max(1, paths) as real;
    if perPath < MIN_PROBE_TIMEOUT then MIN_PROBE_TIMEOUT else perPath
  }

  /** The longest a backend can hang before its last tolerated miss is counted. */
  function TimeToDeath(threshold: int, poll: real, paths: nat): real {
    Max(1, threshold) as real * (poll + PROBE_OVERHEAD + Max(1, paths) as real * ProbeTimeout(threshold, poll, paths))
  }

  /** The bound is met exactly, unless the timeout's floor is what decides, and then it is overrun. */
  lemma DeathBoundMet(threshold: int, poll: real, paths: nat)
    ensures TimeToDeath(threshold, poll, paths) >= DEATH_BOUND
    ensures TimeToDeath(threshold, poll, paths) == DEATH_BOUND <==>
      Max(1, threshold) as real * (poll + PROBE_OVERHEAD + Max(1, paths) as real * MIN_PROBE_TIMEOUT) <= DEATH_BOUND
  {
    var m, p := Max(1, threshold) as real, Max(1, paths) as real;
    var perPath := (DEATH_BOUND / m - poll - PROBE_OVERHEAD) / p;
    PerPathFills(m, p, poll + PROBE_OVERHEAD, perPath);
    FloorDecides(m, p, poll + PROBE_OVERHEAD, perPath, ProbeTimeout(threshold, poll, paths));
  }

  lemma FloorDecides(m: real, p: real, c: real, x: real, t: real)
    requires 1.0 <= m && 1.0 <= p && m * (c + p * x) == DEATH_BOUND
    requires t == if x < MIN_PROBE_TIMEOUT then MIN_PROBE_TIMEOUT else x
    ensures m * (c + p * t) >= DEATH_BOUND
    ensures m * (c + p * t) == DEATH_BOUND <==> m * (c + p * MIN_PROBE_TIMEOUT) <= DEATH_BOUND
  {
    TimeOrder(m, p, c, x, MIN_PROBE_TIMEOUT);
    TimeOrder(m, p, c, MIN_PROBE_TIMEOUT, x);
  }

  lemma PerPathFills(m: real, p: real, c: real, x: real)
    requires 1.0 <= m && 1.0 <= p && x == (DEATH_BOUND / m - c) / p
    ensures m * (c + p * x) == DEATH_BOUND
  {
    assert x * p == DEATH_BOUND / m - c;
    assert DEATH_BOUND / m * m == DEATH_BOUND;
    assert m * (c + p * x) == m * (DEATH_BOUND / m);
  }

  lemma TimeOrder(m: real, p: real, c: real, x: real, y: real)
    requires 1.0 <= m && 1.0 <= p
    ensures m * (c + p * x) < m * (c + p * y) <==> x < y
  {
    assert m * (c + p * y) - m * (c + p * x) == m * p * (y - x);
    assert 1.0 <= m * p;
    var mp := m * p;
    if x < y {
      assert 0.0 < mp * (y - x);
    } else {
      MulNonneg(mp, x - y);
    }
  }
}
