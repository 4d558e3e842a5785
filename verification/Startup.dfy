/** The start gate inside the manager, with the engines the launches leave running: what "one engine start at a time per
    node" and the clash rule come to for the engines themselves, stops and restarts included. */
module Startup {
  import opened Contracts
  import opened Fsm
  import opened Store
  import Manager
  import StartGate

  /** What a launcher was asked to start, for a record, and whether it is still loading. */
  datatype Engine = Engine(rec: Rec, starting: bool)

  /** The manager's state and the gate's, which a crash empties, and the engines, which it does not touch. A launched record
      has a worker at the gate; a record without one was adopted by reconciliation. */
  datatype World = World(sys: Manager.Sys, gate: StartGate.Gate, engines: map<string, Engine>)

  /** A step of the manager, with the deadline of the worker a launch starts; a worker's look at the gate, and its leaving it;
      an engine that comes up or goes down, of itself or torn down through its cluster id. */
  datatype Event =
    | Control(e: Manager.Event, deadline: real)
    | Look(id: string, now: real)
    | Leave(id: string)
    | Settled(id: string, up: bool)

  /** The launcher works inside the gate. A worker leaves once its launcher is done and its record has settled. */
  predicate Enabled(w: World, ev: Event) {
    match ev
    case Control(e, _) => Manager.Enabled(w.sys, e) && (e.Launched? || e.GaveUp? ==> StartGate.IsInside(w.gate, e.id))
    case Look(id, now) => w.sys.up && id in w.sys.records && StartGate.Enabled(w.gate, StartGate.Look(id, now))
    case Leave(id) =>
      && w.sys.up && StartGate.Enabled(w.gate, StartGate.Leave(id))
      && id in w.sys.records && w.sys.records[id].state != Launching && id !in w.sys.workers
    case Settled(id, _) => id in w.engines
  }

  predicate Launches(w: World, e: Manager.Event) {
    e.Launch? && Manager.ConflictOf(w.sys.records, e.servedName, e.modelId, e.nodes) == Manager.NoClash
  }

  function Answering(engines: map<string, Engine>, id: string): map<string, Engine> {
    if id in engines then engines[id := engines[id].(starting := false)] else engines
  }

  /** What the manager's own questions show of an engine: one that answers has started, one known not to run is gone. */
  function Observed(w: World, e: Manager.Event): map<string, Engine>
    requires Manager.Enabled(w.sys, e)
  {
    match e
    case Answered(id, _) => Answering(w.engines, id)
    case Rehydrate(id, probe, running, _) =>
      var rec := w.sys.unread[id];
      if Terminal(rec.state) then w.engines
      else if rec.url.Some? && probe == Manager.Healthy then Answering(w.engines, id)
      else if rec.url.Some? && probe == Manager.WrongModel then w.engines
      else if rec.clusterId.Some? && running == Some(false) then w.engines - {id}
      else w.engines
    case _ => w.engines
  }

  /** A worker gets in. The gate looks at no record: one that has failed meanwhile is launched all the same. */
  predicate Enters(w: World, ev: Event) {
    ev.Look? && Enabled(w, ev) && w.gate.workers[ev.id].nodes !! w.gate.starting
  }

  /** An engine starts where a worker enters, and nowhere else. A worker that times out gives its launch up. */
  function Step(w: World, ev: Event): World
    requires Enabled(w, ev)
  {
    match ev
    case Control(e, deadline) =>
      World(Manager.Step(w.sys, e),
            if e.Crash? then StartGate.OPEN
            else if Launches(w, e) && e.id !in w.gate.workers then StartGate.Step(w.gate, StartGate.Arrive(e.id, e.nodes, deadline))
            else w.gate,
            Observed(w, e))
    case Look(id, now) =>
      var gate := StartGate.Step(w.gate, StartGate.Look(id, now));
      if gate.workers[id].phase == StartGate.Inside then w.(gate := gate, engines := w.engines[id := Engine(w.sys.records[id], true)])
      else if gate.workers[id].phase == StartGate.TimedOut then w.(gate := gate, sys := w.sys.(workers := w.sys.workers - {id}))
      else w.(gate := gate)
    case Leave(id) => w.(gate := StartGate.Step(w.gate, StartGate.Leave(id)))
    case Settled(id, up) => w.(engines := if up then Answering(w.engines, id) else w.engines - {id})
  }

  predicate Starting(w: World, id: string) {
    id in w.engines && w.engines[id].starting
  }

  /** Still starting, and nothing at the gate holds its nodes. */
  predicate Orphan(w: World, id: string) {
    Starting(w, id) && !StartGate.IsInside(w.gate, id)
  }

  /** Two engines starting on one node. */
  predicate Doubled(w: World, a: string, b: string) {
    a != b && Starting(w, a) && Starting(w, b) && !(w.engines[a].rec.nodes !! w.engines[b].rec.nodes)
  }

  /** A worker enters on a node of an orphan. */
  predicate EntersOn(w: World, ev: Event, b: string) {
    Enters(w, ev) && Orphan(w, b) && !(w.sys.records[ev.id].nodes !! w.engines[b].rec.nodes)
  }

  /** Two engines with one name, one port, or one model on one node. */
  predicate Clash(w: World, a: string, b: string) {
    a != b && a in w.engines && b in w.engines && !Manager.Compatible(w.engines[a].rec, w.engines[b].rec)
  }

  /** A worker enters to start an engine that clashes with one that is there. */
  predicate EntersAgainst(w: World, ev: Event, b: string) {
    Enters(w, ev) && b in w.engines && !Manager.Compatible(w.sys.records[ev.id], w.engines[b].rec)
  }

  // ----- what every step keeps

  /** A worker is of this life: its record is in memory and nothing is left to adopt. One that waits has its launch before
      it; one that timed out gave it up; one that left had its launcher answer and its record settle; and a record whose engine
      has not answered is launching or failed. */
  predicate ManOf(w: World, id: string)
    requires id in w.gate.workers
  {
    var m := w.gate.workers[id];
    && w.sys.up && w.sys.unread == map[] && id in w.sys.records && w.sys.records[id].nodes == m.nodes
    && (m.phase == StartGate.Waiting ==> id !in w.engines && w.sys.records[id].url == None && id in w.sys.workers)
    && (m.phase == StartGate.TimedOut ==> id !in w.engines && id !in w.sys.workers)
    && (m.phase == StartGate.Waiting || Starting(w, id) ==> w.sys.records[id].state in {Launching, Failed})
    && (m.phase == StartGate.Done ==> w.sys.records[id].state != Launching && id !in w.sys.workers)
  }

  ghost predicate Manned(w: World) {
    forall id | id in w.gate.workers :: ManOf(w, id)
  }

  /** An engine was started for the record it has, wherever that is written, and no record serves before its engine has
      answered. */
  predicate StartedFor(g: Engine, rec: Rec) {
    Manager.SameIdentity(g.rec, rec) && (g.starting ==> !Serving(rec.state))
  }

  predicate EngineOf(s: Manager.Sys, g: Engine, id: string) {
    && id in s.used && (id in s.records ==> StartedFor(g, s.records[id])) && (id in s.unread ==> StartedFor(g, s.unread[id]))
    && (id in s.disk ==> StartedFor(g, s.disk[id].rec))
  }

  ghost predicate Engined(w: World) {
    forall id | id in w.engines :: EngineOf(w.sys, w.engines[id], id)
  }

  ghost predicate Good(w: World) {
    Manager.Good(w.sys) && StartGate.Exclusive(w.gate) && Manned(w) && Engined(w)
  }

  /** What a manager step can do to a record while nothing is left to adopt. */
  ghost predicate Kept(s: Manager.Sys, t: Manager.Sys, e: Manager.Event, id: string)
    requires id in s.records
  {
    && t.up && t.unread == map[] && id in t.records && t.records[id].nodes == s.records[id].nodes
    && (t.records[id].state == Launching ==> s.records[id].state == Launching)
    && (t.records[id].url == s.records[id].url || (e.Launched? && e.id == id))
    && (id in t.workers ==> id in s.workers) && (id in s.workers ==> id in t.workers || ((e.Launched? || e.GaveUp?) && e.id == id))
    && (s.records[id].state in {Launching, Failed} ==>
          t.records[id].state in {Launching, Failed} || (e.Answered? && e.id == id && s.records[id].url.Some?))
  }

  lemma RecordsKept(s: Manager.Sys, e: Manager.Event, id: string)
    requires Manager.Good(s) && Manager.Enabled(s, e) && s.up && s.unread == map[] && id in s.records && !e.Crash?
    ensures Kept(s, Manager.Step(s, e), e, id)
  {
    assert id in s.used by { assert Manager.Mirrored(s.disk, id, s.records[id]); }
    hide Manager.Good;
    if Manager.IsTransition(e) {
      MoveKeeps(s, e, id);
    } else {
      RecordKeeps(s, e, id);
    }
  }

  lemma RecordKeeps(s: Manager.Sys, e: Manager.Event, id: string)
    requires Manager.Enabled(s, e) && s.up && s.unread == map[] && id in s.records && id in s.used && !e.Crash?
    requires !Manager.IsTransition(e)
    ensures Kept(s, Manager.Step(s, e), e, id)
  {
    hide Manager.ConflictOf, Manager.PortChoice;
  }

  lemma MoveKeeps(s: Manager.Sys, e: Manager.Event, id: string)
    requires Manager.Enabled(s, e) && s.up && s.unread == map[] && id in s.records && Manager.IsTransition(e)
    ensures Kept(s, Manager.Step(s, e), e, id)
  {
    hide Manager.Transition;
    var target := Manager.Target(e, s.records[e.id].state);
    if target.Some? {
      TransitionKeeps(s, e.id, target.value, e.now, id);
    }
  }

  lemma TransitionKeeps(s: Manager.Sys, moved: string, target: State, now: real, id: string)
    requires moved in s.records && id in s.records
    ensures var t := Manager.Transition(s, moved, target, now);
      && t.up == s.up && t.unread == s.unread && t.workers == s.workers && id in t.records
      && t.records[id] == s.records[id].(state := t.records[id].state)
      && (t.records[id].state == s.records[id].state || (moved == id && t.records[id].state == target
                                                          && target in Legal(s.records[id].state)))
  {
    hide Swept, Legal;
  }

  lemma ControlMan(w: World, ev: Event, id: string)
    requires Good(w) && Enabled(w, ev) && ev.Control? && !ev.e.Crash? && id in w.gate.workers
    ensures id in Step(w, ev).gate.workers && Step(w, ev).gate.workers[id] == w.gate.workers[id] && ManOf(Step(w, ev), id)
  {
    hide Manager.Good, StartGate.Exclusive, Manager.ConflictOf, Manager.Step, Engined;
    RecordsKept(w.sys, ev.e, id);
  }

  lemma LaunchMan(w: World, ev: Event)
    requires Good(w) && Enabled(w, ev) && ev.Control? && Launches(w, ev.e) && ev.e.id !in w.gate.workers
    ensures ev.e.id in Step(w, ev).gate.workers && ManOf(Step(w, ev), ev.e.id)
  {
    hide StartGate.Exclusive, Manager.ConflictOf, Manager.PortChoice, Manager.Clashfree, Manned;
    assert ev.e.id !in w.engines;
  }

  lemma StepManned(w: World, ev: Event)
    requires Good(w) && Enabled(w, ev)
    ensures Manned(Step(w, ev))
  {
    hide Manager.Good, StartGate.Exclusive, Manager.ConflictOf, Engined, Manager.Step;
    match ev
    case Control(e, deadline) =>
      if !e.Crash? {
        var after := Step(w, ev);
        forall id | id in after.gate.workers ensures ManOf(after, id) {
          hide Step, ManOf, Manned;
          if id in w.gate.workers {
            ControlMan(w, ev, id);
          } else {
            NewWorker(w, ev, id);
            LaunchMan(w, ev);
          }
        }
      }
    case Look(_, _) =>
    case Leave(_) =>
    case Settled(_, _) =>
  }

  lemma NewWorker(w: World, ev: Event, id: string)
    requires Enabled(w, ev) && ev.Control? && id !in w.gate.workers && id in Step(w, ev).gate.workers
    ensures Launches(w, ev.e) && ev.e.id == id
  {
    hide Manager.Step, Manager.ConflictOf, Observed;
  }

  /** What a manager step leaves of an engine that was started for its record. */
  lemma ControlEngine(w: World, ev: Event, id: string)
    requires Good(w) && Enabled(w, ev) && ev.Control? && id in Observed(w, ev.e)
    ensures EngineOf(Manager.Step(w.sys, ev.e), Observed(w, ev.e)[id], id)
  {
    assert id in w.engines by { hide Manager.Good, Manned, Engined, StartGate.Exclusive; }
    assert EngineOf(w.sys, w.engines[id], id);
    hide Manager.Good, StartGate.Exclusive, Manned, Engined, EngineOf, Manager.Step, Observed;
    if Manager.IsTransition(ev.e) {
      MoveEngine(w, ev.e, id);
    } else if ev.e.Rehydrate? {
      RehydrateEngine(w, ev.e, id);
    } else {
      RecordEngine(w, ev.e, id);
    }
  }

  lemma MoveEngine(w: World, e: Manager.Event, id: string)
    requires Manager.Enabled(w.sys, e) && Manager.IsTransition(e) && id in w.engines && EngineOf(w.sys, w.engines[id], id)
    ensures id in Observed(w, e) && EngineOf(Manager.Step(w.sys, e), Observed(w, e)[id], id)
  {
    var g := Observed(w, e)[id];
    var target := Manager.Target(e, w.sys.records[e.id].state);
    hide Manager.Transition;
    if target.Some? {
      TransitionEngine(w.sys, e.id, target.value, e.now, g, id);
    }
  }

  lemma RehydrateEngine(w: World, e: Manager.Event, id: string)
    requires Manager.Enabled(w.sys, e) && e.Rehydrate? && id in Observed(w, e) && id in w.engines
    requires EngineOf(w.sys, w.engines[id], id)
    ensures EngineOf(Manager.Step(w.sys, e), Observed(w, e)[id], id)
  {}

  lemma RecordEngine(w: World, e: Manager.Event, id: string)
    requires Manager.Good(w.sys) && Manager.Enabled(w.sys, e) && !Manager.IsTransition(e) && !e.Rehydrate? && id in w.engines
    requires EngineOf(w.sys, w.engines[id], id)
    ensures Observed(w, e) == w.engines && EngineOf(Manager.Step(w.sys, e), w.engines[id], id)
  {
    hide Manager.Clashfree, Manager.ConflictOf, Manager.PortChoice, Purged;
    if e.Restart? {
      Manager.PurgeDropsFinishedOnly(w.sys.disk, e.now);
    }
  }

  lemma TransitionEngine(s: Manager.Sys, moved: string, target: State, now: real, g: Engine, id: string)
    requires moved in s.records && EngineOf(s, g, id)
    requires moved == id && g.starting ==> !Serving(target)
    ensures EngineOf(Manager.Transition(s, moved, target, now), g, id)
  {
    hide Swept;
    Manager.SweptKeeps(Manager.Written(s, moved, s.records[moved].(state := target), now).disk);
  }

  lemma StepEngined(w: World, ev: Event)
    requires Good(w) && Enabled(w, ev)
    ensures Engined(Step(w, ev))
  {
    hide StartGate.Exclusive, Manager.ConflictOf, Manager.Step, Observed, Manager.Clashfree;
    match ev
    case Control(e, _) =>
      forall id | id in Observed(w, e) ensures EngineOf(Manager.Step(w.sys, e), Observed(w, e)[id], id) {
        ControlEngine(w, ev, id);
      }
    case Look(id, _) =>
      assert ManOf(w, id) && Manager.Mirrored(w.sys.disk, id, w.sys.records[id]);
    case Leave(_) =>
    case Settled(_, _) =>
  }

  lemma StepGood(w: World, ev: Event)
    requires Good(w) && Enabled(w, ev)
    ensures Good(Step(w, ev))
  {
    StepManned(w, ev);
    StepEngined(w, ev);
    hide Manager.Backed, Manager.Clashfree, StartGate.Exclusive, Manned, Engined, Manager.Step, StartGate.Step, Manager.ConflictOf;
    match ev
    case Control(e, deadline) =>
      Manager.StepGood(w.sys, e);
      if e.Crash? {
        OpenExclusive();
      } else if Launches(w, e) && e.id !in w.gate.workers {
        StartGate.StepExclusive(w.gate, StartGate.Arrive(e.id, e.nodes, deadline));
      }
    case Look(id, now) => StartGate.StepExclusive(w.gate, StartGate.Look(id, now));
    case Leave(id) => StartGate.StepExclusive(w.gate, StartGate.Leave(id));
    case Settled(_, _) =>
  }

  lemma OpenExclusive()
    ensures StartGate.Exclusive(StartGate.OPEN)
  {}

  // ----- orphans

  /** Reconciliation brought the record back launching; only a ready waiter was spawned for it, which never asks the gate. */
  predicate AdoptedLaunching(w: World, id: string) {
    id in w.sys.records && id !in w.gate.workers && w.sys.records[id].state == Launching
  }

  /** The worker holding a starting engine's nodes is taken from it. */
  predicate Orphaned(w: World, ev: Event, id: string) {
    Starting(w, id) && StartGate.IsInside(w.gate, id) && ((ev.Control? && ev.e.Crash?) || ev == Leave(id))
  }

  /** An engine is orphaned by a crash while its worker is inside, or by its worker leaving: then its record has failed
      before the engine answered. Nothing else orphans one. */
  lemma OrphanedIff(w: World, ev: Event, id: string)
    requires Good(w) && Enabled(w, ev)
    ensures Orphan(Step(w, ev), id) && !Orphan(w, id) <==> Orphaned(w, ev, id)
    ensures Orphaned(w, ev, id) && ev.Leave? ==> w.sys.records[id].state == Failed
  {
    hide Manager.Good, StartGate.Exclusive, Manager.ConflictOf, Manager.Step, Engined;
    if id in w.gate.workers {
      assert ManOf(w, id);
    }
  }

  /** Once reconciliation is done an orphan's record was adopted and is launching, or is stopping, finished or gone. */
  lemma OrphanKinds(w: World, id: string)
    requires Good(w) && Orphan(w, id) && w.sys.up && w.sys.unread == map[]
    ensures AdoptedLaunching(w, id) || Manager.Ended(Manager.Status(w.sys, id))
  {
    hide Manager.Clashfree, StartGate.Exclusive;
    assert EngineOf(w.sys, w.engines[id], id);
    if id in w.gate.workers {
      assert ManOf(w, id);
    }
    if id in w.sys.records {
      assert Manager.Mirrored(w.sys.disk, id, w.sys.records[id]) && Persisted(w.sys.records[id].state);
    }
  }

  // ----- two engines starting on one node

  /** Engines double in a step only where they were doubled already, or a worker enters on an orphan's node. */
  lemma DoublesOnEntry(w: World, ev: Event, a: string, b: string)
    requires Good(w) && Enabled(w, ev) && Doubled(Step(w, ev), a, b)
    ensures Doubled(w, a, b) || (EntersOn(w, ev, b) && ev.id == a) || (EntersOn(w, ev, a) && ev.id == b)
  {
    if Enters(w, ev) {
      hide Manager.Good, Manager.Step;
      if ev.id == a && StartGate.IsInside(w.gate, b) {
        HeldByGate(w, ev, b);
      } else if ev.id == b && StartGate.IsInside(w.gate, a) {
        HeldByGate(w, ev, a);
      }
    } else {
      hide Manager.Good, Manned, Engined, StartGate.Exclusive, Manager.Step, Manager.ConflictOf;
    }
  }

  /** A worker inside keeps others off its engine's nodes. */
  lemma HeldByGate(w: World, ev: Event, b: string)
    requires Good(w) && Enters(w, ev) && b in w.engines && StartGate.IsInside(w.gate, b)
    ensures w.sys.records[ev.id].nodes !! w.engines[b].rec.nodes
  {
    hide Manager.Good;
    assert ManOf(w, b) && ManOf(w, ev.id) && EngineOf(w.sys, w.engines[b], b);
    assert forall n :: n in w.gate.workers[b].nodes ==> n in w.gate.starting;
  }

  lemma EntryDoubles(w: World, ev: Event, b: string)
    requires Good(w) && EntersOn(w, ev, b)
    ensures ev.Look? && Enabled(w, ev) && Doubled(Step(w, ev), ev.id, b)
  {
    hide Manager.Good, StartGate.Exclusive, Engined;
    assert ManOf(w, ev.id);
  }

  // ----- two engines that clash

  lemma ClashesOnEntry(w: World, ev: Event, a: string, b: string)
    requires Good(w) && Enabled(w, ev) && Clash(Step(w, ev), a, b)
    ensures Clash(w, a, b) || (EntersAgainst(w, ev, b) && ev.id == a) || (EntersAgainst(w, ev, a) && ev.id == b)
  {
    hide Manager.Good, Manned, Engined, StartGate.Exclusive, Manager.Step, Manager.ConflictOf;
  }

  lemma EntryClashes(w: World, ev: Event, b: string)
    requires Good(w) && EntersAgainst(w, ev, b)
    ensures ev.Look? && Enabled(w, ev) && Clash(Step(w, ev), ev.id, b)
  {
    hide Manager.Good, StartGate.Exclusive, Engined, Manager.Compatible;
    assert ManOf(w, ev.id);
  }

  predicate Alive(w: World, id: string) {
    var status := Manager.Status(w.sys, id);
    status.Some? && !Terminal(status.value)
  }

  /** Of two engines that clash one has a record that is finished or gone: the record table's own rule does not cover it. */
  lemma ClashIsFinished(w: World, a: string, b: string)
    requires Good(w) && Clash(w, a, b)
    ensures !Alive(w, a) || !Alive(w, b)
  {
    hide StartGate.Exclusive, Manned, Manager.Compatible;
    assert EngineOf(w.sys, w.engines[a], a) && EngineOf(w.sys, w.engines[b], b);
    if Alive(w, a) && Alive(w, b) {
      OnDisk(w.sys, a);
      OnDisk(w.sys, b);
      assert a in Manager.Recs(w.sys.disk) && b in Manager.Recs(w.sys.disk);
      Manager.SameCompatible(w.sys.disk[a].rec, w.engines[a].rec, w.sys.disk[b].rec, w.engines[b].rec);
    }
  }

  lemma OnDisk(s: Manager.Sys, id: string)
    requires Manager.Good(s) && Manager.Status(s, id).Some? && !Terminal(Manager.Status(s, id).value)
    ensures id in s.disk && s.disk[id].rec.Live()
  {
    hide Manager.Clashfree;
    if id in s.records {
      assert Manager.Mirrored(s.disk, id, s.records[id]);
    } else if id in s.unread {
      assert Manager.Mirrored(s.disk, id, s.unread[id]);
    }
  }

  // ----- every interleaving, crashes and restarts included

  const START: World := World(Manager.START, StartGate.OPEN, map[])

  ghost predicate Feasible(es: seq<Event>)
    decreases |es|, 0
  {
    es == [] || (Feasible(es[..|es| - 1]) && Enabled(Run(es[..|es| - 1]), es[|es| - 1]))
  }

  ghost function Run(es: seq<Event>): World
    requires Feasible(es)
    decreases |es|, 1
  {
    if es == [] then START else Step(Run(es[..|es| - 1]), es[|es| - 1])
  }

  lemma {:induction false} AlwaysGood(es: seq<Event>)
    requires Feasible(es)
    ensures Good(Run(es))
    decreases |es|
  {
    if es == [] {
      OpenExclusive();
    } else {
      AlwaysGood(es[..|es| - 1]);
      hide Step, Enabled, Good;
      StepGood(Run(es[..|es| - 1]), es[|es| - 1]);
    }
  }

  ghost predicate SomeDoubled(w: World) { exists a, b :: Doubled(w, a, b) }

  ghost predicate SomeEntersOn(w: World, ev: Event) { exists b :: EntersOn(w, ev, b) }

  ghost predicate SomeClash(w: World) { exists a, b :: Clash(w, a, b) }

  ghost predicate SomeEntersAgainst(w: World, ev: Event) { exists b :: EntersAgainst(w, ev, b) }

  ghost predicate SomeOrphaned(w: World, ev: Event) { exists b :: Orphaned(w, ev, b) }

  /** Some state along the run has it. */
  ghost predicate EverWorld(es: seq<Event>, p: World -> bool)
    requires Feasible(es)
    decreases |es|
  {
    p(Run(es)) || (es != [] && EverWorld(es[..|es| - 1], p))
  }

  /** Some step along the run is one. */
  ghost predicate EverStep(es: seq<Event>, p: (World, Event) -> bool)
    requires Feasible(es)
    decreases |es|
  {
    es != [] && (EverStep(es[..|es| - 1], p) || p(Run(es[..|es| - 1]), es[|es| - 1]))
  }

  lemma StepDoubles(w: World, ev: Event)
    requires Good(w) && Enabled(w, ev)
    ensures SomeDoubled(Step(w, ev)) ==> SomeDoubled(w) || SomeEntersOn(w, ev)
    ensures SomeEntersOn(w, ev) ==> SomeDoubled(Step(w, ev))
  {
    hide Step, Enabled, Good, Doubled, EntersOn;
    forall a, b | Doubled(Step(w, ev), a, b) ensures Doubled(w, a, b) || EntersOn(w, ev, b) || EntersOn(w, ev, a) {
      DoublesOnEntry(w, ev, a, b);
    }
    forall b | EntersOn(w, ev, b) ensures SomeDoubled(Step(w, ev)) {
      EntryDoubles(w, ev, b);
    }
  }

  lemma StepClashes(w: World, ev: Event)
    requires Good(w) && Enabled(w, ev)
    ensures SomeClash(Step(w, ev)) ==> SomeClash(w) || SomeEntersAgainst(w, ev)
    ensures SomeEntersAgainst(w, ev) ==> SomeClash(Step(w, ev))
  {
    hide Step, Enabled, Good, Clash, EntersAgainst;
    forall a, b | Clash(Step(w, ev), a, b) ensures Clash(w, a, b) || EntersAgainst(w, ev, b) || EntersAgainst(w, ev, a) {
      ClashesOnEntry(w, ev, a, b);
    }
    forall b | EntersAgainst(w, ev, b) ensures SomeClash(Step(w, ev)) {
      EntryClashes(w, ev, b);
    }
  }

  lemma NothingStarted()
    ensures !SomeDoubled(Run([])) && !SomeClash(Run([])) && forall b :: !Orphan(Run([]), b)
  {}

  /** Over every run, two engines start on one node if and only if a worker enters on a node of an engine that is still
      starting and whose worker is no longer inside. */
  lemma {:induction false} DoubledIff(es: seq<Event>)
    requires Feasible(es)
    ensures EverWorld(es, SomeDoubled) <==> EverStep(es, SomeEntersOn)
    decreases |es|
  {
    hide Step, Enabled, Good, SomeDoubled, SomeEntersOn;
    if es == [] {
      NothingStarted();
    } else {
      var before, ev := es[..|es| - 1], es[|es| - 1];
      DoubledIff(before);
      AlwaysGood(before);
      StepDoubles(Run(before), ev);
    }
  }

  /** Over every run, two engines that clash are there together if and only if a worker enters against one that is there. */
  lemma {:induction false} ClashIff(es: seq<Event>)
    requires Feasible(es)
    ensures EverWorld(es, SomeClash) <==> EverStep(es, SomeEntersAgainst)
    decreases |es|
  {
    hide Step, Enabled, Good, SomeClash, SomeEntersAgainst;
    if es == [] {
      NothingStarted();
    } else {
      var before, ev := es[..|es| - 1], es[|es| - 1];
      ClashIff(before);
      AlwaysGood(before);
      StepClashes(Run(before), ev);
    }
  }

  /** A run that never orphans an engine never has an orphan, so it never starts two engines on one node. */
  lemma {:induction false} UnorphanedIsExclusive(es: seq<Event>)
    requires Feasible(es) && !EverStep(es, SomeOrphaned)
    ensures (forall b :: !Orphan(Run(es), b)) && !EverWorld(es, SomeDoubled)
    decreases |es|
  {
    hide Step, Enabled, Good, Orphan, Orphaned, Doubled;
    if es == [] {
      NothingStarted();
    } else {
      var before, ev := es[..|es| - 1], es[|es| - 1];
      UnorphanedIsExclusive(before);
      AlwaysGood(before);
      forall b ensures !Orphan(Run(es), b) {
        OrphanedIff(Run(before), ev, b);
      }
      StepDoubles(Run(before), ev);
      forall b ensures !EntersOn(Run(before), ev, b) {
      }
    }
  }

  // ----- runs that double

  lemma Extended(es: seq<Event>, ev: Event)
    requires Feasible(es) && Enabled(Run(es), ev)
    ensures Feasible(es + [ev]) && Run(es + [ev]) == Step(Run(es), ev)
  {
    hide Enabled, Step;
    assert (es + [ev])[..|es|] == es;
  }

  /** A launch of a model under its own name on the one node. */
  function LaunchOn(id: string, model: string, now: real): Event {
    Control(Manager.Launch(id, model, model, {"node"}, 8000, {}, now), 1800.0)
  }

  const PORT: int := Manager.PortChoice({}, {}, 8000)

  function Fresh(model: string, port: int): Rec { Rec(model, model, {"node"}, port, Launching, None, None) }

  const WAITING: StartGate.Worker := StartGate.Worker({"node"}, 1800.0, StartGate.Waiting)

  /** A first launch, its worker let in. */
  function Opening(): seq<Event> {
    [Control(Manager.Restart(0.0), 0.0), LaunchOn("a", "a", 0.0), Look("a", 0.0)]
  }

  function Opened(): World {
    World(Manager.Sys(map["a" := Fresh("a", PORT)], map["a" := File(Fresh("a", PORT), 0.0)], map[], {"a"}, {"a"}, true),
          StartGate.Gate({"node"}, map["a" := WAITING.(phase := StartGate.Inside)]), map["a" := Engine(Fresh("a", PORT), true)])
  }

  lemma OpeningRuns()
    ensures Feasible(Opening()) && Run(Opening()) == Opened()
  {
    var e1 := [] + [Control(Manager.Restart(0.0), 0.0)];
    var e2 := e1 + [LaunchOn("a", "a", 0.0)];
    assert e2 + [Look("a", 0.0)] == Opening();
    assert Feasible([]) && Run([]) == START;
    hide PORT, Run, Feasible, Enabled, Step, Opening, Opened, LaunchOn;
    FirstStart();
    Extended([], Control(Manager.Restart(0.0), 0.0));
    FirstLaunch(Run(e1));
    Extended(e1, LaunchOn("a", "a", 0.0));
    FirstLook(Run(e2));
    Extended(e2, Look("a", 0.0));
  }

  lemma FirstStart()
    ensures Enabled(START, Control(Manager.Restart(0.0), 0.0))
    ensures Step(START, Control(Manager.Restart(0.0), 0.0))
      == World(Manager.Sys(map[], map[], map[], {}, {}, true), StartGate.OPEN, map[])
  {
    hide Purged;
    PurgedLive(map[], 0.0);
  }

  lemma FirstLaunch(w: World)
    requires w == World(Manager.Sys(map[], map[], map[], {}, {}, true), StartGate.OPEN, map[])
    ensures Enabled(w, LaunchOn("a", "a", 0.0))
    ensures Step(w, LaunchOn("a", "a", 0.0)) == World(Opened().sys, StartGate.Gate({}, map["a" := WAITING]), map[])
  {
    hide Manager.PortChoice;
    assert Manager.TakenPorts(w.sys.records) == {};
  }

  lemma FirstLook(w: World)
    requires w == World(Opened().sys, StartGate.Gate({}, map["a" := WAITING]), map[])
    ensures Enabled(w, Look("a", 0.0)) && Step(w, Look("a", 0.0)) == Opened()
  {
    hide PORT;
  }

  /** No live record is purged. */
  lemma PurgedLive(files: Files, now: real)
    requires forall id | id in files :: files[id].rec.Live()
    ensures Purged(files, now) == files
  {
    hide Purged;
    Manager.PurgeDropsFinishedOnly(files, now);
  }

  /** The gate is free, `b` is launched on the node and waits, and the engine of `a` is still starting there. */
  ghost predicate Poised(w: World, model: string) {
    && w.sys.up && w.gate.starting == {} && "b" in w.gate.workers && w.gate.workers["b"] == WAITING
    && "b" in w.sys.records && w.sys.records["b"].nodes == {"node"} && w.sys.records["b"].servedName == model
    && Orphan(w, "a") && w.engines["a"].rec.nodes == {"node"} && w.engines["a"].rec.servedName == "a"
  }

  lemma PoisedDoubles(es: seq<Event>, model: string)
    requires Feasible(es) && Poised(Run(es), model)
    ensures var run := es + [Look("b", 2.0)];
      && Feasible(run) && EntersOn(Run(es), Look("b", 2.0), "a") && Doubled(Run(run), "b", "a")
      && (model == "a" ==> Clash(Run(run), "b", "a"))
  {
    var w, ev := Run(es), Look("b", 2.0);
    assert "node" in w.engines["a"].rec.nodes;
    assert EntersOn(w, ev, "a") && (model == "a" ==> EntersAgainst(w, ev, "a"));
    hide Step, Enabled, EntersOn, EntersAgainst, Doubled, Clash, Run, Feasible, Enters;
    Extended(es, ev);
    AlwaysGood(es);
    EntryDoubles(w, ev, "a");
    if model == "a" {
      EntryClashes(w, ev, "a");
    }
  }

  // A restart: the worker inside is gone, the record is adopted launching, and another model is launched on its node.

  function AfterRestart(): seq<Event> {
    Opening() + [Control(Manager.Crash, 0.0), Control(Manager.Restart(1.0), 0.0),
                 Control(Manager.Rehydrate("a", Manager.Silent, None, 1.0), 0.0), LaunchOn("b", "b", 2.0)]
  }

  lemma RestartDoubles()
    ensures Feasible(AfterRestart()) && AdoptedLaunching(Run(AfterRestart()), "a")
    ensures var run := AfterRestart() + [Look("b", 2.0)];
      Feasible(run) && EntersOn(Run(AfterRestart()), Look("b", 2.0), "a") && Doubled(Run(run), "b", "a")
  {
    hide AfterRestart, Run, Feasible;
    Restarted();
    PoisedDoubles(AfterRestart(), "b");
  }

  lemma Restarted()
    ensures Feasible(AfterRestart()) && Poised(Run(AfterRestart()), "b") && AdoptedLaunching(Run(AfterRestart()), "a")
  {
    OpeningRuns();
    var e0 := Opening();
    var e1 := e0 + [Control(Manager.Crash, 0.0)];
    var e2 := e1 + [Control(Manager.Restart(1.0), 0.0)];
    var e3 := e2 + [Control(Manager.Rehydrate("a", Manager.Silent, None, 1.0), 0.0)];
    assert e3 + [LaunchOn("b", "b", 2.0)] == AfterRestart();
    hide Run, Feasible, Enabled, Step, Opening, AfterRestart, LaunchOn, Opened, Poised, AdoptedLaunching;
    Crashes(Opened());
    Extended(e0, Control(Manager.Crash, 0.0));
    Reads(Run(e1));
    Extended(e1, Control(Manager.Restart(1.0), 0.0));
    Adopts(Run(e2));
    Extended(e2, Control(Manager.Rehydrate("a", Manager.Silent, None, 1.0), 0.0));
    Relaunches(Run(e3));
    Extended(e3, LaunchOn("b", "b", 2.0));
  }

  /** The world with the manager in a given state, nothing at the gate, and the first engine starting. */
  function Emptied(records: map<string, Rec>, now: real, unread: map<string, Rec>, up: bool): World {
    World(Manager.Sys(records, map["a" := File(Fresh("a", PORT), now)], unread, {"a"}, {}, up), StartGate.OPEN, Opened().engines)
  }

  lemma Crashes(w: World)
    requires w == Opened()
    ensures Enabled(w, Control(Manager.Crash, 0.0)) && Step(w, Control(Manager.Crash, 0.0)) == Emptied(map[], 0.0, map[], false)
  {
    hide PORT;
  }

  lemma Reads(w: World)
    requires w == Emptied(map[], 0.0, map[], false)
    ensures Enabled(w, Control(Manager.Restart(1.0), 0.0))
    ensures Step(w, Control(Manager.Restart(1.0), 0.0)) == Emptied(map[], 0.0, map["a" := Fresh("a", PORT)], true)
  {
    hide PORT, Purged;
    PurgedLive(w.sys.disk, 1.0);
    assert Manager.Recs(w.sys.disk) == map["a" := Fresh("a", PORT)];
  }

  lemma Adopts(w: World)
    requires w == Emptied(map[], 0.0, map["a" := Fresh("a", PORT)], true)
    ensures var ev := Control(Manager.Rehydrate("a", Manager.Silent, None, 1.0), 0.0);
      Enabled(w, ev) && Step(w, ev) == Emptied(map["a" := Fresh("a", PORT)], 1.0, map[], true)
  {
    hide PORT;
    assert map["a" := Fresh("a", PORT)] - {"a"} == map[];
  }

  lemma Relaunches(w: World)
    requires w == Emptied(map["a" := Fresh("a", PORT)], 1.0, map[], true)
    ensures Enabled(w, LaunchOn("b", "b", 2.0))
    ensures Poised(Step(w, LaunchOn("b", "b", 2.0)), "b") && AdoptedLaunching(Step(w, LaunchOn("b", "b", 2.0)), "a")
  {
    hide PORT;
    SecondLaunch(w, Fresh("a", PORT), "b");
    hide Step, Enabled;
  }

  lemma SecondLaunch(w: World, r: Rec, model: string)
    requires w.sys.up && w.sys.unread == map[] && w.sys.records == map["a" := r] && "b" !in w.sys.used
    requires r.Live() ==> r.servedName != model && r.modelId != model
    requires "b" !in w.gate.workers && w.gate.starting == {} && Orphan(w, "a")
    requires w.engines["a"].rec.nodes == {"node"} && w.engines["a"].rec.servedName == "a"
    ensures Enabled(w, LaunchOn("b", model, 2.0))
    ensures var t := Step(w, LaunchOn("b", model, 2.0));
      Poised(t, model) && "a" in t.sys.records && t.sys.records["a"] == r && ("a" in t.gate.workers <==> "a" in w.gate.workers)
  {
    hide Manager.PortChoice;
    assert "a" != "b";
    assert Manager.ConflictOf(w.sys.records, model, model, {"node"}) == Manager.NoClash;
  }

  // A stop while launching, before there is a cluster id: nothing is torn down, the record fails, the launcher returns and
  // its handle is kept, and the worker leaves because the record is no longer launching. No crash, nothing adopted.

  function AfterStop(): seq<Event> {
    Opening() + [Control(Manager.StopBegin("a", 1.0), 0.0), Control(Manager.StopLaunching("a", 1.0), 0.0),
                 Control(Manager.Launched("a", Some("cluster"), Some("url"), 1.0), 0.0), Leave("a"), LaunchOn("b", "a", 2.0)]
  }

  /** The same model launched again on the node: two engines starting on it, with one name and one model. */
  lemma StopDoubles()
    ensures Feasible(AfterStop()) && Manager.Status(Run(AfterStop()).sys, "a") == Some(Failed)
    ensures var run := AfterStop() + [Look("b", 2.0)];
      && Feasible(run) && EntersOn(Run(AfterStop()), Look("b", 2.0), "a")
      && Doubled(Run(run), "b", "a") && Clash(Run(run), "b", "a")
  {
    hide AfterStop, Run, Feasible;
    Stopped();
    PoisedDoubles(AfterStop(), "a");
  }

  lemma Stopped()
    ensures Feasible(AfterStop()) && Poised(Run(AfterStop()), "a")
    ensures Manager.Status(Run(AfterStop()).sys, "a") == Some(Failed)
  {
    OpeningRuns();
    var begin, fail := Control(Manager.StopBegin("a", 1.0), 0.0), Control(Manager.StopLaunching("a", 1.0), 0.0);
    var returned := Control(Manager.Launched("a", Some("cluster"), Some("url"), 1.0), 0.0);
    var e0 := Opening();
    var e1 := e0 + [begin];
    var e2 := e1 + [fail];
    var e3 := e2 + [returned];
    var e4 := e3 + [Leave("a")];
    assert e4 + [LaunchOn("b", "a", 2.0)] == AfterStop();
    hide Run, Feasible, Enabled, Step, Opening, AfterStop, LaunchOn, Opened, Poised, StoppedWith, Orphan;
    Begins(Opened());
    Extended(e0, begin);
    StopFails(Run(e1));
    Extended(e1, fail);
    Returns(Run(e2));
    Extended(e2, returned);
    Leaves(Run(e3));
    Extended(e3, Leave("a"));
    LaunchedAgain(Run(e4));
    Extended(e4, LaunchOn("b", "a", 2.0));
  }

  lemma Begins(w: World)
    requires w == Opened()
    ensures var ev := Control(Manager.StopBegin("a", 1.0), 0.0); Enabled(w, ev) && Step(w, ev) == w
  {
    hide PORT;
  }

  /** What is so from the stop on. */
  ghost predicate StoppedWith(w: World, url: Option<string>, workers: set<string>) {
    && w.sys.up && w.sys.unread == map[] && w.sys.used == {"a"} && w.sys.workers == workers && w.engines == Opened().engines
    && w.sys.records.Keys == {"a"} && w.sys.records["a"].state == Failed && w.sys.records["a"].url == url
  }

  lemma StopFails(w: World)
    requires w == Opened()
    ensures var ev := Control(Manager.StopLaunching("a", 1.0), 0.0);
      Enabled(w, ev) && StoppedWith(Step(w, ev), None, {"a"}) && Step(w, ev).gate == Opened().gate
  {
    hide PORT, Swept;
  }

  lemma Returns(w: World)
    requires StoppedWith(w, None, {"a"}) && w.gate == Opened().gate
    ensures var ev := Control(Manager.Launched("a", Some("cluster"), Some("url"), 1.0), 0.0);
      Enabled(w, ev) && StoppedWith(Step(w, ev), Some("url"), {}) && Step(w, ev).gate == Opened().gate
  {
    hide PORT;
  }

  lemma Leaves(w: World)
    requires StoppedWith(w, Some("url"), {}) && w.gate == Opened().gate
    ensures Enabled(w, Leave("a"))
    ensures var t := Step(w, Leave("a"));
      && t.gate.starting == {} && "b" !in t.gate.workers && Orphan(t, "a") && t.engines == Opened().engines
      && StoppedWith(t, Some("url"), {})
  {
    hide PORT;
  }

  lemma LaunchedAgain(w: World)
    requires w.gate.starting == {} && "b" !in w.gate.workers && Orphan(w, "a") && w.engines == Opened().engines
    requires StoppedWith(w, Some("url"), {})
    ensures Enabled(w, LaunchOn("b", "a", 2.0)) && Poised(Step(w, LaunchOn("b", "a", 2.0)), "a")
    ensures Manager.Status(Step(w, LaunchOn("b", "a", 2.0)).sys, "a") == Some(Failed)
  {
    hide PORT;
    assert w.sys.records == map["a" := w.sys.records["a"]];
    SecondLaunch(w, w.sys.records["a"], "a");
    hide Step, Enabled, Poised;
  }
}
