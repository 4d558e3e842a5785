/** One engine start at a time per node: launch workers take all of a plan's nodes or none, wait with a deadline, and give
    them back when their launch settles. */
module StartGate {

  datatype Phase = Waiting | Inside | TimedOut | Done

  datatype Worker = Worker(nodes: set<string>, deadline: real, phase: Phase)

  datatype Gate = Gate(starting: set<string>, workers: map<string, Worker>)

  /** A launch worker reaches the gate, looks at it once under the lock, or leaves it. */
  datatype Event =
    | Arrive(id: string, nodes: set<string>, deadline: real)
    | Look(id: string, now: real)
    | Leave(id: string)

  predicate Enabled(g: Gate, e: Event) {
    match e
    case Arrive(id, _, _) => id !in g.workers
    case Look(id, _) => id in g.workers && g.workers[id].phase == Waiting
    case Leave(id) => id in g.workers && g.workers[id].phase == Inside
  }

  function Moved(g: Gate, id: string, phase: Phase): map<string, Worker>
    requires id in g.workers
  {
    g.workers[id := g.workers[id].(phase := phase)]
  }

  /** A free gate is entered even past the deadline: the clock is read only when blocked. */
  function Step(g: Gate, e: Event): Gate
    requires Enabled(g, e)
  {
    match e
    case Arrive(id, nodes, deadline) => g.(workers := g.workers[id := Worker(nodes, deadline, Waiting)])
    case Look(id, now) =>
      var w := g.workers[id];
      if w.nodes !! g.starting then Gate(g.starting + w.nodes, Moved(g, id, Inside))
      else if w.deadline <= now then g.(workers := Moved(g, id, TimedOut))
      else g
    case Leave(id) => Gate(g.starting - g.workers[id].nodes, Moved(g, id, Done))
  }

  predicate IsInside(g: Gate, id: string) {
    id in g.workers && g.workers[id].phase == Inside
  }

  /** What is held is exactly what the workers inside hold, and no two of them hold the same node. */
  ghost predicate Exclusive(g: Gate) {
    && (forall a, b | IsInside(g, a) && IsInside(g, b) && a != b :: g.workers[a].nodes !! g.workers[b].nodes)
    && (forall n :: n in g.starting <==> exists a :: IsInside(g, a) && n in g.workers[a].nodes)
  }

  lemma StepExclusive(g: Gate, e: Event)
    requires Exclusive(g) && Enabled(g, e)
    ensures Exclusive(Step(g, e))
  {
    var after := Step(g, e);
    assert forall a :: a != e.id ==> (IsInside(after, a) <==> IsInside(g, a));
    match e
    case Arrive(id, _, _) => SameInside(g, after);
    case Look(id, now) =>
      if g.workers[id].nodes !! g.starting {
        EnterExclusive(g, id, after);
      } else {
        SameInside(g, after);
      }
    case Leave(id) => LeaveExclusive(g, id, after);
  }

  lemma SameInside(g: Gate, after: Gate)
    requires Exclusive(g) && after.starting == g.starting
    requires forall a :: IsInside(after, a) <==> IsInside(g, a)
    requires forall a | IsInside(g, a) :: a in after.workers && after.workers[a].nodes == g.workers[a].nodes
    ensures Exclusive(after)
  {
    forall n ensures n in after.starting <==> exists a :: IsInside(after, a) && n in after.workers[a].nodes {
      if n in g.starting {
        var a :| IsInside(g, a) && n in g.workers[a].nodes;
        assert IsInside(after, a);
      }
    }
  }

  lemma EnterExclusive(g: Gate, id: string, after: Gate)
    requires Exclusive(g) && id in g.workers && g.workers[id].phase == Waiting && g.workers[id].nodes !! g.starting
    requires after == Gate(g.starting + g.workers[id].nodes, Moved(g, id, Inside))
    ensures Exclusive(after)
  {
    assert forall a :: IsInside(after, a) <==> a == id || IsInside(g, a);
    forall a | IsInside(g, a) ensures g.workers[a].nodes !! g.workers[id].nodes {
      assert forall n :: n in g.workers[a].nodes ==> n in g.starting;
    }
    forall n ensures n in after.starting <==> exists a :: IsInside(after, a) && n in after.workers[a].nodes {
      if n in g.workers[id].nodes {
        assert IsInside(after, id);
      } else if n in g.starting {
        var a :| IsInside(g, a) && n in g.workers[a].nodes;
        assert IsInside(after, a);
      }
    }
  }

  lemma LeaveExclusive(g: Gate, id: string, after: Gate)
    requires Exclusive(g) && IsInside(g, id)
    requires after == Gate(g.starting - g.workers[id].nodes, Moved(g, id, Done))
    ensures Exclusive(after)
  {
    assert forall a :: IsInside(after, a) <==> a != id && IsInside(g, a);
    forall n ensures n in after.starting <==> exists a :: IsInside(after, a) && n in after.workers[a].nodes {
      if n in after.starting {
        var a :| IsInside(g, a) && n in g.workers[a].nodes;
        assert IsInside(after, a);
      }
    }
  }

  // ----- every interleaving

  const OPEN: Gate := Gate({}, map[])

  ghost predicate Feasible(es: seq<Event>)
    decreases |es|, 0
  {
    es == [] || (Feasible(es[..|es| - 1]) && Enabled(Run(es[..|es| - 1]), es[|es| - 1]))
  }

  ghost function Run(es: seq<Event>): Gate
    requires Feasible(es)
    decreases |es|, 1
  {
    if es == [] then OPEN else Step(Run(es[..|es| - 1]), es[|es| - 1])
  }

  /** In every interleaving of arrivals, looks, timeouts and releases the gate is exclusive and leaks nothing: a node is
      held exactly when a worker inside holds it. */
  lemma {:induction false} AlwaysExclusive(es: seq<Event>)
    requires Feasible(es)
    ensures Exclusive(Run(es))
    decreases |es|
  {
    if es != [] {
      AlwaysExclusive(es[..|es| - 1]);
      hide Step, Enabled, Exclusive;
      StepExclusive(Run(es[..|es| - 1]), es[|es| - 1]);
    }
  }

  /** A worker that timed out took nothing on its way out, and nothing it can still do is left. */
  lemma TimedOutHoldsNothing(g: Gate, id: string, now: real)
    requires Exclusive(g) && Enabled(g, Look(id, now)) && Step(g, Look(id, now)).workers[id].phase == TimedOut
    ensures Step(g, Look(id, now)).starting == g.starting && g.workers[id].deadline <= now
    ensures !Enabled(Step(g, Look(id, now)), Leave(id)) && !Enabled(Step(g, Look(id, now)), Look(id, now))
    ensures exists other :: IsInside(g, other) && !(g.workers[other].nodes !! g.workers[id].nodes)
  {
    BlockedByInside(g, id);
  }

  /** One look decides: a worker whose nodes are free enters whatever the time; a blocked one waits on before its deadline and
      gives up at it. */
  lemma LookDecides(g: Gate, id: string, now: real)
    requires Exclusive(g) && Enabled(g, Look(id, now))
    ensures var free := forall other | IsInside(g, other) :: g.workers[other].nodes !! g.workers[id].nodes;
      var after := Step(g, Look(id, now));
      id in after.workers && after.workers[id].phase == if free then Inside else if now < g.workers[id].deadline then Waiting else TimedOut
  {
    if g.workers[id].nodes !! g.starting {
      forall other | IsInside(g, other) ensures g.workers[other].nodes !! g.workers[id].nodes {
        assert forall n :: n in g.workers[other].nodes ==> n in g.starting;
      }
    } else {
      BlockedByInside(g, id);
    }
  }

  /** A worker that cannot enter overlaps one that is inside, and so can leave: nobody waits on a waiter. */
  lemma BlockedByInside(g: Gate, id: string)
    requires Exclusive(g) && id in g.workers && g.workers[id].phase == Waiting && !(g.workers[id].nodes !! g.starting)
    ensures exists other :: IsInside(g, other) && !(g.workers[other].nodes !! g.workers[id].nodes) && Enabled(g, Leave(other))
  {
    var n :| n in g.workers[id].nodes && n in g.starting;
    var other :| IsInside(g, other) && n in g.workers[other].nodes;
    assert Enabled(g, Leave(other));
  }

  ghost predicate FeasibleFrom(g: Gate, es: seq<Event>)
    decreases |es|
  {
    es == [] || (Enabled(g, es[0]) && FeasibleFrom(Step(g, es[0]), es[1..]))
  }

  ghost function RunFrom(g: Gate, es: seq<Event>): Gate
    requires FeasibleFrom(g, es)
    decreases |es|
  {
    if es == [] then g else RunFrom(Step(g, es[0]), es[1..])
  }

  function InsideIds(g: Gate): set<string> {
    set id | id in g.workers && g.workers[id].phase == Inside
  }

  /** No deadlock: from any reachable state, once the workers inside leave, whoever waits gets in. */
  lemma {:induction false} WaiterGetsIn(g: Gate, id: string, now: real) returns (es: seq<Event>)
    requires Exclusive(g) && id in g.workers && g.workers[id].phase == Waiting
    ensures FeasibleFrom(g, es) && forall i :: 0 <= i < |es| ==> es[i].Leave?
    ensures id in RunFrom(g, es).workers && Enabled(RunFrom(g, es), Look(id, now))
    ensures IsInside(Step(RunFrom(g, es), Look(id, now)), id)
    decreases InsideIds(g)
  {
    if g.workers[id].nodes !! g.starting {
      es := [];
    } else {
      BlockedByInside(g, id);
      var other :| IsInside(g, other) && Enabled(g, Leave(other));
      var next := Step(g, Leave(other));
      StepExclusive(g, Leave(other));
      assert other in InsideIds(g) - InsideIds(next);
      assert InsideIds(next) <= InsideIds(g);
      var rest := WaiterGetsIn(next, id, now);
      es := [Leave(other)] + rest;
      assert es[1..] == rest;
    }
  }

  // ----- the gate in the manager

  datatype Answer = Entered | MustWait | GaveUp

  class Starting {
    var starting: set<string>
    ghost var workers: map<string, Worker>

    constructor ()
      ensures Now() == OPEN
    {
      starting, workers := {}, map[];
    }

    ghost function Now(): Gate
      reads this
    {
      Gate(starting, workers)
    }

    ghost method Reach(id: string, nodes: set<string>, deadline: real)
      requires Enabled(Now(), Arrive(id, nodes, deadline))
      modifies this`workers
      ensures Now() == Step(old(Now()), Arrive(id, nodes, deadline))
    {
      workers := workers[id := Worker(nodes, deadline, Waiting)];
    }

    /** One pass of the waiting loop, under the lock: all of the nodes or none. */
    method TryHold(ghost id: string, nodes: set<string>, deadline: real, now: real) returns (look: Answer)
      requires Enabled(Now(), Look(id, now)) && workers[id] == Worker(nodes, deadline, Waiting)
      modifies this
      ensures Now() == Step(old(Now()), Look(id, now))
      ensures look == Entered <==> nodes !! old(starting)
      ensures look == GaveUp <==> !(nodes !! old(starting)) && deadline <= now
      ensures id in workers && workers[id].phase == match look case Entered => Inside case GaveUp => TimedOut case MustWait => Waiting
    {
      if !(nodes !! starting) {
        if deadline <= now {
          workers := workers[id := workers[id].(phase := TimedOut)];
          return GaveUp;
        }
        return MustWait;
      }
      starting := starting + nodes;
      workers := workers[id := workers[id].(phase := Inside)];
      return Entered;
    }

    method Release(ghost id: string, nodes: set<string>)
      requires Enabled(Now(), Leave(id)) && workers[id].nodes == nodes
      modifies this
      ensures Now() == Step(old(Now()), Leave(id))
    {
      starting := starting - nodes;
      workers := workers[id := workers[id].(phase := Done)];
    }
  }
}
