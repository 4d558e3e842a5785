/** What becomes of one deployment over a run, told from its recorded state alone: a launch that answers serves, a stop ends
    it and frees what it held, and a restart brings it back as it was found. */
module Lifecycles {
  import opened Contracts
  import opened Fsm
  import opened Store
  import opened Manager

  // ----- one step

  /** Every transition a deployment can be asked for, from every state it can be in. */
  lemma Outcomes(s: Sys, e: Event)
    requires Good(s) && Enabled(s, e) && IsTransition(e)
    ensures Step(s, e).records == s.records[e.id := s.records[e.id].(state := Step(s, e).records[e.id].state)]
    ensures var before, after := s.records[e.id].state, Status(Step(s, e), e.id);
      && (e.Answered? ==> after == Some(if before in {Launching, Degraded} then Ready else before))
      && (e.LaunchFailed? ==> after == Some(if before in {Launching, Ready, Degraded} then Failed else before))
      && (e.StopBegin? ==> after == Some(if before in {Ready, Degraded} then Stopping else before))
      && (e.StopLaunching? ==> after == Some(if before == Launching then Failed else before))
      && (e.StopEnd? ==> after == Some(if before == Stopping then Stopped else before))
      && (e.Lost? ==> after == Some(if before in {Launching, Ready, Degraded} then Failed else before))
      && (e.Settle? ==> after == Some(if before == Ready && e.pressured then Degraded
                                      else if before == Degraded && !e.pressured then Ready else before))
    ensures var before := s.records[e.id].state;
      Raises(s, e) <==>
        || (e.Answered? && before in {Stopping, Stopped, Failed})
        || (e.StopEnd? && before !in {Stopping, Stopped})
        || (e.Lost? && before in {Stopping, Stopped})
  {
    hide Good, Transition, Step, Target, Raises, Legal;
    OnRecord(s, e.id);
    Moved(s, e);
    TargetIs(e, s.records[e.id].state);
    RaisesIs(s, e);
  }

  lemma Moved(s: Sys, e: Event)
    requires Enabled(s, e) && IsTransition(e)
    ensures var before, target := s.records[e.id].state, Target(e, s.records[e.id].state);
      Step(s, e).records
      == s.records[e.id := s.records[e.id].(state := if target.Some? && Allowed(before, target.value) then target.value else before)]
  {
    StepMoves(s, e);
    hide Transition, Step, Target, Legal;
    var target := Target(e, s.records[e.id].state);
    if target.Some? {
      MovedOnly(s, e.id, target.value, e.now);
    }
  }

  /** Where an event leads from a state that is on record, and where it leads nowhere. */
  lemma TargetIs(e: Event, before: State)
    requires IsTransition(e) && before != Planned
    ensures var target := Target(e, before);
      var after := if target.Some? && Allowed(before, target.value) then target.value else before;
      && (e.Answered? ==> after == if before in {Launching, Degraded} then Ready else before)
      && (e.LaunchFailed? ==> after == if before in {Launching, Ready, Degraded} then Failed else before)
      && (e.StopBegin? ==> after == if before in {Ready, Degraded} then Stopping else before)
      && (e.StopLaunching? ==> after == if before == Launching then Failed else before)
      && (e.StopEnd? ==> after == if before == Stopping then Stopped else before)
      && (e.Lost? ==> after == if before in {Launching, Ready, Degraded} then Failed else before)
      && (e.Settle? ==> after == if before == Ready && e.pressured then Degraded
                                 else if before == Degraded && !e.pressured then Ready else before)
    ensures (Target(e, before).Some? && !Allowed(before, Target(e, before).value)) <==>
      || (e.Answered? && before in {Stopping, Stopped, Failed})
      || (e.StopEnd? && before !in {Stopping, Stopped})
      || (e.Lost? && before in {Stopping, Stopped})
  {}

  lemma RaisesIs(s: Sys, e: Event)
    requires Enabled(s, e) && IsTransition(e)
    ensures var target := Target(e, s.records[e.id].state);
      Raises(s, e) <==> target.Some? && !Allowed(s.records[e.id].state, target.value)
  {
    hide Target, Legal;
  }

  lemma OnRecord(s: Sys, id: string)
    requires Good(s) && id in s.records
    ensures s.records[id].state != Planned && id in s.used && id !in s.unread
    ensures s.records[id].Live() ==> id in s.disk && s.disk[id].rec == s.records[id]
  {
    hide Clashfree;
    assert Mirrored(s.disk, id, s.records[id]);
  }

  lemma StepMoves(s: Sys, e: Event)
    requires Enabled(s, e) && IsTransition(e)
    ensures var target := Target(e, s.records[e.id].state);
      Step(s, e) == if target.None? then s else Transition(s, e.id, target.value, e.now)
  {
    hide Transition;
  }

  lemma MovedOnly(s: Sys, id: string, target: State, now: real)
    requires id in s.records
    ensures var t := Transition(s, id, target, now);
      && t.records == s.records[id := s.records[id].(state := if Allowed(s.records[id].state, target) then target
                                                              else s.records[id].state)]
      && t.unread == s.unread && t.used == s.used && t.up == s.up && t.workers == s.workers
  {
    hide Swept;
  }

  /** A launch is recorded exactly when no live deployment has its name, nor its model on one of its nodes; then its record is
      launching, with what was asked for, and nothing else moves. */
  lemma LaunchIff(s: Sys, e: Event)
    requires Good(s) && Enabled(s, e) && e.Launch?
    ensures var t := Step(s, e);
      if forall id | id in s.records && s.records[id].Live() ::
        s.records[id].servedName != e.servedName && (s.records[id].modelId != e.modelId || s.records[id].nodes !! e.nodes)
      then
        && e.id in t.records && t.records == s.records[e.id := t.records[e.id]]
        && t.records[e.id] == Rec(e.servedName, e.modelId, e.nodes, t.records[e.id].port, Launching, None, None)
      else t == s
  {
    hide PortChoice, Good;
    if id :| id in s.records && HoldsModel(s.records[id], e.modelId, e.nodes) {
    } else if id :| id in s.records && HoldsName(s.records[id], e.servedName) {
    }
  }

  /** The port is the least from the base on that no live deployment has and the machine says is free, if there is one in the
      two hundred past the first untaken; failing that, the first untaken. */
  lemma PortIs(taken: set<int>, free: set<int>, base: int) returns (first: int)
    ensures base <= first && first !in taken && forall q :: base <= q < first ==> q in taken
    ensures var r := PortChoice(taken, free, base);
      if exists p :: first <= p < first + 200 && p !in taken && p in free
      then first <= r < first + 200 && r !in taken && r in free && forall q :: first <= q < r ==> q in taken || q !in free
      else r == first
  {
    first := FirstUntaken(taken, base);
    FirstFreeIs(taken, free, first, first + 200, first);
  }

  lemma {:induction false} FirstFreeIs(taken: set<int>, free: set<int>, p: int, end: int, fallback: int)
    ensures var r := FirstFree(taken, free, p, end, fallback);
      if exists q :: p <= q < end && q !in taken && q in free
      then p <= r < end && r !in taken && r in free && forall q :: p <= q < r ==> q in taken || q !in free
      else r == fallback
    decreases end - p
  {
    if p < end && !(p !in taken && p in free) {
      FirstFreeIs(taken, free, p + 1, end, fallback);
    }
  }

  /** A finished deployment holds nothing: what it had can be launched again at once, on the same port. */
  lemma Freed(s: Sys, id: string, rec: Rec, t: Sys, e: Event)
    requires Good(s) && id in s.records && s.records[id].Live() && SameIdentity(rec, s.records[id]) && !rec.Live()
    requires t.records == s.records[id := rec]
    requires e.Launch? && e.servedName == rec.servedName && e.modelId == rec.modelId && e.nodes == rec.nodes
    requires e.base == rec.port && rec.port in e.free && Enabled(t, e)
    ensures e.id in Step(t, e).records
    ensures Step(t, e).records[e.id] == Rec(rec.servedName, rec.modelId, rec.nodes, rec.port, Launching, None, None)
  {
    RecordsClashfree(s);
    hide Good, Backed;
    forall a | a in t.records && t.records[a].Live() ensures Compatible(t.records[a], rec) {
      assert a != id;
      assert Compatible(s.records[a], s.records[id]);
    }
    PortFree(t.records, e, rec.port);
    NoneClashes(t.records, rec);
  }

  lemma NoneClashes(records: map<string, Rec>, rec: Rec)
    requires forall a | a in records && records[a].Live() :: Compatible(records[a], rec)
    ensures ConflictOf(records, rec.servedName, rec.modelId, rec.nodes) == NoClash
  {}

  lemma PortFree(records: map<string, Rec>, e: Event, port: int)
    requires e.Launch? && e.base == port && port in e.free
    requires forall a | a in records && records[a].Live() :: records[a].port != port
    ensures PortChoice(TakenPorts(records), e.free, port) == port
  {
    assert port !in TakenPorts(records);
    var first := PortIs(TakenPorts(records), e.free, port);
  }

  // ----- over runs

  /** The event is a crash, or acts on this deployment. */
  predicate Touches(e: Event, id: string) {
    e.Crash? || (!e.Restart? && e.id == id)
  }

  ghost predicate Untouched(es: seq<Event>, id: string) {
    forall i :: 0 <= i < |es| ==> !Touches(es[i], id)
  }

  lemma UntouchedStep(s: Sys, e: Event, id: string)
    requires Enabled(s, e) && s.up && id in s.records && !Touches(e, id)
    ensures var t := Step(s, e);
      && t.up && id in t.records && t.records[id] == s.records[id] && (id in t.workers <==> id in s.workers)
  {
    hide ConflictOf, PortChoice, Swept;
  }

  /** What no step acts on stays as it is. */
  lemma {:induction false} Undisturbed(es: seq<Event>, more: seq<Event>, id: string)
    requires Feasible(es + more) && Feasible(es) && Untouched(more, id) && Run(es).up && id in Run(es).records
    ensures var t := Run(es + more);
      && t.up && id in t.records && t.records[id] == Run(es).records[id] && (id in t.workers <==> id in Run(es).workers)
    decreases |more|
  {
    if more == [] {
      assert es + more == es;
    } else {
      var less, e := more[..|more| - 1], more[|more| - 1];
      assert (es + more)[..|es + more| - 1] == es + less && (es + more)[|es + more| - 1] == e;
      hide Step, Enabled;
      Undisturbed(es, less, id);
      UntouchedStep(Run(es + less), e, id);
    }
  }

  /** Feasible up to any point of a longer run. */
  lemma Front(es: seq<Event>, more: seq<Event>)
    requires Feasible(es + more)
    ensures Feasible(es)
  {
    FeasiblePrefix(es + more, |es|);
    assert (es + more)[..|es|] == es;
  }

  lemma Last(es: seq<Event>, e: Event)
    requires Feasible(es + [e])
    ensures Feasible(es) && Enabled(Run(es), e) && Run(es + [e]) == Step(Run(es), e) && Good(Run(es))
  {
    assert (es + [e])[..|es|] == es;
    hide Step, Enabled;
    NeverClashes(es);
  }

  lemma Next(es: seq<Event>, e: Event)
    requires Feasible(es) && Enabled(Run(es), e)
    ensures Feasible(es + [e]) && Run(es + [e]) == Step(Run(es), e) && Good(Run(es))
  {
    hide Step, Enabled;
    Extended(es, e);
    NeverClashes(es);
  }

  /** The two regions of a stop, with whatever else happens in between. */
  function WholeStop(es: seq<Event>, id: string, mid: seq<Event>, began: real, ended: real): seq<Event> {
    es + [StopBegin(id, began)] + mid + [StopEnd(id, ended)]
  }

  /** From every run in which a deployment is recorded stopping, its stop's last region does not raise and leaves it stopped. */
  lemma StopEndStops(es: seq<Event>, id: string, now: real)
    requires Feasible(es) && Run(es).up && id in Run(es).records && Run(es).records[id].state == State.Stopping
    ensures Enabled(Run(es), StopEnd(id, now)) && !Raises(Run(es), StopEnd(id, now))
    ensures Feasible(es + [StopEnd(id, now)]) && Status(Run(es + [StopEnd(id, now)]), id) == Some(State.Stopped)
    ensures Run(es + [StopEnd(id, now)]).records == Run(es).records[id := Run(es).records[id].(state := State.Stopped)]
  {
    Next(es, StopEnd(id, now));
    Outcomes(Run(es), StopEnd(id, now));
    hide Run, Step, Good, Raises;
  }

  /** A serving deployment whose stop runs both regions with no other step on it in between ends stopped, and what it had --
      name, model, nodes and port -- can be launched again. */
  lemma StopFrees(es: seq<Event>, id: string, mid: seq<Event>, began: real, ended: real)
    requires Feasible(es + [StopBegin(id, began)] + mid) && Untouched(mid, id)
    requires Feasible(es) && Run(es).up && id in Run(es).records && Serving(Run(es).records[id].state)
    ensures var whole := WholeStop(es, id, mid, began, ended);
      && Feasible(whole) && Status(Run(whole), id) == Some(State.Stopped)
      && (forall e | Relaunch(Run(whole), e, Run(es).records[id]) ::
            && e.id in Step(Run(whole), e).records
            && Step(Run(whole), e).records[e.id] == Run(es).records[id].(state := Launching, url := None, clusterId := None))
  {
    var rec := Run(es).records[id];
    var begun := es + [StopBegin(id, began)];
    Front(begun, mid);
    Last(es, StopBegin(id, began));
    Outcomes(Run(es), StopBegin(id, began));
    hide Step, Run, Good, Feasible;
    Undisturbed(begun, mid, id);
    StopEndStops(begun + mid, id, ended);
    var whole := WholeStop(es, id, mid, began, ended);
    assert Run(begun + mid).records[id] == rec.(state := State.Stopping);
    forall e | Relaunch(Run(whole), e, rec)
      ensures e.id in Step(Run(whole), e).records
      ensures Step(Run(whole), e).records[e.id] == rec.(state := Launching, url := None, clusterId := None)
    {
      NeverClashes(begun + mid);
      Freed(Run(begun + mid), id, rec.(state := State.Stopped), Run(whole), e);
    }
  }

  /** A launch of what this record had, its port free on the machine. */
  predicate Relaunch(s: Sys, e: Event, rec: Rec) {
    && e.Launch? && Enabled(s, e) && e.servedName == rec.servedName && e.modelId == rec.modelId && e.nodes == rec.nodes
    && e.base == rec.port && rec.port in e.free
  }

  /** A launch that was recorded, whose launcher returned a url and whose backend then answered, with no other step on it,
      serves: with the name, model, nodes and port it was launched with and the handle it came back with. */
  lemma LaunchServes(es: seq<Event>, e: Event, m1: seq<Event>, returned: Event, m2: seq<Event>, now: real)
    requires e.Launch? && Feasible(es) && Enabled(Run(es), e) && e.id in Step(Run(es), e).records
    requires Feasible(es + [e] + m1 + [returned] + m2) && Untouched(m1, e.id) && Untouched(m2, e.id)
    requires returned.Launched? && returned.id == e.id && returned.url.Some?
    ensures var begun := es + [e] + m1 + [returned] + m2;
      && Feasible(begun + [Answered(e.id, now)]) && e.id in Run(begun + [Answered(e.id, now)]).records
      && Run(begun + [Answered(e.id, now)]).records[e.id] == Rec(
           e.servedName, e.modelId, e.nodes, Step(Run(es), e).records[e.id].port, Ready, returned.url, returned.clusterId)
      && !Raises(Run(begun), Answered(e.id, now))
  {
    var launched := es + [e];
    var back := launched + m1 + [returned];
    hide Step, Run, Good, Feasible, Raises, Enabled, Untouched;
    Front(back, m2);
    Front(launched + m1, [returned]);
    Front(launched, m1);
    Last(es, e);
    Recorded(Run(es), e);
    Undisturbed(launched, m1, e.id);
    Last(launched + m1, returned);
    ReturnKeeps(Run(launched + m1), returned);
    Undisturbed(back, m2, e.id);
    Answerable(Run(back + m2), e.id, now);
    Next(back + m2, Answered(e.id, now));
    Outcomes(Run(back + m2), Answered(e.id, now));
  }

  lemma Recorded(s: Sys, e: Event)
    requires Good(s) && Enabled(s, e) && e.Launch? && e.id in Step(s, e).records
    ensures var t := Step(s, e);
      t.up && t.records[e.id] == Rec(e.servedName, e.modelId, e.nodes, t.records[e.id].port, Launching, None, None)
  {
    LaunchIff(s, e);
    IssuedFresh(s, e.id);
    hide PortChoice, Good, ConflictOf;
  }

  lemma Answerable(s: Sys, id: string, now: real)
    requires s.up && id in s.records && s.records[id].url.Some?
    ensures Enabled(s, Answered(id, now)) && IsTransition(Answered(id, now))
  {}

  lemma IssuedFresh(s: Sys, id: string)
    requires Good(s)
    ensures id !in s.used ==> id !in s.records
  {
    if id in s.records {
      OnRecord(s, id);
    }
  }

  lemma ReturnKeeps(s: Sys, e: Event)
    requires e.Launched? && Enabled(s, e)
    ensures var t := Step(s, e);
      t.up && e.id in t.records && t.records[e.id] == s.records[e.id].(clusterId := e.clusterId, url := e.url)
  {}

  // ----- across a restart

  /** The state a record comes back in, case by case: what answers on its url first, then its container. */
  lemma EvidenceIs(rec: Rec, probe: Probe, running: Option<bool>)
    ensures var back := Evidence(rec, probe, running);
      var answers := rec.url.Some? && probe == Healthy;
      var stranger := rec.url.Some? && probe == WrongModel;
      var dead := rec.clusterId.Some? && running == Some(false);
      && (back == Ready <==> rec.state !in {Failed, State.Stopped, State.Stopping} && answers)
      && (back == State.Stopping <==> rec.state == State.Stopping && (answers || (!stranger && !dead)))
      && (back == Launching <==> rec.state !in {Failed, State.Stopped, State.Stopping} && !answers && !stranger && !dead)
      && (back == Failed <==>
            rec.state == Failed || (rec.state != State.Stopped && !answers && (stranger || (dead && rec.state == Launching))))
      && (back == State.Stopped <==>
            rec.state == State.Stopped || (rec.state !in {Failed, Launching} && !answers && !stranger && dead))
  {}

  /** A live deployment survives a crash: whatever is reconciled first, it comes back as the record it was, in the state its
      evidence gives, and is on disk so. */
  lemma ComesBack(es: seq<Event>, id: string, now: real, mid: seq<Event>, probe: Probe, running: Option<bool>, found: real)
    requires Feasible(es) && Run(es).up && id in Run(es).records && Run(es).records[id].Live()
    requires Feasible(es + [Crash] + [Restart(now)] + mid) && Untouched(mid, id)
    ensures var begun := es + [Crash] + [Restart(now)] + mid;
      && Feasible(begun + [Rehydrate(id, probe, running, found)])
      && var t := Run(begun + [Rehydrate(id, probe, running, found)]);
         var rec := Run(es).records[id].(state := Evidence(Run(es).records[id], probe, running));
         id in t.records && t.records[id] == rec && id in t.disk && t.disk[id].rec == rec
  {
    var down := es + [Crash];
    var up := down + [Restart(now)];
    hide Step, Good, Run, Feasible, Evidence;
    Front(up, mid);
    Front(down, [Restart(now)]);
    Last(es, Crash);
    OnRecord(Run(es), id);
    Crashed(Run(es));
    Last(down, Restart(now));
    ReadBack(Run(down), id, now);
    StillUnread(up, mid, id);
    Next(up + mid, Rehydrate(id, probe, running, found));
    AdoptedAs(Run(up + mid), id, probe, running, found);
    EvidencePersisted(Run(es).records[id], probe, running);
  }

  lemma Crashed(s: Sys)
    ensures Enabled(s, Crash) && !Step(s, Crash).up && Step(s, Crash).disk == s.disk
  {}

  lemma AdoptedAs(s: Sys, id: string, probe: Probe, running: Option<bool>, now: real)
    requires Enabled(s, Rehydrate(id, probe, running, now))
    ensures var t := Step(s, Rehydrate(id, probe, running, now));
      var rec := s.unread[id].(state := Evidence(s.unread[id], probe, running));
      id in t.records && t.records[id] == rec && (Persisted(rec.state) ==> id in t.disk && t.disk[id].rec == rec)
  {
    hide Evidence;
  }

  lemma EvidencePersisted(rec: Rec, probe: Probe, running: Option<bool>)
    requires rec.state != Planned
    ensures Persisted(Evidence(rec, probe, running))
  {}

  lemma ReadBack(s: Sys, id: string, now: real)
    requires !s.up && id in s.disk && s.disk[id].rec.Live()
    ensures var t := Step(s, Restart(now)); t.up && id in t.unread && t.unread[id] == s.disk[id].rec
  {
    hide Purged;
    PurgeDropsFinishedOnly(s.disk, now);
  }

  lemma {:induction false} StillUnread(es: seq<Event>, more: seq<Event>, id: string)
    requires Feasible(es + more) && Feasible(es) && Untouched(more, id) && Run(es).up && id in Run(es).unread
    ensures Run(es + more).up && id in Run(es + more).unread && Run(es + more).unread[id] == Run(es).unread[id]
    decreases |more|
  {
    if more == [] {
      assert es + more == es;
    } else {
      var less, e := more[..|more| - 1], more[|more| - 1];
      assert (es + more)[..|es + more| - 1] == es + less && (es + more)[|es + more| - 1] == e;
      hide Step, Enabled;
      StillUnread(es, less, id);
      UnreadStep(Run(es + less), e, id);
    }
  }

  lemma UnreadStep(s: Sys, e: Event, id: string)
    requires Enabled(s, e) && s.up && id in s.unread && !Touches(e, id)
    ensures Step(s, e).up && id in Step(s, e).unread && Step(s, e).unread[id] == s.unread[id]
  {
    hide ConflictOf, PortChoice, Swept;
  }
}
