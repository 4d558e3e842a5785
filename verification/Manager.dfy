/** The deployment manager as a protocol: launch workers, ready waiters, stops, the watch and reconciliation act on one
    record table and one store, a lock-protected region at a time; a crash keeps only the store. */
module Manager {
  import opened Contracts
  import opened Fsm
  import opened Store

  const PORT_SEARCH: nat := 200

  // ----- what stands in a launch's way, and the port it gets

  datatype Clash = NoClash | ModelClash | NameClash

  predicate HoldsModel(r: Rec, modelId: string, nodes: set<string>) {
    r.Live() && r.modelId == modelId && !(r.nodes !! nodes)
  }

  predicate HoldsName(r: Rec, servedName: string) {
    r.Live() && r.servedName == servedName
  }

  /** The model rule is scoped to the nodes, the name rule is not; the model rule is reported first. */
  function ConflictOf(records: map<string, Rec>, servedName: string, modelId: string, nodes: set<string>): Clash {
    if exists id | id in records :: HoldsModel(records[id], modelId, nodes) then ModelClash
    else if exists id | id in records :: HoldsName(records[id], servedName) then NameClash
    else NoClash
  }

  function TakenPorts(records: map<string, Rec>): set<int> {
    set id | id in records && records[id].Live() :: records[id].port
  }

  function FirstUntaken(taken: set<int>, p: int): (r: int)
    ensures p <= r && r !in taken
    ensures forall q :: p <= q < r ==> q in taken
    decreases set t | t in taken && p <= t
  {
    if p in taken then
      assert p in (set t | t in taken && p <= t) - (set t | t in taken && p + 1 <= t);
      FirstUntaken(taken, p + 1)
    else p
  }

  /** The first untaken port from `p` that the machine says is free, or the fallback. */
  function FirstFree(taken: set<int>, free: set<int>, p: int, end: int, fallback: int): (r: int)
    ensures r == fallback || (p <= r < end && r !in taken && r in free)
    ensures r == fallback || forall q :: p <= q < r ==> q in taken || q !in free
    decreases end - p
  {
    if end <= p then fallback
    else if p !in taken && p in free then p
    else FirstFree(taken, free, p + 1, end, fallback)
  }

  /** Past the search window the counter's own answer stands, free or not. */
  function PortChoice(taken: set<int>, free: set<int>, base: int): (r: int)
    ensures base <= r && r !in taken
  {
    var first := FirstUntaken(taken, base);
    FirstFree(taken, free, first, first + PORT_SEARCH, first)
  }

  // ----- the transition system

  /** What a health probe of a persisted record's url says, naming the model it expects. */
  datatype Probe = Healthy | WrongModel | Silent

  /** The state the world says a persisted record is in. No cluster id, and no answer, are unknown, not dead. */
  function Evidence(rec: Rec, probe: Probe, running: Option<bool>): State {
    if Terminal(rec.state) then rec.state
    else if rec.url.Some? && probe == Healthy then (if rec.state == Stopping then Stopping else Ready)
    else if rec.url.Some? && probe == WrongModel then Failed
    else
      var alive := if rec.clusterId.Some? then running else None;
      if alive != Some(false) then (if rec.state == Stopping then Stopping else Launching)
      else if rec.state == Launching then Failed
      else Stopped
  }

  /** The record table, the store, what reconciliation has yet to read of the store, the ids ever issued, the launches of
      this life whose launcher has not answered yet, and whether the control plane is up. */
  datatype Sys = Sys(
    records: map<string, Rec>, disk: Files, unread: map<string, Rec>, used: set<string>, workers: set<string>, up: bool)

  datatype Event =
    | Launch(id: string, servedName: string, modelId: string, nodes: set<string>, base: int, free: set<int>, now: real)
    | Launched(id: string, clusterId: Option<string>, url: Option<string>, now: real)
    | GaveUp(id: string)
    | Answered(id: string, now: real)
    | LaunchFailed(id: string, now: real)
    | StopBegin(id: string, now: real)
    | StopLaunching(id: string, now: real)
    | StopEnd(id: string, now: real)
    | Lost(id: string, now: real)
    | Settle(id: string, pressured: bool, now: real)
    | Rehydrate(id: string, probe: Probe, running: Option<bool>, now: real)
    | Restart(now: real)
    | Crash

  /** The target an event asks `_transition` for, if it gets that far from this state. */
  function Target(e: Event, state: State): Option<State> {
    match e
    case Answered(_, _) => Some(Ready)
    case LaunchFailed(_, _) => if state == Launching || Serving(state) then Some(Failed) else None
    case StopBegin(_, _) => if Terminal(state) || state == Launching then None else Some(Stopping)
    case StopLaunching(_, _) => if state == Launching then Some(Failed) else None
    case StopEnd(_, _) => Some(Stopped)
    case Lost(_, _) => Some(Failed)
    case Settle(_, pressured, _) =>
      if pressured && state == Ready then Some(Degraded) else if !pressured && state == Degraded then Some(Ready) else None
    case _ => None
  }

  predicate IsTransition(e: Event) {
    e.Answered? || e.LaunchFailed? || e.StopBegin? || e.StopLaunching? || e.StopEnd? || e.Lost? || e.Settle?
  }

  /** A launch waits for reconciliation to finish, and the id factory never repeats itself. A launcher answers or is given up
      once, for a launch of this life; a ready waiter has nothing to probe without a url, and a launch is failed only once
      its launcher is done. */
  predicate Enabled(s: Sys, e: Event) {
    match e
    case Launch(id, _, _, _, _, _, _) => s.up && s.unread == map[] && id !in s.used
    case Rehydrate(id, _, _, _) => s.up && id in s.unread
    case Restart(_) => !s.up
    case Crash => true
    case Launched(id, _, _, _) => s.up && id in s.records && id in s.workers
    case GaveUp(id) => s.up && id in s.workers
    case Answered(id, _) => s.up && id in s.records && s.records[id].url.Some?
    case LaunchFailed(id, _) => s.up && id in s.records && id !in s.workers
    case _ => s.up && e.id in s.records
  }

  predicate Raises(s: Sys, e: Event)
    requires Enabled(s, e)
  {
    IsTransition(e) && var target := Target(e, s.records[e.id].state);
                       target.Some? && !Allowed(s.records[e.id].state, target.value)
  }

  /** Write a record through: memory, then its file. */
  function Written(s: Sys, id: string, rec: Rec, now: real): Sys {
    s.(records := s.records[id := rec], disk := Saved(s.disk, id, rec, now))
  }

  /** An illegal transition raises and changes nothing; one into a terminal state sweeps the store. */
  function Transition(s: Sys, id: string, target: State, now: real): Sys
    requires id in s.records
  {
    var source := s.records[id].state;
    if source == target || target !in Legal(source) then s
    else
      var after := Written(s, id, s.records[id].(state := target), now);
      if Terminal(target) then after.(disk := Swept(after.disk, TERMINAL_RECORDS_KEPT)) else after
  }

  function NewRecord(s: Sys, e: Event): Rec
    requires e.Launch?
  {
    Rec(e.servedName, e.modelId, e.nodes, PortChoice(TakenPorts(s.records), e.free, e.base), Launching, None, None)
  }

  function Step(s: Sys, e: Event): Sys
    requires Enabled(s, e)
  {
    match e
    case Launch(id, servedName, modelId, nodes, _, _, now) =>
      if ConflictOf(s.records, servedName, modelId, nodes) != NoClash then s
      else Written(s, id, NewRecord(s, e), now).(used := s.used + {id}, workers := s.workers + {id})
    case Launched(id, clusterId, url, now) =>
      Written(s, id, s.records[id].(clusterId := clusterId, url := url), now).(workers := s.workers - {id})
    case GaveUp(id) => s.(workers := s.workers - {id})
    case Rehydrate(id, probe, running, now) =>
      Written(s, id, s.unread[id].(state := Evidence(s.unread[id], probe, running)), now).(unread := s.unread - {id})
    case Restart(now) =>
      var disk := Purged(s.disk, now);
      s.(disk := disk, unread := Recs(disk), up := true)
    case Crash => s.(records := map[], unread := map[], workers := {}, up := false)
    case _ =>
      var target := Target(e, s.records[e.id].state);
      if target.None? then s else Transition(s, e.id, target.value, e.now)
  }

  function Recs(files: Files): map<string, Rec> {
    map id | id in files :: files[id].rec
  }

  // ----- what every step keeps

  /** Two live deployments never share a name, nor both a model and a node, nor a port. */
  predicate Compatible(a: Rec, b: Rec) {
    a.servedName != b.servedName && (a.modelId == b.modelId ==> a.nodes !! b.nodes) && a.port != b.port
  }

  ghost predicate Clashfree(records: map<string, Rec>) {
    forall a, b | a in records && b in records && a != b && records[a].Live() && records[b].Live() ::
      Compatible(records[a], records[b])
  }

  /** A live record has its file, and a record's file is the record. */
  predicate Mirrored(disk: Files, id: string, rec: Rec) {
    (rec.Live() ==> id in disk) && (id in disk ==> disk[id].rec == rec)
  }

  /** Every record of a table is issued, persistable, and mirrored by the store. */
  ghost predicate Backed(disk: Files, used: set<string>, records: map<string, Rec>) {
    forall id | id in records :: Mirrored(disk, id, records[id]) && id in used && Persisted(records[id].state)
  }

  /** While the control plane is up every file belongs to a record, read or still to be read; while it is down there are
      no records. */
  ghost predicate Filed(s: Sys) {
    && (!s.up ==> s.records == map[] && s.unread == map[])
    && (forall id | id in s.records :: id !in s.unread)
    && (forall id | id in s.disk :: id in s.used && Persisted(s.disk[id].rec.state)
                                    && (s.up ==> id in s.records || id in s.unread))
  }

  ghost predicate Good(s: Sys) {
    Filed(s) && Backed(s.disk, s.used, s.records) && Backed(s.disk, s.used, s.unread) && Clashfree(Recs(s.disk))
  }

  predicate SameIdentity(a: Rec, b: Rec) {
    a.servedName == b.servedName && a.modelId == b.modelId && a.nodes == b.nodes && a.port == b.port
  }

  lemma SmallerClashfree(files: Files, less: Files)
    requires Clashfree(Recs(files)) && forall id | id in less :: id in files && less[id] == files[id]
    ensures Clashfree(Recs(less))
  {
    hide Compatible;
    forall a, b | a in less && b in less && a != b && less[a].rec.Live() && less[b].rec.Live()
      ensures Compatible(less[a].rec, less[b].rec)
    {
      assert a in Recs(files) && b in Recs(files);
    }
  }

  lemma RewrittenClashfree(files: Files, id: string, rec: Rec, now: real)
    requires Clashfree(Recs(files))
    requires rec.Live() ==> id in files && files[id].rec.Live() && SameIdentity(rec, files[id].rec)
    ensures Clashfree(Recs(files[id := File(rec, now)]))
  {
    hide Compatible;
    var after := Recs(files[id := File(rec, now)]);
    forall a, b | a in after && b in after && a != b && after[a].Live() && after[b].Live() ensures Compatible(after[a], after[b]) {
      assert a in Recs(files) && b in Recs(files);
      assert Compatible(Recs(files)[a], Recs(files)[b]);
      SameCompatible(Recs(files)[a], after[a], Recs(files)[b], after[b]);
    }
  }

  lemma SameCompatible(a: Rec, x: Rec, b: Rec, y: Rec)
    requires SameIdentity(x, a) && SameIdentity(y, b)
    ensures Compatible(a, b) == Compatible(x, y)
  {}

  lemma PurgeDropsFinishedOnly(files: Files, now: real)
    ensures forall id | id in Purged(files, now) :: id in files && Purged(files, now)[id] == files[id]
    ensures forall id | id in files && files[id].rec.Live() :: id in Purged(files, now)
  {
    hide NewerThan, Newer;
    var rest := files - Expired(files, now - TERMINAL_RETENTION);
    SurplusTerminal(rest, TERMINAL_RECORDS_KEPT);
  }

  lemma WrittenBacked(disk: Files, used: set<string>, records: map<string, Rec>, id: string, rec: Rec, now: real)
    requires Backed(disk, used, records) && Persisted(rec.state)
    ensures Backed(disk[id := File(rec, now)], used + {id}, records[id := rec])
    ensures id !in records ==> Backed(disk[id := File(rec, now)], used, records)
  {}

  /** Writing through a record that keeps its identity and does not come back to life keeps everything. */
  lemma WrittenGood(s: Sys, id: string, rec: Rec, now: real)
    requires Good(s) && s.up && id in s.records && Persisted(rec.state)
    requires SameIdentity(rec, s.records[id]) && (rec.Live() ==> s.records[id].Live())
    ensures Good(Written(s, id, rec, now))
  {
    assert Mirrored(s.disk, id, s.records[id]) && s.used + {id} == s.used;
    RewrittenClashfree(s.disk, id, rec, now);
    hide Clashfree, Backed, Recs, SameIdentity, Mirrored;
    WrittenBacked(s.disk, s.used, s.records, id, rec, now);
    WrittenBacked(s.disk, s.used, s.unread, id, rec, now);
  }

  lemma SweptGood(s: Sys)
    requires Good(s)
    ensures Good(s.(disk := Swept(s.disk, TERMINAL_RECORDS_KEPT)))
  {
    hide Clashfree, Surplus;
    SurplusTerminal(s.disk, TERMINAL_RECORDS_KEPT);
    SmallerClashfree(s.disk, Swept(s.disk, TERMINAL_RECORDS_KEPT));
  }

  lemma TransitionGood(s: Sys, id: string, target: State, now: real)
    requires Good(s) && s.up && id in s.records
    ensures Good(Transition(s, id, target, now))
  {
    hide Good, Swept, Written;
    var source := s.records[id].state;
    if source != target && target in Legal(source) {
      var rec := s.records[id].(state := target);
      WrittenGood(s, id, rec, now);
      if Terminal(target) {
        SweptGood(Written(s, id, rec, now));
      }
    }
  }

  lemma UnclashedCompatible(records: map<string, Rec>, id: string, rec: Rec, base: int, free: set<int>)
    requires ConflictOf(records, rec.servedName, rec.modelId, rec.nodes) == NoClash
    requires rec.port == PortChoice(TakenPorts(records), free, base)
    requires id in records && records[id].Live()
    ensures Compatible(rec, records[id])
  {
    hide PortChoice;
    assert !HoldsModel(records[id], rec.modelId, rec.nodes) && !HoldsName(records[id], rec.servedName);
    assert records[id].port in TakenPorts(records);
  }

  lemma LaunchGood(s: Sys, e: Event)
    requires Good(s) && e.Launch? && Enabled(s, e)
    ensures Good(Step(s, e))
  {
    if ConflictOf(s.records, e.servedName, e.modelId, e.nodes) == NoClash {
      var rec := NewRecord(s, e);
      forall a | a in s.disk && s.disk[a].rec.Live() ensures Compatible(rec, s.disk[a].rec) {
        assert a in s.records && Mirrored(s.disk, a, s.records[a]);
        UnclashedCompatible(s.records, a, rec, e.base, e.free);
      }
      AddedClashfree(s.disk, e.id, rec, e.now);
      hide Clashfree, Backed, Recs;
      WrittenBacked(s.disk, s.used, s.records, e.id, rec, e.now);
      assert s.unread == map[];
      EmptyBacked(s.disk[e.id := File(rec, e.now)], s.used + {e.id});
    }
  }

  lemma EmptyBacked(disk: Files, used: set<string>)
    ensures Backed(disk, used, map[])
  {}

  lemma AddedClashfree(files: Files, id: string, rec: Rec, now: real)
    requires Clashfree(Recs(files)) && id !in files
    requires forall a | a in files && files[a].rec.Live() :: Compatible(rec, files[a].rec)
    ensures Clashfree(Recs(files[id := File(rec, now)]))
  {
    var after := Recs(files[id := File(rec, now)]);
    forall a, b | a in after && b in after && a != b && after[a].Live() && after[b].Live() ensures Compatible(after[a], after[b]) {
      if a != id && b != id {
        assert a in Recs(files) && b in Recs(files);
      }
    }
  }

  lemma RehydrateGood(s: Sys, id: string, rec: Rec, now: real)
    requires Good(s) && s.up && id in s.unread && Persisted(rec.state)
    requires SameIdentity(rec, s.unread[id]) && (rec.Live() ==> s.unread[id].Live())
    ensures Good(Written(s, id, rec, now).(unread := s.unread - {id}))
  {
    assert Mirrored(s.disk, id, s.unread[id]) && s.used + {id} == s.used;
    RewrittenClashfree(s.disk, id, rec, now);
    assert Backed(s.disk, s.used, s.unread - {id});
    hide Clashfree, Backed, Recs, Mirrored, SameIdentity;
    WrittenBacked(s.disk, s.used, s.records, id, rec, now);
    WrittenBacked(s.disk, s.used, s.unread - {id}, id, rec, now);
  }

  lemma RestartGood(s: Sys, e: Event)
    requires Good(s) && e.Restart? && Enabled(s, e)
    ensures Good(Step(s, e))
  {
    hide Clashfree, Purged;
    PurgeDropsFinishedOnly(s.disk, e.now);
    SmallerClashfree(s.disk, Purged(s.disk, e.now));
  }

  lemma StepGood(s: Sys, e: Event)
    requires Good(s) && Enabled(s, e)
    ensures Good(Step(s, e))
  {
    hide Good, Transition, ConflictOf, Written, Evidence, Purged;
    match e
    case Launch(_, _, _, _, _, _, _) => LaunchGood(s, e);
    case Rehydrate(_, _, _, _) => ReadGood(s, e);
    case Restart(_) => RestartGood(s, e);
    case Launched(_, _, _, _) => ReturnedGood(s, e);
    case Crash => CrashGood(s);
    case GaveUp(_) => WorkersGood(s, s.workers - {e.id});
    case _ =>
      var target := Target(e, s.records[e.id].state);
      if target.Some? {
        TransitionGood(s, e.id, target.value, e.now);
      }
  }

  lemma ReadGood(s: Sys, e: Event)
    requires Good(s) && Enabled(s, e) && e.Rehydrate?
    ensures Good(Step(s, e))
  {
    assert Mirrored(s.disk, e.id, s.unread[e.id]);
    RehydrateGood(s, e.id, s.unread[e.id].(state := Evidence(s.unread[e.id], e.probe, e.running)), e.now);
    hide Clashfree, Backed, Filed;
  }

  lemma ReturnedGood(s: Sys, e: Event)
    requires Good(s) && Enabled(s, e) && e.Launched?
    ensures Good(Step(s, e))
  {
    var rec := s.records[e.id].(clusterId := e.clusterId, url := e.url);
    assert Mirrored(s.disk, e.id, s.records[e.id]);
    WrittenGood(s, e.id, rec, e.now);
    WorkersGood(Written(s, e.id, rec, e.now), s.workers - {e.id});
    hide Good;
  }

  lemma WorkersGood(s: Sys, workers: set<string>)
    requires Good(s)
    ensures Good(s.(workers := workers))
  {}

  lemma CrashGood(s: Sys)
    requires Good(s)
    ensures Good(Step(s, Crash))
  {
    hide Clashfree;
  }

  // ----- every interleaving, crashes and restarts included

  const START: Sys := Sys(map[], map[], map[], {}, {}, false)

  ghost predicate Feasible(es: seq<Event>)
    decreases |es|, 0
  {
    es == [] || (Feasible(es[..|es| - 1]) && Enabled(Run(es[..|es| - 1]), es[|es| - 1]))
  }

  ghost function Run(es: seq<Event>): Sys
    requires Feasible(es)
    decreases |es|, 1
  {
    if es == [] then START else Step(Run(es[..|es| - 1]), es[|es| - 1])
  }

  /** In every reachable state no two live deployments clash, in memory or on disk. */
  lemma {:induction false} NeverClashes(es: seq<Event>)
    requires Feasible(es)
    ensures Good(Run(es)) && Clashfree(Run(es).records) && Clashfree(Recs(Run(es).disk))
    decreases |es|
  {
    if es != [] {
      NeverClashes(es[..|es| - 1]);
      hide Step;
      StepGood(Run(es[..|es| - 1]), es[|es| - 1]);
    }
    RecordsClashfree(Run(es));
  }

  lemma RecordsClashfree(s: Sys)
    requires Good(s)
    ensures Clashfree(s.records)
  {
    forall a, b | a in s.records && b in s.records && a != b && s.records[a].Live() && s.records[b].Live()
      ensures Compatible(s.records[a], s.records[b])
    {
      assert a in Recs(s.disk) && b in Recs(s.disk);
    }
  }

  // ----- histories

  /** The state a deployment is recorded in: in memory, still to be read, or on disk while the control plane is down. */
  function Status(s: Sys, id: string): Option<State> {
    if id in s.records then Some(s.records[id].state)
    else if id in s.unread then Some(s.unread[id].state)
    else if id in s.disk then Some(s.disk[id].rec.state)
    else None
  }

  /** One step's effect on one deployment: outside reconciliation it stays or takes a legal transition; a raise changes
      nothing at all; a live record is never lost; a finished one never changes state again, though it may be swept, and
      an id once issued is never launched again. */
  lemma StepHistory(s: Sys, e: Event, id: string)
    requires Good(s) && Enabled(s, e)
    ensures Raises(s, e) ==> Step(s, e) == s
    ensures Follows(s, Step(s, e), e, id)
  {
    hide Good, Step, Follows, Raises, Status;
    if e.Restart? {
      RestartHistory(s, e, id);
    } else if e.Crash? {
      CrashHistory(s, e, id);
    } else if IsTransition(e) {
      MoveHistory(s, e, id);
    } else {
      RecordHistory(s, e, id);
    }
  }

  ghost predicate Follows(s: Sys, t: Sys, e: Event, id: string) {
    var before, after := Status(s, id), Status(t, id);
    && (before.Some? && after.Some? && !(e.Rehydrate? && e.id == id) ==> Allowed(before.value, after.value))
    && (before.Some? && !Terminal(before.value) ==> after.Some?)
    && (before.Some? && Terminal(before.value) ==> after in {None, before})
    && (before.None? && id in s.used ==> after.None?)
    && (before.None? && after.Some? ==> e.Launch? && e.id == id && after == Some(Launching))
    && s.used <= t.used
  }

  lemma RestartHistory(s: Sys, e: Event, id: string)
    requires Good(s) && Enabled(s, e) && e.Restart?
    ensures Follows(s, Step(s, e), e, id) && !Raises(s, e)
  {
    hide Clashfree, Purged;
    PurgeDropsFinishedOnly(s.disk, e.now);
  }

  lemma CrashHistory(s: Sys, e: Event, id: string)
    requires Good(s) && Enabled(s, e) && e.Crash?
    ensures Follows(s, Step(s, e), e, id) && !Raises(s, e)
  {
    hide Clashfree;
    assert id in s.records ==> Mirrored(s.disk, id, s.records[id]);
    assert id in s.unread ==> Mirrored(s.disk, id, s.unread[id]);
  }

  lemma MoveHistory(s: Sys, e: Event, id: string)
    requires Good(s) && Enabled(s, e) && IsTransition(e)
    ensures Follows(s, Step(s, e), e, id) && (Raises(s, e) ==> Step(s, e) == s)
  {
    var target := Target(e, s.records[e.id].state);
    if target.Some? {
      TransitionHistory(s, e.id, target.value, e.now, id);
    }
    hide Transition, Good, Status;
  }

  lemma RecordHistory(s: Sys, e: Event, id: string)
    requires Good(s) && Enabled(s, e) && (e.Launch? || e.Launched? || e.GaveUp? || e.Rehydrate?)
    ensures Follows(s, Step(s, e), e, id) && !Raises(s, e)
  {
    hide Clashfree, ConflictOf, PortChoice, Evidence;
    if e.Rehydrate? {
      EvidenceKeepsFinished(s.unread[e.id], e.probe, e.running);
    }
  }

  lemma EvidenceKeepsFinished(rec: Rec, probe: Probe, running: Option<bool>)
    ensures Terminal(rec.state) ==> Evidence(rec, probe, running) == rec.state
  {}

  lemma TransitionHistory(s: Sys, id: string, target: State, now: real, other: string)
    requires id in s.records && Good(s) && s.up
    ensures !Allowed(s.records[id].state, target) ==> Transition(s, id, target, now) == s
    ensures Transition(s, id, target, now).used == s.used
    ensures var before, after := Status(s, other), Status(Transition(s, id, target, now), other);
            if other == id then before.Some? && after.Some? && Allowed(before.value, after.value) else after == before
  {
    hide Clashfree, Compatible, Surplus;
    var after := Transition(s, id, target, now);
    if after != s {
      SurplusTerminal(Written(s, id, s.records[id].(state := target), now).disk, TERMINAL_RECORDS_KEPT);
    }
  }

  /** A live record is retired by reconciliation exactly when a stranger answers on its url, or nothing of its own answers
      there and its container is known not to be running. Not knowing never retires anything. */
  lemma RetiredOnEvidence(rec: Rec, probe: Probe, running: Option<bool>)
    requires rec.Live()
    ensures Terminal(Evidence(rec, probe, running)) <==>
      || (rec.url.Some? && probe == WrongModel)
      || ((rec.url.None? || probe != Healthy) && rec.clusterId.Some? && running == Some(false))
    ensures Evidence(rec, probe, None) == Evidence(rec.(clusterId := None), probe, running)
    ensures rec.state == Stopping ==> Evidence(rec, probe, running) in {Stopping, Stopped, Failed}
  {}

  lemma {:induction false} FeasiblePrefix(es: seq<Event>, i: nat)
    requires Feasible(es) && i <= |es|
    ensures Feasible(es[..i])
    decreases |es|
  {
    if i == |es| {
      assert es[..i] == es;
    } else {
      FeasiblePrefix(es[..|es| - 1], i);
      assert es[..|es| - 1][..i] == es[..i];
    }
  }

  /** The `i`th event of a feasible run steps from the state before it. */
  lemma RunStep(es: seq<Event>, i: nat)
    requires Feasible(es) && i < |es|
    ensures Feasible(es[..i]) && Feasible(es[..i + 1]) && Good(Run(es[..i])) && Enabled(Run(es[..i]), es[i])
    ensures Run(es[..i + 1]) == Step(Run(es[..i]), es[i])
  {
    hide Enabled, Step;
    FeasiblePrefix(es, i);
    FeasiblePrefix(es, i + 1);
    NeverClashes(es[..i]);
    assert es[..i + 1][..i] == es[..i] && es[..i + 1][i] == es[i];
  }

  /** Finished is for ever: once a deployment is failed or stopped, every later state of the run, on either side of any
      number of restarts, has it so or no longer has it. */
  lemma {:induction false} FinishedForever(es: seq<Event>, i: nat, j: nat, id: string)
    requires Feasible(es) && i <= j <= |es| && Feasible(es[..i]) && Feasible(es[..j])
    requires Status(Run(es[..i]), id).Some? && Terminal(Status(Run(es[..i]), id).value)
    ensures Status(Run(es[..j]), id) in {None, Status(Run(es[..i]), id)} && id in Run(es[..j]).used
    decreases j
  {
    hide Run, Step, Enabled, Good, Status;
    if i == j {
      NeverClashes(es[..i]);
      StatusUsed(Run(es[..i]), id);
    } else {
      RunStep(es, j - 1);
      FinishedForever(es, i, j - 1, id);
      StepHistory(Run(es[..j - 1]), es[j - 1], id);
    }
  }

  lemma StatusUsed(s: Sys, id: string)
    requires Good(s) && Status(s, id).Some?
    ensures id in s.used
  {
    hide Clashfree;
  }

  /** Between reconciliations of a deployment its recorded states are a path of the lifecycle. */
  lemma HistoryIsLegal(es: seq<Event>, i: nat, j: nat, id: string, states: seq<State>)
    requires Feasible(es) && i <= j <= |es| && |states| == j - i + 1
    requires forall k :: i <= k < j ==> !(es[k].Rehydrate? && es[k].id == id)
    requires forall k :: i <= k <= j ==> Feasible(es[..k]) && Status(Run(es[..k]), id) == Some(states[k - i])
    ensures IsHistory(states)
  {
    hide Run, Step, Enabled, Good, Status;
    forall k | 0 <= k < |states| - 1 ensures Allowed(states[k], states[k + 1]) {
      RunStep(es, i + k);
      StepHistory(Run(es[..i + k]), es[i + k], id);
      assert Status(Run(es[..i + k]), id) == Some(states[k]);
      assert Status(Run(es[..i + k + 1]), id) == Some(states[k + 1]);
    }
  }

  // ----- what a stop settles

  /** Stopping, finished, or no longer known. */
  predicate Ended(status: Option<State>) {
    status.None? || status.value == Stopping || Terminal(status.value)
  }

  ghost predicate ServesAfter(es: seq<Event>, id: string) {
    Feasible(es) && Status(Run(es), id).Some? && Serving(Status(Run(es), id).value)
  }

  /** No step brings a deployment back once it has ended, adoption after a crash included. */
  lemma EndedStays(s: Sys, e: Event, id: string)
    requires Good(s) && Enabled(s, e) && id in s.used && Ended(Status(s, id))
    ensures Ended(Status(Step(s, e), id)) && id in Step(s, e).used
  {
    hide Step, Good, Enabled, Status, Raises;
    StepHistory(s, e, id);
    if e.Rehydrate? && e.id == id {
      RetiredStaysEnded(s, e);
    }
  }

  lemma RetiredStaysEnded(s: Sys, e: Event)
    requires Good(s) && e.Rehydrate? && Enabled(s, e) && Ended(Status(s, e.id))
    ensures Ended(Status(Step(s, e), e.id))
  {
    hide Clashfree, Swept;
    assert s.unread[e.id].Live() ==> s.unread[e.id].state == Stopping;
  }

  lemma {:induction false} EndedForever(es: seq<Event>, i: nat, j: nat, id: string)
    requires Feasible(es) && i <= j <= |es| && Feasible(es[..i]) && Feasible(es[..j])
    requires Ended(Status(Run(es[..i]), id)) && id in Run(es[..i]).used
    ensures Ended(Status(Run(es[..j]), id)) && id in Run(es[..j]).used
    decreases j
  {
    hide Run, Step, Enabled, Good, Status, Ended;
    if i < j {
      RunStep(es, j - 1);
      EndedForever(es, i, j - 1, id);
      EndedStays(Run(es[..j - 1]), es[j - 1], id);
    }
  }

  lemma StopFirstRegion(s: Sys, id: string, now: real)
    requires Good(s) && Enabled(s, StopBegin(id, now)) && !CanAnswer(s, id)
    ensures var t := Step(s, StopBegin(id, now));
      Mute(t, id) || (Ended(Status(t, id)) && id in t.used)
  {
    hide Clashfree, Swept;
    assert Mirrored(s.disk, id, s.records[id]);
  }

  /** Nothing answers for it and nothing will: it has no url, and no launcher of this life is at work that could give it one. */
  ghost predicate Mute(s: Sys, id: string) {
    && id in s.used && id !in s.workers
    && (id in s.records ==> Silenced(s.records[id])) && (id in s.unread ==> Silenced(s.unread[id]))
    && (id in s.disk ==> Silenced(s.disk[id].rec))
  }

  predicate Silenced(rec: Rec) { rec.url.None? && !Serving(rec.state) }

  lemma MuteStays(s: Sys, e: Event, id: string)
    requires Good(s) && Enabled(s, e) && Mute(s, id)
    ensures Mute(Step(s, e), id)
  {
    if IsTransition(e) {
      MoveMute(s, e, id);
    } else {
      RecordMute(s, e, id);
    }
    hide Step, Enabled, Good, Mute;
  }

  lemma MoveMute(s: Sys, e: Event, id: string)
    requires Enabled(s, e) && IsTransition(e) && Mute(s, id)
    ensures Mute(Step(s, e), id)
  {
    var target := Target(e, s.records[e.id].state);
    assert e.id == id && target.Some? ==> !Serving(target.value);
    hide Mute, Transition;
    if target.Some? {
      TransitionMute(s, e.id, target.value, e.now, id);
    }
  }

  lemma RecordMute(s: Sys, e: Event, id: string)
    requires Good(s) && Enabled(s, e) && !IsTransition(e) && Mute(s, id)
    ensures Mute(Step(s, e), id)
  {
    hide Clashfree, Backed, ConflictOf, PortChoice, Swept, Purged;
    if e.Restart? {
      PurgeDropsFinishedOnly(s.disk, e.now);
    } else if e.Crash? {
      hide Filed;
    }
  }

  lemma TransitionMute(s: Sys, moved: string, target: State, now: real, id: string)
    requires moved in s.records && Mute(s, id) && (moved == id ==> !Serving(target))
    ensures Mute(Transition(s, moved, target, now), id)
  {
    hide Swept;
    SweptKeeps(Written(s, moved, s.records[moved].(state := target), now).disk);
  }

  lemma SweptKeeps(disk: Files)
    ensures forall id | id in Swept(disk, TERMINAL_RECORDS_KEPT) ::
      id in disk && Swept(disk, TERMINAL_RECORDS_KEPT)[id] == disk[id]
  {
    hide Surplus;
    SurplusTerminal(disk, TERMINAL_RECORDS_KEPT);
  }

  lemma {:induction false} MuteForever(es: seq<Event>, i: nat, j: nat, id: string)
    requires Feasible(es) && i <= j <= |es| && Feasible(es[..i]) && Feasible(es[..j])
    requires Mute(Run(es[..i]), id)
    ensures Mute(Run(es[..j]), id)
    decreases j
  {
    hide Run, Step, Enabled, Good, Mute;
    if i < j {
      RunStep(es, j - 1);
      MuteForever(es, i, j - 1, id);
      MuteStays(Run(es[..j - 1]), es[j - 1], id);
    }
  }

  /** What the system knows of a deployment that could still be made to serve: it is launching, and it has a url or a
      launcher at work. */
  predicate CanAnswer(s: Sys, id: string)
    requires id in s.records
  {
    s.records[id].state == Launching && (s.records[id].url.Some? || id in s.workers)
  }

  /** The interleaving that undoes a stop: the launcher answers if it has not yet, the ready waiter moves the launching
      deployment on while its teardown runs, and the stop's second region then leaves it. */
  function Overtaken(s: Sys, id: string, now: real): seq<Event>
    requires id in s.records
  {
    (if s.records[id].url.Some? then [] else [Launched(id, None, Some("url"), now)])
    + [Answered(id, now), StopLaunching(id, now)]
  }

  lemma StopLosesToReady(es: seq<Event>, id: string, now: real)
    requires Feasible(es) && Enabled(Run(es), StopBegin(id, now)) && CanAnswer(Run(es), id)
    ensures ServesAfter(es + [StopBegin(id, now)] + Overtaken(Run(es), id, now), id)
  {
    hide Run, Feasible;
    var begun := es + [StopBegin(id, now)];
    Extended(es, StopBegin(id, now));
    var answered := if Run(es).records[id].url.Some? then begun else begun + [Launched(id, None, Some("url"), now)];
    if answered != begun {
      Extended(begun, Launched(id, None, Some("url"), now));
    }
    Extended(answered, Answered(id, now));
    Extended(answered + [Answered(id, now)], StopLaunching(id, now));
    assert answered + [Answered(id, now)] + [StopLaunching(id, now)] == begun + Overtaken(Run(es), id, now);
  }

  lemma Extended(es: seq<Event>, e: Event)
    requires Feasible(es) && Enabled(Run(es), e)
    ensures Feasible(es + [e]) && Run(es + [e]) == Step(Run(es), e)
  {
    hide Enabled, Step;
    assert (es + [e])[..|es|] == es;
  }

  /** A stop is sure to end the deployment -- nothing that can follow it, whatever interleaves and however often the control
      plane crashes and adopts, has it serving again -- if and only if at the stop's first region it was not launching, or
      had no url and no launcher of this life at work to give it one. */
  lemma StopEndsIff(es: seq<Event>, id: string, now: real)
    requires Feasible(es) && Enabled(Run(es), StopBegin(id, now))
    ensures (forall more :: !ServesAfter(es + [StopBegin(id, now)] + more, id))
            <==> Run(es).records[id].state != Launching || (Run(es).records[id].url.None? && id !in Run(es).workers)
  {
    assert id in Run(es).records;
    hide Step, Good, Run, Enabled;
    if CanAnswer(Run(es), id) {
      StopLosesToReady(es, id, now);
    } else {
      forall more ensures !ServesAfter(es + [StopBegin(id, now)] + more, id) {
        StopEnds(es, id, now, more);
      }
    }
  }

  lemma StopEnds(es: seq<Event>, id: string, now: real, more: seq<Event>)
    requires Feasible(es) && Enabled(Run(es), StopBegin(id, now)) && !CanAnswer(Run(es), id)
    ensures !ServesAfter(es + [StopBegin(id, now)] + more, id)
  {
    var begun := es + [StopBegin(id, now)];
    Extended(es, StopBegin(id, now));
    NeverClashes(es);
    StopFirstRegion(Run(es), id, now);
    hide Step, Good, Run, Enabled, Mute, Ended;
    if Feasible(begun + more) {
      assert (begun + more)[..|begun|] == begun && (begun + more)[..|begun + more|] == begun + more;
      if Mute(Run(begun), id) {
        MuteForever(begun + more, |begun|, |begun + more|, id);
        MuteOrEnded(Run(begun + more), id);
      } else {
        EndedForever(begun + more, |begun|, |begun + more|, id);
        MuteOrEnded(Run(begun + more), id);
      }
    }
  }

  lemma MuteOrEnded(s: Sys, id: string)
    requires Mute(s, id) || Ended(Status(s, id))
    ensures Status(s, id).Some? ==> !Serving(Status(s, id).value)
  {}

  // ----- the manager itself, one method per lock-protected region

  datatype LaunchResult = Started(port: int) | Duplicate(existing: string, clash: Clash)

  class DeploymentManager {
    const store: DeploymentStore
    var records: map<string, Rec>
    var unread: map<string, Rec>
    ghost var used: set<string>
    var workers: set<string>
    var up: bool

    /** A control plane starting over whatever an earlier one left on disk. */
    constructor (store: DeploymentStore, ghost used: set<string>)
      ensures this.store == store && Now() == Sys(map[], store.files, map[], used, {}, false)
    {
      this.store, this.used := store, used;
      records, unread, workers, up := map[], map[], {}, false;
    }

    ghost function Now(): Sys
      reads this, store
    {
      Sys(records, store.files, unread, used, workers, up)
    }

    method FindConflict(servedName: string, modelId: string, nodes: set<string>) returns (clash: Clash, existing: string)
      ensures clash == ConflictOf(records, servedName, modelId, nodes)
      ensures clash == ModelClash ==> existing in records && HoldsModel(records[existing], modelId, nodes)
      ensures clash == NameClash ==> existing in records && HoldsName(records[existing], servedName)
    {
      clash, existing := NoClash, "";
      var ids := records.Keys;
      while ids != {}
        invariant ids <= records.Keys
        invariant forall id | id in records && id !in ids :: !HoldsModel(records[id], modelId, nodes)
        invariant clash == NoClash ==> forall id | id in records && id !in ids :: !HoldsName(records[id], servedName)
        invariant clash == NoClash || clash == NameClash
        invariant clash == NameClash ==> existing in records && HoldsName(records[existing], servedName)
        decreases |ids|
      {
        var id :| id in ids;
        ids := ids - {id};
        if !records[id].Live() {
          continue;
        }
        if HoldsName(records[id], servedName) && clash == NoClash {
          clash, existing := NameClash, id;
        }
        if records[id].nodes !! nodes {
          continue;
        }
        if records[id].modelId == modelId {
          return ModelClash, id;
        }
      }
    }

    method AllocatePort(base: int, free: set<int>) returns (port: int)
      ensures port == PortChoice(TakenPorts(records), free, base)
    {
      var taken := TakenPorts(records);
      port := base;
      ghost var first0 := FirstUntaken(taken, base);
      while port in taken
        invariant FirstUntaken(taken, port) == first0
        decreases first0 - port
      {
        port := port + 1;
      }
      var first := port;
      while port < first + PORT_SEARCH
        invariant FirstFree(taken, free, port, first + PORT_SEARCH, first) == PortChoice(taken, free, base)
        invariant port <= first + PORT_SEARCH
      {
        if port !in taken && port in free {
          return;
        }
        port := port + 1;
      }
      port := first;
    }

    /** The launch's synchronous half: refuse a clash, else record the deployment and hand it to a worker. */
    method StartLaunch(id: string, servedName: string, modelId: string, nodes: set<string>, base: int, free: set<int>, now: real)
      returns (result: LaunchResult)
      requires Enabled(Now(), Launch(id, servedName, modelId, nodes, base, free, now))
      modifies this, store
      ensures Now() == Step(old(Now()), Launch(id, servedName, modelId, nodes, base, free, now))
      ensures result.Duplicate? <==> ConflictOf(old(records), servedName, modelId, nodes) != NoClash
      ensures result.Duplicate? ==>
        result.clash == ConflictOf(old(records), servedName, modelId, nodes) && result.existing in old(records)
      ensures result.Started? ==> id in records && records[id].port == result.port && records[id].state == Launching
    {
      hide PortChoice, ConflictOf;
      var clash, existing := FindConflict(servedName, modelId, nodes);
      if clash != NoClash {
        return Duplicate(existing, clash);
      }
      var port := AllocatePort(base, free);
      records := records[id := Rec(servedName, modelId, nodes, port, Planned, None, None)];
      records := records[id := records[id].(state := Launching)];
      store.Save(id, records[id], now);
      used, workers := used + {id}, workers + {id};
      return Started(port);
    }

    /** The only way a state changes after a record exists. */
    method Move(id: string, target: State, now: real) returns (raised: bool)
      requires id in records
      modifies this, store
      ensures Now() == Transition(old(Now()), id, target, now)
      ensures raised == !Allowed(old(records)[id].state, target)
    {
      hide Swept;
      var source := records[id].state;
      if source == target {
        return false;
      }
      if target !in Legal(source) {
        return true;
      }
      records := records[id := records[id].(state := target)];
      store.Save(id, records[id], now);
      if Terminal(target) {
        var _ := store.PurgeSurplus(TERMINAL_RECORDS_KEPT);
      }
      return false;
    }

    /** The launcher returned: keep the handle and the url, whatever the state has become meanwhile. */
    method KeepHandle(id: string, clusterId: Option<string>, url: Option<string>, now: real)
      requires Enabled(Now(), Launched(id, clusterId, url, now))
      modifies this, store
      ensures Now() == Step(old(Now()), Launched(id, clusterId, url, now))
    {
      records := records[id := records[id].(clusterId := clusterId, url := url)];
      store.Save(id, records[id], now);
      workers := workers - {id};
    }

    /** The node gate timed out, or the launcher raised: the record is as it was. */
    method GiveUp(id: string)
      requires Enabled(Now(), GaveUp(id))
      modifies this
      ensures Now() == Step(old(Now()), GaveUp(id)) && records == old(records) && workers == old(workers) - {id}
    {
      workers := workers - {id};
    }

    /** The ready waiter's probe succeeded. */
    method MarkReady(id: string, now: real) returns (raised: bool)
      requires Enabled(Now(), Answered(id, now))
      modifies this, store
      ensures Now() == Step(old(Now()), Answered(id, now)) && raised == Raises(old(Now()), Answered(id, now))
    {
      hide Transition;
      raised := Move(id, Ready, now);
    }

    method FailLaunch(id: string, now: real) returns (raised: bool)
      requires Enabled(Now(), LaunchFailed(id, now))
      modifies this, store
      ensures Now() == Step(old(Now()), LaunchFailed(id, now)) && !raised
    {
      hide Transition;
      raised := false;
      if records[id].state == Launching || Serving(records[id].state) {
        raised := Move(id, Failed, now);
      }
    }

    /** A stop's first region: a launch is left where it is, a finished deployment too. */
    method BeginStop(id: string, now: real) returns (raised: bool, launching: bool)
      requires Enabled(Now(), StopBegin(id, now))
      modifies this, store
      ensures Now() == Step(old(Now()), StopBegin(id, now)) && raised == Raises(old(Now()), StopBegin(id, now))
      ensures launching == (old(records)[id].state == Launching)
    {
      hide Transition;
      raised, launching := false, records[id].state == Launching;
      if Terminal(records[id].state) || launching {
        return;
      }
      raised := Move(id, Stopping, now);
    }

    /** A stop's second region, for a deployment that was launching: it fails only if it still is. */
    method AbandonLaunch(id: string, now: real) returns (raised: bool)
      requires Enabled(Now(), StopLaunching(id, now))
      modifies this, store
      ensures Now() == Step(old(Now()), StopLaunching(id, now)) && !raised
    {
      hide Transition;
      raised := false;
      if records[id].state == Launching {
        raised := Move(id, Failed, now);
      }
    }

    method FinishStop(id: string, now: real) returns (raised: bool)
      requires Enabled(Now(), StopEnd(id, now))
      modifies this, store
      ensures Now() == Step(old(Now()), StopEnd(id, now)) && raised == Raises(old(Now()), StopEnd(id, now))
      ensures old(records)[id].state == Stopping ==> !raised && id in records && records[id].state == Stopped
    {
      hide Swept;
      raised := Move(id, Stopped, now);
    }

    /** The watch gave up on a backend. */
    method MarkLost(id: string, now: real) returns (raised: bool)
      requires Enabled(Now(), Lost(id, now))
      modifies this, store
      ensures Now() == Step(old(Now()), Lost(id, now)) && raised == Raises(old(Now()), Lost(id, now))
    {
      hide Transition;
      raised := Move(id, Failed, now);
    }

    method SettleState(id: string, pressured: bool, now: real) returns (raised: bool)
      requires Enabled(Now(), Settle(id, pressured, now))
      modifies this, store
      ensures Now() == Step(old(Now()), Settle(id, pressured, now)) && !raised
    {
      hide Transition;
      raised := false;
      if pressured && records[id].state == Ready {
        raised := Move(id, Degraded, now);
      } else if !pressured && records[id].state == Degraded {
        raised := Move(id, Ready, now);
      }
    }

    /** Sweep the store and list what is left to adopt or retire. */
    method BeginReconcile(now: real) returns (removed: nat)
      requires Enabled(Now(), Restart(now))
      modifies this, store
      ensures Now() == Step(old(Now()), Restart(now))
    {
      hide Swept, Expired;
      removed := store.PurgeExpired(TERMINAL_RETENTION, now);
      unread := Recs(store.files);
      up := true;
    }

    /** Adopt or retire one record on the evidence. */
    method ReconcileOne(id: string, probe: Probe, running: Option<bool>, now: real)
      requires Enabled(Now(), Rehydrate(id, probe, running, now))
      modifies this, store
      ensures Now() == Step(old(Now()), Rehydrate(id, probe, running, now))
      ensures records == old(records)[id := old(unread)[id].(state := Evidence(old(unread)[id], probe, running))]
      ensures unread == old(unread) - {id} && up == old(up)
    {
      hide Evidence;
      records := records[id := unread[id].(state := Evidence(unread[id], probe, running))];
      unread := unread - {id};
      store.Save(id, records[id], now);
    }

    /** Reconcile everything left to read. Every record comes back in the state its evidence gives, with nothing else
        about it changed, and the store agrees. */
    method Reconcile(probes: map<string, Probe>, liveness: map<string, bool>, now: real)
      requires Good(Now()) && up && records == map[]
      modifies this, store
      ensures Good(Now()) && unread == map[] && up
      ensures records.Keys == old(unread).Keys
      ensures forall id | id in old(unread) :: records[id] == Resolved(old(unread)[id], id, probes, liveness)
    {
      hide Good, Evidence, Written, Step, Adopted;
      StartsAdopted(unread, probes, liveness);
      while unread != map[]
        invariant Good(Now()) && up
        invariant Adopted(old(unread), records, unread, probes, liveness)
        decreases |unread|
      {
        var id :| id in unread;
        StepGood(Now(), Rehydrate(id, Ask(probes, id), Known(liveness, id), now));
        Shrinks(unread, id);
        AdoptsOne(old(unread), records, unread, probes, liveness, id);
        ReconcileOne(id, Ask(probes, id), Known(liveness, id), now);
      }
      AllAdopted(old(unread), records, probes, liveness);
    }
  }

  /** Each record read from the store is in the state its evidence gives; the rest are still to be read. */
  ghost predicate Adopted(listed: map<string, Rec>, records: map<string, Rec>, unread: map<string, Rec>,
                          probes: map<string, Probe>, liveness: map<string, bool>)
  {
    && (forall id | id in listed :: id in records || id in unread)
    && (forall id | id in unread :: id in listed && id !in records && unread[id] == listed[id])
    && (forall id | id in records :: id in listed && records[id] == Resolved(listed[id], id, probes, liveness))
  }

  function Resolved(rec: Rec, id: string, probes: map<string, Probe>, liveness: map<string, bool>): Rec {
    rec.(state := Evidence(rec, Ask(probes, id), Known(liveness, id)))
  }

  lemma StartsAdopted(listed: map<string, Rec>, probes: map<string, Probe>, liveness: map<string, bool>)
    ensures Adopted(listed, map[], listed, probes, liveness)
  {}

  lemma AdoptsOne(listed: map<string, Rec>, records: map<string, Rec>, unread: map<string, Rec>,
                  probes: map<string, Probe>, liveness: map<string, bool>, id: string)
    requires Adopted(listed, records, unread, probes, liveness) && id in unread
    ensures Adopted(listed, records[id := Resolved(unread[id], id, probes, liveness)], unread - {id}, probes, liveness)
  {
    hide Evidence;
  }

  lemma AllAdopted(listed: map<string, Rec>, records: map<string, Rec>, probes: map<string, Probe>, liveness: map<string, bool>)
    requires Adopted(listed, records, map[], probes, liveness)
    ensures records.Keys == listed.Keys && forall id | id in listed :: records[id] == Resolved(listed[id], id, probes, liveness)
  {
    hide Evidence;
  }

  /** A backend nobody could reach answers nothing; a container nobody could ask about is unknown. */
  function Ask(probes: map<string, Probe>, id: string): Probe {
    if id in probes then probes[id] else Silent
  }

  function Known(liveness: map<string, bool>, id: string): Option<bool> {
    if id in liveness then Some(liveness[id]) else None
  }

  lemma Shrinks<T>(m: map<string, T>, id: string)
    requires id in m
    ensures |m - {id}| < |m|
  {
    assert (m - {id}).Keys == m.Keys - {id};
    assert |m.Keys| == |m|;
  }
}
