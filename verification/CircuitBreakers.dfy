/** The gateway's per-target circuit breaker, against the history of what each target did. */
module CircuitBreakers {
  import opened Contracts

  datatype Config = Config(threshold: int, cooldown: real)

  datatype Circuit = Circuit(failures: nat, openedAt: Option<real>, probing: bool)

  type Circuits = map<string, Circuit>

  datatype Event =
    | Failure(id: string, at: real)
    | Success(id: string)
    | Begin(id: string, at: real)
    | Abandon(id: string)
    | Forget(id: string)
    | Retain(ids: set<string>)

  datatype CircuitState = Closed | Open | HalfOpen

  function StateOf(cfg: Config, circuits: Circuits, id: string, now: real): CircuitState {
    if id !in circuits || circuits[id].openedAt.None? then Closed
    else if now - circuits[id].openedAt.value < cfg.cooldown then Open
    else HalfOpen
  }

  /** Whether a dispatch may send to this target now. */
  predicate BeginAnswer(cfg: Config, circuits: Circuits, id: string, now: real) {
    id !in circuits || circuits[id].openedAt.None?
    || (cfg.cooldown <= now - circuits[id].openedAt.value && !circuits[id].probing)
  }

  function Step(cfg: Config, circuits: Circuits, e: Event): Circuits {
    match e
    case Failure(id, at) =>
      var c := if id in circuits then circuits[id] else Circuit(0, None, false);
      var opens := c.openedAt.Some? || cfg.threshold <= c.failures + 1;
      circuits[id := Circuit(c.failures + 1, if opens then Some(at) else None, false)]
    case Success(id) =>
      if id in circuits then circuits[id := Circuit(0, None, false)] else circuits
    case Begin(id, at) =>
      if id in circuits && circuits[id].openedAt.Some? && BeginAnswer(cfg, circuits, id, at)
      then circuits[id := circuits[id].(probing := true)]
      else circuits
    case Abandon(id) =>
      if id in circuits then circuits[id := circuits[id].(probing := false)] else circuits
    case Forget(id) => circuits - {id}
    case Retain(ids) => map id | id in circuits && id in ids :: circuits[id]
  }

  class CircuitBreaker {
    const cfg: Config
    var circuits: Circuits

    constructor (cfg: Config)
      ensures this.cfg == cfg && circuits == map[]
    {
      this.cfg := cfg;
      circuits := map[];
    }

    method RecordTransportFailure(id: string, now: real)
      modifies this
      ensures circuits == Step(cfg, old(circuits), Failure(id, now))
    {
      if id !in circuits {
        circuits := circuits[id := Circuit(0, None, false)];
      }
      var c := circuits[id];
      c := c.(failures := c.failures + 1, probing := false);
      if c.openedAt.Some? || cfg.threshold <= c.failures {
        c := c.(openedAt := Some(now));
      }
      circuits := circuits[id := c];
    }

    method RecordSuccess(id: string)
      modifies this
      ensures circuits == Step(cfg, old(circuits), Success(id))
    {
      if id in circuits {
        circuits := circuits[id := Circuit(0, None, false)];
      }
    }

    method TryBegin(id: string, now: real) returns (granted: bool)
      modifies this
      ensures granted == BeginAnswer(cfg, old(circuits), id, now)
      ensures circuits == Step(cfg, old(circuits), Begin(id, now))
    {
      if id !in circuits || circuits[id].openedAt.None? {
        return true;
      }
      if now - circuits[id].openedAt.value < cfg.cooldown {
        return false;
      }
      if circuits[id].probing {
        return false;
      }
      circuits := circuits[id := circuits[id].(probing := true)];
      return true;
    }

    method GiveBack(id: string)
      modifies this
      ensures circuits == Step(cfg, old(circuits), Abandon(id))
    {
      if id in circuits {
        circuits := circuits[id := circuits[id].(probing := false)];
      }
    }

    method Drop(id: string)
      modifies this
      ensures circuits == Step(cfg, old(circuits), Forget(id))
    {
      circuits := circuits - {id};
    }

    method Keep(ids: set<string>)
      modifies this
      ensures circuits == Step(cfg, old(circuits), Retain(ids))
    {
      var gone := circuits.Keys - ids;
      while gone != {}
        invariant gone * ids == {}
        invariant forall id :: id in circuits <==> id in old(circuits) && (id in ids || id in gone)
        invariant forall id <- circuits :: circuits[id] == old(circuits)[id]
        decreases |gone|
      {
        var id :| id in gone;
        circuits := circuits - {id};
        gone := gone - {id};
      }
    }
  }

  // ----- the history

  function Run(cfg: Config, es: seq<Event>): Circuits {
    if es == [] then map[] else Step(cfg, Run(cfg, es[..|es| - 1]), es[|es| - 1])
  }

  /** The target answered, or left the table. */
  predicate Resets(e: Event, id: string) {
    e == Success(id) || e == Forget(id) || (e.Retain? && id !in e.ids)
  }

  /** Anything that settles an outstanding probe. */
  predicate Settles(e: Event, id: string) {
    Resets(e, id) || e == Abandon(id) || (e.Failure? && e.id == id)
  }

  function FailuresSince(es: seq<Event>, id: string): nat {
    if es == [] || Resets(es[|es| - 1], id) then 0
    else FailuresSince(es[..|es| - 1], id) + if es[|es| - 1].Failure? && es[|es| - 1].id == id then 1 else 0
  }

  /** The latest failure since the target last answered or was forgotten. */
  function LastFailure(es: seq<Event>, id: string): Option<real> {
    if es == [] || Resets(es[|es| - 1], id) then None
    else if es[|es| - 1].Failure? && es[|es| - 1].id == id then Some(es[|es| - 1].at)
    else LastFailure(es[..|es| - 1], id)
  }

  /** Enough failures in a row. */
  predicate Tripped(cfg: Config, es: seq<Event>, id: string) {
    1 <= FailuresSince(es, id) && cfg.threshold <= FailuresSince(es, id)
  }

  /** A request to send now is granted, told from the history alone. */
  predicate Grantable(cfg: Config, es: seq<Event>, id: string, now: real) {
    Tripped(cfg, es, id) ==>
      LastFailure(es, id).Some? && cfg.cooldown <= now - LastFailure(es, id).value && !ProbeOut(cfg, es, id)
  }

  /** A probe was granted to the tripped target and nothing has settled it since. */
  predicate ProbeOut(cfg: Config, es: seq<Event>, id: string)
    decreases |es|
  {
    if es == [] then false
    else
      var before, e := es[..|es| - 1], es[|es| - 1];
      if Settles(e, id) then false
      else
        || ProbeOut(cfg, before, id)
        || (e.Begin? && e.id == id && Tripped(cfg, before, id)
            && LastFailure(before, id).Some? && cfg.cooldown <= e.at - LastFailure(before, id).value)
  }

  lemma {:induction false} TrippedHasFailure(es: seq<Event>, id: string)
    ensures LastFailure(es, id).Some? <==> 1 <= FailuresSince(es, id)
  {
    if es != [] {
      TrippedHasFailure(es[..|es| - 1], id);
    }
  }

  /** The breaker's record of a target is a function of the target's history. A target is tripped exactly when at least
      the threshold of failures came since its last success or removal, and then it was opened by the latest one. */
  lemma {:induction false} CircuitIsHistory(cfg: Config, es: seq<Event>, id: string)
    ensures var circuits := Run(cfg, es);
      && (id in circuits ==> circuits[id] == Circuit(
            FailuresSince(es, id), if Tripped(cfg, es, id) then LastFailure(es, id) else None, ProbeOut(cfg, es, id)))
      && (id !in circuits ==> FailuresSince(es, id) == 0 && !ProbeOut(cfg, es, id))
  {
    if es != [] {
      CircuitIsHistory(cfg, es[..|es| - 1], id);
      TrippedHasFailure(es[..|es| - 1], id);
    }
  }

  /** A failure came since the target was last removed. */
  predicate Tracked(es: seq<Event>, id: string) {
    if es == [] then false
    else
      var e := es[|es| - 1];
      if e == Forget(id) || (e.Retain? && id !in e.ids) then false
      else (e.Failure? && e.id == id) || Tracked(es[..|es| - 1], id)
  }

  /** A target has a circuit exactly when a failure came since it was last removed: nothing else starts one. */
  lemma {:induction false} TrackedIff(cfg: Config, es: seq<Event>, id: string)
    ensures id in Run(cfg, es) <==> Tracked(es, id)
  {
    hide BeginAnswer;
    if es != [] {
      TrackedIff(cfg, es[..|es| - 1], id);
    }
  }

  /** What the breaker answers, told from the history alone. */
  lemma AnswersAreHistory(cfg: Config, es: seq<Event>, id: string, now: real)
    ensures BeginAnswer(cfg, Run(cfg, es), id, now) <==> Grantable(cfg, es, id, now)
    ensures StateOf(cfg, Run(cfg, es), id, now) == Closed <==> !Tripped(cfg, es, id)
    ensures StateOf(cfg, Run(cfg, es), id, now) == Open <==>
      Tripped(cfg, es, id) && LastFailure(es, id).Some? && now - LastFailure(es, id).value < cfg.cooldown
  {
    CircuitIsHistory(cfg, es, id);
    TrippedHasFailure(es, id);
  }

  /** The `i`th event is a grant to a tripped target: a probe. */
  predicate Probes(cfg: Config, es: seq<Event>, i: nat, id: string)
    requires i < |es|
  {
    es[i].Begin? && es[i].id == id && Tripped(cfg, es[..i], id) && BeginAnswer(cfg, Run(cfg, es[..i]), id, es[i].at)
  }

  /** No grant within the cooldown of the latest failure of a tripped target. */
  lemma NoProbeInCooldown(cfg: Config, es: seq<Event>, i: nat, id: string)
    requires i < |es| && Probes(cfg, es, i, id)
    ensures LastFailure(es[..i], id).Some? && cfg.cooldown <= es[i].at - LastFailure(es[..i], id).value
  {
    AnswersAreHistory(cfg, es[..i], id, es[i].at);
  }

  /** Between two probes of a tripped target something settled the first: it answered, failed, was given back, or the
      target was forgotten. */
  lemma OneProbeAtATime(cfg: Config, es: seq<Event>, i: nat, j: nat, id: string)
    requires i < j < |es| && Probes(cfg, es, i, id) && Probes(cfg, es, j, id)
    ensures exists k :: i < k < j && Settles(es[k], id)
  {
    if forall k :: i < k < j ==> !Settles(es[k], id) {
      AnswersAreHistory(cfg, es[..i], id, es[i].at);
      AnswersAreHistory(cfg, es[..j], id, es[j].at);
      assert es[..i + 1][..i] == es[..i];
      assert ProbeOut(cfg, es[..i + 1], id);
      ProbeStaysOut(cfg, es, i + 1, j, id);
    }
  }

  lemma {:induction false} ProbeStaysOut(cfg: Config, es: seq<Event>, i: nat, j: nat, id: string)
    requires i <= j <= |es| && ProbeOut(cfg, es[..i], id)
    requires forall k :: i <= k < j ==> !Settles(es[k], id)
    ensures ProbeOut(cfg, es[..j], id)
    decreases j
  {
    if i < j {
      ProbeStaysOut(cfg, es, i, j - 1, id);
      assert es[..j][..j - 1] == es[..j - 1];
    }
  }
}
