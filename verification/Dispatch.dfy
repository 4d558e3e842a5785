/** The gateway's failover loop: offer a request to targets until one answers, over the breaker, the retry budget and
    admission, with other requests acting on all three while this one waits. */
module Dispatch {
  import opened Contracts
  import Breaker = CircuitBreakers
  import Budget = RetryBudgets
  import opened Admission

  /** What a target is, and how its turn would go if it gets one. */
  datatype Kind =
    | LocalText(deployment: Deployment, ask: Ask)
    | LocalOther
    | Remote(rewritten: bool, managed: bool, keyResolved: bool)

  datatype Target = Target(id: string, kind: Kind)
  {
    predicate WellFormed() { kind.LocalText? ==> kind.deployment.shape.WellFormed() }
  }

  /** What the proxy says of a send. A managed provider may refuse before anything is sent. */
  datatype Answer = ProviderRefused | Retryable | Final

  /** Another request, or the proxy's own verdict, acting on a shared service. */
  datatype Other =
    | OnBreaker(b: Breaker.Event)
    | OnBudget(r: Budget.Event)
    | OnCommit(id: string, kv: int)
    | OnRelease(id: string, kv: int)

  /** One iteration's inputs: the router's preferences, the clock at the claim, what the proxy answers, what others do
      while this request waits, and the clock afterwards. */
  datatype Turn = Turn(candidates: seq<Target>, at: real, answer: Answer, meanwhile: seq<Other>, after: real)

  /** What this loop did, in order, with what others did in between: to the shared services, a send with what came of it, and
      a refusal of the request itself. */
  datatype Event =
    | Picked(id: string)
    | Began(id: string, attempt: nat, at: real, granted: bool)
    | Took(at: real, granted: bool)
    | GaveBack(id: string, unbudgeted: bool)
    | Held(deployment: Deployment, ask: Ask, kv: int)
    | Sent(id: string, attempt: nat, retryable: bool)
    | Denied(id: string)
    | Elsewhere(other: Other)

  datatype Result = NothingSent | Refused | Answered(id: string) | GaveUp(id: string)

  // ----- the shared services, replayed

  datatype Setup = Setup(breaker: Breaker.Config, budget: Budget.Config, admission: Settings, hasEstimator: bool)

  datatype World = World(circuits: Breaker.Circuits, budget: Budget.State, committed: map<string, int>)

  function ApplyOther(s: Setup, w: World, o: Other): World {
    match o
    case OnBreaker(b) => w.(circuits := Breaker.Step(s.breaker, w.circuits, b))
    case OnBudget(r) => w.(budget := Budget.Step(s.budget, w.budget, r))
    case OnCommit(id, kv) => w.(committed := Commit(w.committed, id, kv))
    case OnRelease(id, kv) => w.(committed := Release(w.committed, id, kv))
  }

  function Apply(s: Setup, w: World, e: Event): World {
    match e
    case Began(id, _, at, _) => w.(circuits := Breaker.Step(s.breaker, w.circuits, Breaker.Begin(id, at)))
    case Took(at, _) => w.(budget := Budget.Step(s.budget, w.budget, Budget.Take(at)))
    case GaveBack(id, _) => w.(circuits := Breaker.Step(s.breaker, w.circuits, Breaker.Abandon(id)))
    case Held(d, _, kv) => w.(committed := Commit(w.committed, d.id, kv))
    case Elsewhere(o) => ApplyOther(s, w, o)
    case _ => w
  }

  /** The answers recorded are the ones the services give in that state. */
  predicate Honest(s: Setup, w: World, e: Event) {
    match e
    case Began(id, _, at, granted) => granted == Breaker.BeginAnswer(s.breaker, w.circuits, id, at)
    case Took(at, granted) => granted == Budget.Grants(s.budget, w.budget, at)
    case Held(d, ask, kv) =>
      d.shape.WellFormed() && Decide(s.admission, s.hasEstimator, d, ask, Committed(w.committed, d.id)) == Admitted(kv)
    case _ => true
  }

  function Replay(s: Setup, w: World, log: seq<Event>): World {
    if log == [] then w else Apply(s, Replay(s, w, log[..|log| - 1]), log[|log| - 1])
  }

  predicate AllHonest(s: Setup, w: World, log: seq<Event>) {
    log == [] || (AllHonest(s, w, log[..|log| - 1]) && Honest(s, Replay(s, w, log[..|log| - 1]), log[|log| - 1]))
  }

  // ----- what is counted

  /** Breaker claims won on a target. */
  function Wins(log: seq<Event>, id: string): nat {
    if log == [] then 0
    else Wins(log[..|log| - 1], id) + if log[|log| - 1].Began? && log[|log| - 1].granted && log[|log| - 1].id == id then 1 else 0
  }

  /** Claims ended: handed to the proxy, or given back. */
  function Ends(log: seq<Event>, id: string): nat {
    if log == [] then 0
    else Ends(log[..|log| - 1], id) + if (log[|log| - 1].Sent? || log[|log| - 1].GaveBack?) && log[|log| - 1].id == id then 1 else 0
  }

  function Picks(log: seq<Event>, id: string): nat {
    if log == [] then 0 else Picks(log[..|log| - 1], id) + if log[|log| - 1] == Picked(id) then 1 else 0
  }

  function Sends(log: seq<Event>): nat {
    if log == [] then 0 else Sends(log[..|log| - 1]) + if log[|log| - 1].Sent? then 1 else 0
  }

  /** Retry tokens granted. */
  function Tokens(log: seq<Event>): nat {
    if log == [] then 0
    else Tokens(log[..|log| - 1]) + if log[|log| - 1].Took? && log[|log| - 1].granted then 1 else 0
  }

  /** Claims won after the first iteration, less those given back for want of a token: the ones kept. */
  function LateKept(log: seq<Event>): int {
    if log == [] then 0
    else
      var e := log[|log| - 1];
      LateKept(log[..|log| - 1])
      + if e.Began? && e.granted && 0 < e.attempt then 1 else if e.GaveBack? && e.unbudgeted then -1 else 0
  }

  /** Nothing is ended before it is won. */
  ghost predicate WonFirst(log: seq<Event>) {
    log == [] || (WonFirst(log[..|log| - 1]) && forall id :: Ends(log, id) <= Wins(log, id))
  }

  /** Every commitment is followed at once by the send that will release it. */
  ghost predicate HeldThenSent(log: seq<Event>) {
    forall i :: 0 <= i < |log| && log[i].Held? ==> i + 1 < |log| && log[i + 1].Sent?
  }

  /** From here on only others acted. */
  ghost predicate OnlyElsewhere(log: seq<Event>, from: nat) {
    forall i :: from <= i < |log| ==> log[i].Elsewhere?
  }

  /** Everything the loop keeps: no target offered twice, and every claim won ended exactly once, but for the one still
      open; one token for every claim kept after the first iteration. */
  ghost predicate Disciplined(log: seq<Event>, tried: set<string>, open: Option<string>) {
    && (forall id :: Picks(log, id) == if id in tried then 1 else 0)
    && (forall id :: Wins(log, id) <= Picks(log, id))
    && (forall id :: Wins(log, id) == Ends(log, id) + if open == Some(id) then 1 else 0)
    && Tokens(log) == LateKept(log)
    && HeldThenSent(log) && WonFirst(log)
  }

  lemma Traced(s: Setup, w: World, log: seq<Event>, e: Event)
    ensures Replay(s, w, log + [e]) == Apply(s, Replay(s, w, log), e)
    ensures AllHonest(s, w, log + [e]) <==> AllHonest(s, w, log) && Honest(s, Replay(s, w, log), e)
  {
    hide Apply, Honest;
    assert (log + [e])[..|log + [e]| - 1] == log;
  }

  lemma Counted(log: seq<Event>, e: Event)
    ensures forall id :: Wins(log + [e], id) == Wins(log, id) + if e.Began? && e.granted && e.id == id then 1 else 0
    ensures forall id :: Ends(log + [e], id) == Ends(log, id) + if (e.Sent? || e.GaveBack?) && e.id == id then 1 else 0
    ensures forall id :: Picks(log + [e], id) == Picks(log, id) + if e == Picked(id) then 1 else 0
    ensures Sends(log + [e]) == Sends(log) + if e.Sent? then 1 else 0
    ensures Tokens(log + [e]) == Tokens(log) + if e.Took? && e.granted then 1 else 0
    ensures LateKept(log + [e]) == LateKept(log)
      + if e.Began? && e.granted && 0 < e.attempt then 1 else if e.GaveBack? && e.unbudgeted then -1 else 0
    ensures HeldThenSent(log) && !e.Held? ==> HeldThenSent(log + [e])
    ensures WonFirst(log) && (forall id :: Ends(log + [e], id) <= Wins(log + [e], id)) ==> WonFirst(log + [e])
  {
    assert (log + [e])[..|log + [e]| - 1] == log;
  }

  /** What one claim writes: the pick, the breaker's answer, and after the first iteration the token's. */
  function ClaimLog(id: string, attempt: nat, at: real, granted: bool, token: bool): seq<Event> {
    if !granted then [Picked(id), Began(id, attempt, at, false)]
    else if attempt == 0 then [Picked(id), Began(id, attempt, at, true)]
    else if token then [Picked(id), Began(id, attempt, at, true), Took(at, true)]
    else [Picked(id), Began(id, attempt, at, true), Took(at, false), GaveBack(id, true)]
  }

  lemma PickKeeps(log: seq<Event>, tried: set<string>, id: string)
    requires Disciplined(log, tried, None) && id !in tried
    ensures Disciplined(log + [Picked(id)], tried + {id}, None) && Sends(log + [Picked(id)]) == Sends(log)
    ensures Wins(log + [Picked(id)], id) == 0
  {
    hide Wins, Ends, Picks, Sends, Tokens, LateKept, HeldThenSent, WonFirst;
    Counted(log, Picked(id));
    assert Wins(log, id) <= Picks(log, id);
  }

  lemma BeginKeeps(log: seq<Event>, tried: set<string>, id: string, attempt: nat, at: real, granted: bool)
    requires Disciplined(log, tried, None) && id in tried && Wins(log, id) == 0 && (granted ==> attempt == 0)
    ensures var after := log + [Began(id, attempt, at, granted)];
            Disciplined(after, tried, if granted then Some(id) else None) && Sends(after) == Sends(log)
  {
    hide Wins, Ends, Picks, Sends, Tokens, LateKept, HeldThenSent, WonFirst;
    Counted(log, Began(id, attempt, at, granted));
  }

  lemma LateBeginKeeps(log: seq<Event>, tried: set<string>, id: string, attempt: nat, at: real, token: bool)
    requires Disciplined(log, tried, None) && id in tried && Wins(log, id) == 0 && 0 < attempt
    ensures var won := log + [Began(id, attempt, at, true)] + [Took(at, token)];
            var after := if token then won else won + [GaveBack(id, true)];
            Disciplined(after, tried, if token then Some(id) else None) && Sends(after) == Sends(log)
  {
    hide Wins, Ends, Picks, Sends, Tokens, LateKept, HeldThenSent, WonFirst;
    var began := log + [Began(id, attempt, at, true)];
    Counted(log, Began(id, attempt, at, true));
    Counted(began, Took(at, token));
    if !token {
      Counted(began + [Took(at, token)], GaveBack(id, true));
    }
  }

  lemma ClaimKeeps(log: seq<Event>, tried: set<string>, id: string, attempt: nat, at: real, granted: bool, token: bool)
    requires Disciplined(log, tried, None) && id !in tried
    ensures var after := log + ClaimLog(id, attempt, at, granted, token);
            && Disciplined(after, tried + {id}, if granted && (attempt == 0 || token) then Some(id) else None)
            && Sends(after) == Sends(log)
  {
    hide Disciplined, Wins, Sends;
    var after := log + ClaimLog(id, attempt, at, granted, token);
    var picked := log + [Picked(id)];
    PickKeeps(log, tried, id);
    if granted && 0 < attempt {
      LateBeginKeeps(picked, tried + {id}, id, attempt, at, token);
      var won := picked + [Began(id, attempt, at, true)] + [Took(at, token)];
      assert after == if token then won else won + [GaveBack(id, true)];
    } else {
      BeginKeeps(picked, tried + {id}, id, attempt, at, granted);
      assert after == picked + [Began(id, attempt, at, granted)];
    }
  }

  lemma GiveBackKeeps(log: seq<Event>, tried: set<string>, id: string)
    requires Disciplined(log, tried, Some(id))
    ensures Disciplined(log + [GaveBack(id, false)], tried, None) && Sends(log + [GaveBack(id, false)]) == Sends(log)
  {
    hide Wins, Ends, Picks, Sends, Tokens, LateKept, HeldThenSent, WonFirst;
    Counted(log, GaveBack(id, false));
  }

  lemma SendKeeps(log: seq<Event>, tried: set<string>, e: Event)
    requires e.Sent? && Disciplined(log, tried, Some(e.id))
    ensures Disciplined(log + [e], tried, None) && Sends(log + [e]) == Sends(log) + 1
  {
    hide Wins, Ends, Picks, Sends, Tokens, LateKept, HeldThenSent, WonFirst;
    Counted(log, e);
  }

  lemma DenyKeeps(log: seq<Event>, tried: set<string>, id: string)
    requires Disciplined(log, tried, None)
    ensures Disciplined(log + [Denied(id)], tried, None) && Sends(log + [Denied(id)]) == Sends(log)
  {
    hide Wins, Ends, Picks, Sends, Tokens, LateKept, HeldThenSent, WonFirst;
    Counted(log, Denied(id));
  }

  lemma HoldAndSendKeeps(log: seq<Event>, tried: set<string>, e: Event, deployment: Deployment, ask: Ask, kv: int)
    requires e.Sent? && Disciplined(log, tried, Some(e.id))
    ensures Disciplined(log + [Held(deployment, ask, kv)] + [e], tried, None)
    ensures Sends(log + [Held(deployment, ask, kv)] + [e]) == Sends(log) + 1
  {
    hide Wins, Ends, Picks, Sends, Tokens, LateKept, WonFirst;
    Counted(log, Held(deployment, ask, kv));
    Counted(log + [Held(deployment, ask, kv)], e);
  }

  lemma ElsewhereKeeps(log: seq<Event>, tried: set<string>, open: Option<string>, o: Other)
    requires Disciplined(log, tried, open)
    ensures Disciplined(log + [Elsewhere(o)], tried, open) && Sends(log + [Elsewhere(o)]) == Sends(log)
  {
    hide Wins, Ends, Picks, Sends, Tokens, LateKept, HeldThenSent, WonFirst;
    Counted(log, Elsewhere(o));
  }

  lemma NoSends(log: seq<Event>)
    requires log == []
    ensures Sends(log) == 0
  {}

  // ----- what the discipline means, event by event

  predicate IsWin(e: Event, id: string) { e.Began? && e.granted && e.id == id }

  predicate IsEnd(e: Event, id: string) { (e.Sent? || e.GaveBack?) && e.id == id }

  lemma {:induction false} NoneCounted(log: seq<Event>, lo: nat, hi: nat, id: string)
    requires lo <= hi <= |log|
    ensures Wins(log[..hi], id) == Wins(log[..lo], id) ==> forall k :: lo <= k < hi ==> !IsWin(log[k], id)
    ensures Ends(log[..hi], id) == Ends(log[..lo], id) ==> forall k :: lo <= k < hi ==> !IsEnd(log[k], id)
    ensures Wins(log[..lo], id) <= Wins(log[..hi], id) && Ends(log[..lo], id) <= Ends(log[..hi], id)
    ensures Wins(log[..hi], id) != Wins(log[..lo], id) ==> exists k :: lo <= k < hi && IsWin(log[k], id)
    ensures Ends(log[..hi], id) != Ends(log[..lo], id) ==> exists k :: lo <= k < hi && IsEnd(log[k], id)
    decreases hi
  {
    if lo < hi {
      NoneCounted(log, lo, hi - 1, id);
      assert log[..hi] == log[..hi - 1] + [log[hi - 1]];
      Counted(log[..hi - 1], log[hi - 1]);
    }
  }

  lemma {:induction false} WonFirstAt(log: seq<Event>, k: nat, id: string)
    requires WonFirst(log) && k <= |log|
    ensures Ends(log[..k], id) <= Wins(log[..k], id)
  {
    if k < |log| {
      WonFirstAt(log[..|log| - 1], k, id);
      assert log[..|log| - 1][..k] == log[..k];
    } else {
      assert log[..k] == log;
    }
  }

  lemma OnlyEnd(log: seq<Event>, j: nat, id: string)
    requires j < |log| && IsEnd(log[j], id) && Ends(log, id) <= 1
    ensures forall k :: 0 <= k < |log| && k != j ==> !IsEnd(log[k], id)
  {
    hide Ends, Wins;
    assert log[..|log|] == log;
    assert log[..j + 1] == log[..j] + [log[j]];
    Counted(log[..j], log[j]);
    NoneCounted(log, 0, j, id);
    NoneCounted(log, j + 1, |log|, id);
    assert Ends(log[..0], id) == 0 by { EmptyCounts(log, id); }
  }

  lemma EmptyCounts(log: seq<Event>, id: string)
    ensures Ends(log[..0], id) == 0 == Wins(log[..0], id)
  {}

  lemma EndIsLater(log: seq<Event>, i: nat, id: string)
    requires WonFirst(log) && i < |log| && IsWin(log[i], id) && Wins(log, id) == Ends(log, id) == 1
    ensures exists j :: i < j < |log| && IsEnd(log[j], id)
  {
    hide Ends, Wins, WonFirst;
    assert log[..|log|] == log;
    assert log[..i + 1] == log[..i] + [log[i]];
    Counted(log[..i], log[i]);
    NoneCounted(log, i + 1, |log|, id);
    WonFirstAt(log, i, id);
  }

  /** When the loop is over, every claim it won was followed by exactly one end: a send or a give-back. */
  lemma ClaimEndsOnce(log: seq<Event>, tried: set<string>, i: nat, id: string)
    requires Disciplined(log, tried, None) && i < |log| && IsWin(log[i], id)
    ensures exists j :: i < j < |log| && IsEnd(log[j], id) && forall k :: 0 <= k < |log| && k != j ==> !IsEnd(log[k], id)
  {
    WonOnce(log, tried, i, id);
    EndIsLater(log, i, id);
    var j :| i < j < |log| && IsEnd(log[j], id);
    OnlyEnd(log, j, id);
  }

  lemma WonOnce(log: seq<Event>, tried: set<string>, i: nat, id: string)
    requires Disciplined(log, tried, None) && i < |log| && IsWin(log[i], id)
    ensures Wins(log, id) == Ends(log, id) == 1
  {
    hide Ends, Wins, Picks, WonFirst, HeldThenSent, Tokens, LateKept;
    assert log[..|log|] == log;
    assert log[..i + 1] == log[..i] + [log[i]];
    Counted(log[..i], log[i]);
    NoneCounted(log, i + 1, |log|, id);
    assert Picks(log, id) <= 1;
    assert Wins(log, id) <= Picks(log, id);
  }

  /** Nothing is sent to a target the breaker did not grant, and nothing is sent to it twice. */
  lemma SentOnlyIfClaimed(log: seq<Event>, tried: set<string>, j: nat, id: string)
    requires Disciplined(log, tried, None) && j < |log| && log[j].Sent? && log[j].id == id
    ensures exists i :: 0 <= i < j && IsWin(log[i], id)
    ensures forall k :: 0 <= k < |log| && k != j ==> !(log[k].Sent? && log[k].id == id)
  {
    hide Ends, Wins, Picks, WonFirst, HeldThenSent, Tokens, LateKept;
    assert Picks(log, id) <= 1 && Wins(log, id) <= Picks(log, id) && Wins(log, id) == Ends(log, id);
    OnlyEnd(log, j, id);
    WonBefore(log, j, id);
  }

  lemma WonBefore(log: seq<Event>, j: nat, id: string)
    requires WonFirst(log) && j < |log| && log[j].Sent? && log[j].id == id
    ensures exists i :: 0 <= i < j && IsWin(log[i], id)
  {
    hide Ends, Wins, WonFirst;
    assert log[..j + 1] == log[..j] + [log[j]];
    Counted(log[..j], log[j]);
    WonFirstAt(log, j + 1, id);
    NoneCounted(log, 0, j, id);
    EmptyCounts(log, id);
  }

  // ----- the loop

  /** The router's answer: its first preference outside the exclusion set. */
  function Select(candidates: seq<Target>, exclude: set<string>): (r: Option<Target>)
    ensures r.Some? ==> exists k :: 0 <= k < |candidates| && candidates[k] == r.value && r.value.id !in exclude
                                    && forall j :: 0 <= j < k ==> candidates[j].id in exclude
    ensures r.None? ==> forall j :: 0 <= j < |candidates| ==> candidates[j].id in exclude
  {
    if candidates == [] then None
    else if candidates[0].id !in exclude then Some(candidates[0])
    else Select(candidates[1..], exclude)
  }

  datatype Claim = Skip | Stop | Won(target: Target)

  /** The breaker's refusal skips the target, a missing token stops the loop, and anything else wins it. */
  ghost predicate ClaimedAs(before: seq<Event>, target: Target, attempt: nat, at: real, claim: Claim, after: seq<Event>) {
    exists granted, token ::
      && after == before + ClaimLog(target.id, attempt, at, granted, token)
      && claim == if !granted then Skip else if attempt == 0 || token then Won(target) else Stop
  }

  datatype Outcome = Nothing | Refusal | Attempt(id: string, retryable: bool)

  /** A send to a text deployment is preceded by the commitment admission priced, and nothing else is ever committed. */
  ghost predicate SentAs(settings: Settings, hasEstimator: bool, committed: map<string, int>, target: Target, outcome: Outcome,
                         before: seq<Event>, after: seq<Event>)
    requires target.WellFormed()
  {
    && before <= after
    && (outcome.Attempt? && target.kind.LocalText? ==>
          var d, ask := target.kind.deployment, target.kind.ask;
          && |before| + 2 <= |after| && after[|before| + 1].Sent? && after[|before| + 1].id == target.id && OnlyElsewhere(after, |before| + 2)
          && after[|before|].Held? && after[|before|].deployment == d && after[|before|].ask == ask
          && Decide(settings, hasEstimator, d, ask, Committed(committed, d.id)) == Admitted(after[|before|].kv))
    && (!(outcome.Attempt? && target.kind.LocalText?) ==> forall i :: |before| <= i < |after| ==> !after[i].Held?)
  }

  // ----- what the loop ends on

  /** An answer that is passed on, or a refusal of the request itself. */
  predicate Settles(e: Event) { (e.Sent? && !e.retryable) || e.Denied? }

  ghost predicate Unsettled(log: seq<Event>) { forall i :: 0 <= i < |log| ==> !Settles(log[i]) }

  /** After it only others act: nothing more is picked, claimed or sent. */
  ghost predicate SettledLast(log: seq<Event>) {
    forall i, j :: 0 <= i < j < |log| && Settles(log[i]) ==> log[j].Elsewhere?
  }

  /** The last send of the log went there, with that outcome. */
  ghost predicate LastSent(log: seq<Event>, id: string, retryable: bool) {
    exists i :: 0 <= i < |log| && log[i].Sent? && log[i].id == id && log[i].retryable == retryable
                && forall j :: i < j < |log| ==> !log[j].Sent?
  }

  ghost predicate SomeAnswered(log: seq<Event>) { exists i :: 0 <= i < |log| && log[i].Sent? && !log[i].retryable }

  ghost predicate SomeDenied(log: seq<Event>) { exists i :: 0 <= i < |log| && log[i].Denied? }

  /** Every send before this iteration was retryable and came back in time. */
  ghost predicate InTime(log: seq<Event>, turns: seq<Turn>, upTo: nat, deadline: real) {
    forall i :: 0 <= i < |log| && log[i].Sent? && log[i].attempt < upTo ==>
      log[i].retryable && log[i].attempt < |turns| && turns[log[i].attempt].after < deadline
  }

  /** One turn's part of the log: at most the one send, or the one refusal, and no pick. */
  ghost predicate Turned(before: seq<Event>, after: seq<Event>, attempt: nat, id: string, outcome: Outcome) {
    && before <= after
    && (match outcome
        case Attempt(_, retryable) =>
          exists i :: |before| <= i < |after| && after[i] == Sent(id, attempt, retryable) && OnlyElsewhere(after, i + 1)
                      && forall j :: |before| <= j < i ==> !after[j].Sent? && !after[j].Denied? && !after[j].Picked?
        case Refusal =>
          && |before| < |after| && after[|after| - 1] == Denied(id)
          && forall j :: |before| <= j < |after| - 1 ==> !after[j].Sent? && !after[j].Denied? && !after[j].Picked?
        case Nothing => forall j :: |before| <= j < |after| ==> !after[j].Sent? && !after[j].Denied? && !after[j].Picked?)
  }

  lemma TurnIs(before: seq<Event>, until: seq<Event>, after: seq<Event>, attempt: nat, id: string, retryable: bool)
    requires before <= until && until + [Sent(id, attempt, retryable)] <= after && OnlyElsewhere(after, |until| + 1)
    requires forall j :: |before| <= j < |until| ==> !until[j].Sent? && !until[j].Denied? && !until[j].Picked?
    ensures Turned(before, after, attempt, id, Attempt(id, retryable))
  {
    assert after[|until|] == Sent(id, attempt, retryable);
    assert forall j :: 0 <= j < |until| ==> after[j] == until[j];
  }

  /** A turn that sent nothing. */
  lemma TurnEnds(before: seq<Event>, after: seq<Event>, attempt: nat, id: string, outcome: Outcome)
    requires before <= after && outcome in {Nothing, Refusal}
    requires outcome == Refusal ==> |before| < |after| && after[|after| - 1] == Denied(id)
    requires var end := if outcome == Refusal then |after| - 1 else |after|;
      forall j :: |before| <= j < end ==> !after[j].Sent? && !after[j].Denied? && !after[j].Picked?
    ensures Turned(before, after, attempt, id, outcome)
  {}

  /** A claim sends and refuses nothing. */
  lemma ClaimUnsettled(before: seq<Event>, after: seq<Event>, target: Target, attempt: nat, at: real, claim: Claim)
    requires ClaimedAs(before, target, attempt, at, claim, after)
    ensures Idle(before, after)
  {}

  /** Where an iteration starts: nothing has settled, every send so far came back in time, and the last one is remembered. */
  ghost predicate Going(log: seq<Event>, turns: seq<Turn>, attempt: nat, last: Option<string>, deadline: real) {
    && Unsettled(log) && InTime(log, turns, attempt, deadline)
    && (forall i :: 0 <= i < |log| && log[i].Sent? ==> log[i].attempt < attempt)
    && (match last case Some(id) => LastSent(log, id, true) case None => forall i :: 0 <= i < |log| ==> !log[i].Sent?)
  }

  /** What a run of the loop comes to. An answer is returned exactly when a send got one that is not retryable, and it is the
      last send's; a refusal exactly when the request was refused; nothing follows either but what others do; giving up names the
      last send, which was retryable; and every send of an earlier iteration was retryable and back before the deadline. */
  ghost predicate Concluded(log: seq<Event>, turns: seq<Turn>, used: nat, deadline: real, result: Result) {
    && (result.Answered? <==> SomeAnswered(log)) && (result == Refused <==> SomeDenied(log)) && SettledLast(log)
    && InTime(log, turns, if used == 0 then 0 else used - 1, deadline)
    && (result.Answered? ==> LastSent(log, result.id, false)) && (result.GaveUp? ==> LastSent(log, result.id, true))
    && (result == NothingSent ==> forall i :: 0 <= i < |log| ==> !log[i].Sent?)
  }

  lemma Starts(turns: seq<Turn>, deadline: real)
    ensures Going([], turns, 0, None, deadline)
  {}

  /** Nothing sent, nothing refused. */
  ghost predicate Idle(before: seq<Event>, after: seq<Event>) {
    before <= after && forall j :: |before| <= j < |after| ==> !after[j].Sent? && !after[j].Denied?
  }

  lemma StillGoing(before: seq<Event>, after: seq<Event>, turns: seq<Turn>, attempt: nat, last: Option<string>, deadline: real)
    requires Idle(before, after) && Going(before, turns, attempt, last, deadline)
    ensures Going(after, turns, attempt, last, deadline) && Going(after, turns, attempt + 1, last, deadline)
  {
    if last.Some? {
      var i :| 0 <= i < |before| && before[i].Sent? && before[i].id == last.value && before[i].retryable
               && forall j :: i < j < |before| ==> !before[j].Sent?;
      assert after[i] == before[i];
    }
    assert forall j :: 0 <= j < |before| ==> after[j] == before[j];
  }

  lemma RunsOut(log: seq<Event>, turns: seq<Turn>, attempt: nat, last: Option<string>, deadline: real, used: nat)
    requires Going(log, turns, attempt, last, deadline) && used <= attempt + 1
    ensures Concluded(log, turns, used, deadline, if last.None? then NothingSent else GaveUp(last.value))
  {}

  /** What a turn that sent leaves. */
  lemma TurnSent(before: seq<Event>, after: seq<Event>, attempt: nat, last: Option<string>, id: string, retryable: bool,
                 turns: seq<Turn>, deadline: real)
    requires Going(before, turns, attempt, last, deadline) && Turned(before, after, attempt, id, Attempt(id, retryable))
    requires attempt < |turns|
    ensures !retryable ==> Concluded(after, turns, attempt + 1, deadline, Answered(id))
    ensures retryable ==> Concluded(after, turns, attempt + 1, deadline, GaveUp(id))
    ensures retryable && turns[attempt].after < deadline ==> Going(after, turns, attempt + 1, Some(id), deadline)
  {
    var i :| |before| <= i < |after| && after[i] == Sent(id, attempt, retryable) && OnlyElsewhere(after, i + 1)
             && forall j :: |before| <= j < i ==> !after[j].Sent? && !after[j].Denied? && !after[j].Picked?;
    assert forall j :: 0 <= j < |before| ==> after[j] == before[j];
    assert forall j :: 0 <= j < |after| && Settles(after[j]) ==> j == i;
    assert LastSent(after, id, retryable);
  }

  lemma TurnDenied(before: seq<Event>, after: seq<Event>, attempt: nat, last: Option<string>, id: string, turns: seq<Turn>,
                   deadline: real)
    requires Going(before, turns, attempt, last, deadline) && Turned(before, after, attempt, id, Refusal)
    ensures Concluded(after, turns, attempt + 1, deadline, Refused)
  {
    assert forall j :: 0 <= j < |before| ==> after[j] == before[j];
    assert after[|after| - 1].Denied?;
    assert forall j :: 0 <= j < |after| && Settles(after[j]) ==> j == |after| - 1;
  }

  lemma TurnIdle(before: seq<Event>, after: seq<Event>, attempt: nat, id: string)
    requires Turned(before, after, attempt, id, Nothing)
    ensures Idle(before, after)
  {}

  // ----- what is never sent

  /** Whatever is committed was within its deployment's configured context. */
  lemma {:induction false} HeldWithin(s: Setup, w: World, log: seq<Event>)
    requires AllHonest(s, w, log)
    ensures forall i :: 0 <= i < |log| && log[i].Held? ==> !Overlong(log[i].deployment, log[i].ask)
  {
    hide Apply, KvCost, KvBudget, Requested;
    if log != [] {
      HeldWithin(s, w, log[..|log| - 1]);
    }
  }

  /** Why the loop ended. */
  datatype Ending = AllTried | NoTarget | NoToken | OutOfTime | Settled

  class Dispatcher {
    const breaker: Breaker.CircuitBreaker
    const budget: Budget.RetryBudget
    const admission: AdmissionController
    var tried: set<string>
    ghost var log: seq<Event>
    ghost const start: World

    constructor (breaker: Breaker.CircuitBreaker, budget: Budget.RetryBudget, admission: AdmissionController)
      ensures this.breaker == breaker && this.budget == budget && this.admission == admission
      ensures tried == {} && log == [] && start == Now()
    {
      this.breaker, this.budget, this.admission := breaker, budget, admission;
      tried, log := {}, [];
      start := World(breaker.circuits, budget.Now(), admission.committed);
    }

    function Services(): Setup {
      Setup(breaker.cfg, budget.cfg, admission.settings, admission.hasEstimator)
    }

    function Now(): World
      reads breaker, budget, admission`committed
    {
      World(breaker.circuits, budget.Now(), admission.committed)
    }

    /** The log says exactly what happened to the shared services, with the answers they gave. */
    ghost predicate Faithful()
      reads this, breaker, budget, admission`committed
    {
      Now() == Replay(Services(), start, log) && AllHonest(Services(), start, log)
    }

    ghost predicate Valid(open: Option<string>)
      reads this, breaker, budget, admission`committed
    {
      Faithful() && Disciplined(log, tried, open)
    }

    method Begin(id: string, attempt: nat, at: real) returns (granted: bool)
      requires Faithful()
      modifies this`log, breaker
      ensures Faithful() && log == old(log) + [Began(id, attempt, at, granted)]
    {
      hide Replay, AllHonest, Breaker.Step, Breaker.BeginAnswer, Budget.RetryBudget.Now;
      granted := breaker.TryBegin(id, at);
      Traced(Services(), start, log, Began(id, attempt, at, granted));
      log := log + [Began(id, attempt, at, granted)];
    }

    method Take(at: real) returns (granted: bool)
      requires Faithful()
      modifies this`log, budget
      ensures Faithful() && log == old(log) + [Took(at, granted)]
    {
      hide Replay, AllHonest, Budget.Step, Budget.Grants, Budget.RetryBudget.Now;
      granted := budget.TakeOne(at);
      Traced(Services(), start, log, Took(at, granted));
      log := log + [Took(at, granted)];
    }

    method GiveBack(id: string, ghost unbudgeted: bool)
      requires Faithful()
      modifies this`log, breaker
      ensures Faithful() && log == old(log) + [GaveBack(id, unbudgeted)]
    {
      hide Replay, AllHonest, Breaker.Step, Budget.RetryBudget.Now;
      breaker.GiveBack(id);
      Traced(Services(), start, log, GaveBack(id, unbudgeted));
      log := log + [GaveBack(id, unbudgeted)];
    }

    method Hold(deployment: Deployment, ask: Ask, kv: int)
      requires Faithful() && deployment.shape.WellFormed() && admission.Check(deployment, ask) == Admitted(kv)
      modifies this`log, admission`committed
      ensures Faithful() && log == old(log) + [Held(deployment, ask, kv)]
    {
      hide Replay, AllHonest, Commit, Decide, Budget.RetryBudget.Now;
      admission.CommitBytes(deployment.id, kv);
      Traced(Services(), start, log, Held(deployment, ask, kv));
      log := log + [Held(deployment, ask, kv)];
    }

    /** Hand the request to the proxy, which owns the claim and the commitment from here on. */
    ghost method Send(id: string, attempt: nat, retryable: bool)
      requires Faithful()
      modifies this`log
      ensures Faithful() && log == old(log) + [Sent(id, attempt, retryable)]
    {
      hide Replay, AllHonest, Budget.RetryBudget.Now;
      Traced(Services(), start, log, Sent(id, attempt, retryable));
      log := log + [Sent(id, attempt, retryable)];
    }

    /** Commit what admission priced, and hand the request to the proxy, with nothing in between. */
    method HoldAndSend(deployment: Deployment, ask: Ask, kv: int, ghost sent: Event)
      requires sent.Sent? && Valid(Some(sent.id))
      requires deployment.shape.WellFormed() && admission.Check(deployment, ask) == Admitted(kv)
      modifies this`log, admission`committed
      ensures Valid(None) && log == old(log) + [Held(deployment, ask, kv)] + [sent] && Sends(log) == old(Sends(log)) + 1
    {
      hide Disciplined, Replay, AllHonest, Sends, Budget.RetryBudget.Now, Decide;
      HoldAndSendKeeps(log, tried, sent, deployment, ask, kv);
      Hold(deployment, ask, kv);
      Send(sent.id, sent.attempt, sent.retryable);
    }

    /** The request itself is refused. */
    ghost method Deny(id: string)
      requires Valid(None)
      modifies this`log
      ensures Valid(None) && log == old(log) + [Denied(id)] && Sends(log) == old(Sends(log))
    {
      hide Disciplined, Replay, AllHonest, Sends, Budget.RetryBudget.Now;
      Traced(Services(), start, log, Denied(id));
      DenyKeeps(log, tried, id);
      log := log + [Denied(id)];
    }

    /** Others act on the shared services while this request waits. */
    method Wait(others: seq<Other>, ghost open: Option<string>)
      requires Valid(open)
      modifies this`log, breaker, budget, admission`committed
      ensures Valid(open) && Sends(log) == old(Sends(log))
      ensures old(log) <= log && OnlyElsewhere(log, |old(log)|)
      ensures |log| == |old(log)| + |others| && forall i :: 0 <= i < |others| ==> log[|old(log)| + i] == Elsewhere(others[i])
    {
      hide ApplyOther, Disciplined, Sends, Replay, AllHonest, Budget.RetryBudget.Now;
      for i := 0 to |others|
        invariant Valid(open) && Sends(log) == old(Sends(log))
        invariant old(log) <= log && OnlyElsewhere(log, |old(log)|)
        invariant |log| == |old(log)| + i && forall k :: 0 <= k < i ==> log[|old(log)| + k] == Elsewhere(others[k])
      {
        Act(others[i]);
        Traced(Services(), start, log, Elsewhere(others[i]));
        ElsewhereKeeps(log, tried, open, others[i]);
        log := log + [Elsewhere(others[i])];
      }
    }

    method Act(o: Other)
      modifies breaker, budget, admission`committed
      ensures Now() == ApplyOther(Services(), old(Now()), o)
    {
      hide Breaker.Step, Budget.Step, Commit, Release, Budget.RetryBudget.Now;
      match o
      case OnBreaker(b) => Meddle(b);
      case OnBudget(r) => Spend(r);
      case OnCommit(id, kv) => admission.CommitBytes(id, kv);
      case OnRelease(id, kv) => admission.ReleaseBytes(id, kv);
    }

    method Meddle(b: Breaker.Event)
      modifies breaker
      ensures breaker.circuits == Breaker.Step(breaker.cfg, old(breaker.circuits), b)
    {
      match b
      case Failure(id, at) => breaker.RecordTransportFailure(id, at);
      case Success(id) => breaker.RecordSuccess(id);
      case Begin(id, at) => var _ := breaker.TryBegin(id, at);
      case Abandon(id) => breaker.GiveBack(id);
      case Forget(id) => breaker.Drop(id);
      case Retain(ids) => breaker.Keep(ids);
    }

    method Spend(r: Budget.Event)
      modifies budget
      ensures budget.Now() == Budget.Step(budget.cfg, old(budget.Now()), r)
    {
      match r
      case Request(at) => budget.NoteRequest(at);
      case Take(at) => var _ := budget.TakeOne(at);
      case Look(at) => var _, _, _, _ := budget.Snapshot(at);
    }

    /** Pick the next untried target and take the right to send to it: the breaker's, and a token after the first
        iteration. A claim won without a token to spend on it is given back. */
    method ClaimNext(attempt: nat, turn: Turn) returns (claim: Claim)
      requires Valid(None)
      modifies this, breaker, budget
      ensures Valid(if claim.Won? then Some(claim.target.id) else None) && Sends(log) == old(Sends(log))
      ensures var selection := Select(turn.candidates, old(tried));
        if selection.None? then claim == Stop && tried == old(tried) && log == old(log)
        else
          && tried == old(tried) + {selection.value.id} && ClaimedAs(old(log), selection.value, attempt, turn.at, claim, log)
          && selection.value.id !in old(tried)
      ensures claim.Won? ==> claim.target in turn.candidates && claim.target.id in tried
      ensures claim == Stop && tried != old(tried) ==> 0 < attempt && 3 <= |log| && log[|log| - 2] == Took(turn.at, false)
    {
      hide Disciplined, Replay, AllHonest, Sends, Budget.RetryBudget.Now, Select;
      var selection := Select(turn.candidates, tried);
      if selection.None? {
        return Stop;
      }
      var target := selection.value;
      ghost var before := log;
      ghost var untried := tried;
      NotePick(target.id);
      var granted := Begin(target.id, attempt, turn.at);
      if !granted {
        assert log == before + ClaimLog(target.id, attempt, turn.at, false, false);
        ClaimKeeps(before, untried, target.id, attempt, turn.at, false, false);
        return Skip;
      }
      if 0 < attempt {
        var token := Take(turn.at);
        if !token {
          GiveBack(target.id, true);
          assert log == before + ClaimLog(target.id, attempt, turn.at, true, false);
          ClaimKeeps(before, untried, target.id, attempt, turn.at, true, false);
          return Stop;
        }
      }
      assert log == before + ClaimLog(target.id, attempt, turn.at, true, true);
      ClaimKeeps(before, untried, target.id, attempt, turn.at, true, true);
      return Won(target);
    }

    method NotePick(id: string)
      requires Faithful()
      modifies this
      ensures Faithful() && log == old(log) + [Picked(id)] && tried == old(tried) + {id}
    {
      hide Replay, AllHonest, Budget.RetryBudget.Now;
      tried := tried + {id};
      Traced(Services(), start, log, Picked(id));
      log := log + [Picked(id)];
    }

    /** One target's turn, from admission to the proxy's answer. */
    method AttemptOn(target: Target, attempt: nat, turn: Turn) returns (outcome: Outcome)
      requires Valid(Some(target.id)) && target.WellFormed()
      modifies this`log, breaker, budget, admission`committed
      ensures Valid(None)
      ensures Sends(log) == old(Sends(log)) + if outcome.Attempt? then 1 else 0
      ensures outcome.Attempt? ==> outcome.id == target.id && outcome.retryable == (turn.answer == Retryable)
      ensures SentAs(admission.settings, admission.hasEstimator, old(admission.committed), target, outcome, old(log), log)
      ensures Turned(old(log), log, attempt, target.id, outcome)
      ensures (outcome == Refusal) == match target.kind
        case LocalText(d, ask) =>
          var cost := KvCost(admission.settings, admission.hasEstimator, d, Requested(admission.settings, ask));
          var budget := KvBudget(admission.settings, d);
          Overlong(d, ask) || (0 < budget && budget < Committed(old(admission.committed), d.id) + cost)
        case LocalOther => false
        case Remote(rewritten, managed, keyResolved) => rewritten && !managed && !keyResolved
      ensures (outcome == Nothing) == match target.kind
        case Remote(rewritten, managed, keyResolved) => !rewritten || (managed && turn.answer == ProviderRefused)
        case _ => false
    {
      hide Dispatcher.Valid, Sends, Decide, KvCost, KvBudget, Requested, Overlong, Turned;
      var retryable := turn.answer == Retryable;
      match target.kind
      case LocalText(d, ask) =>
        var decision := admission.Check(d, ask);
        DecisionIs(admission.settings, admission.hasEstimator, d, ask, Committed(admission.committed, d.id));
        if !decision.Admitted? {
          Withdraw(target.id);
          Deny(target.id);
          TurnEnds(old(log), log, attempt, target.id, Refusal);
          return Refusal;
        }
        ghost var held := log + [Held(d, ask, decision.kvBytes)];
        HoldAndSend(d, ask, decision.kvBytes, Sent(target.id, attempt, retryable));
        Wait(turn.meanwhile, None);
        TurnIs(old(log), held, log, attempt, target.id, retryable);
        return Attempt(target.id, retryable);
      case LocalOther =>
        ghost var before := log;
        Deliver(target.id, attempt, retryable, turn.meanwhile);
        TurnIs(old(log), before, log, attempt, target.id, retryable);
        return Attempt(target.id, retryable);
      case Remote(rewritten, managed, keyResolved) =>
        if !rewritten {
          Withdraw(target.id);
          TurnEnds(old(log), log, attempt, target.id, Nothing);
          return Nothing;
        }
        if !managed && !keyResolved {
          Wait(turn.meanwhile, Some(target.id));
          Withdraw(target.id);
          Deny(target.id);
          TurnEnds(old(log), log, attempt, target.id, Refusal);
          return Refusal;
        }
        if managed && turn.answer == ProviderRefused {
          Wait(turn.meanwhile, Some(target.id));
          Withdraw(target.id);
          TurnEnds(old(log), log, attempt, target.id, Nothing);
          return Nothing;
        }
        ghost var before := log;
        Deliver(target.id, attempt, retryable, turn.meanwhile);
        TurnIs(old(log), before, log, attempt, target.id, retryable);
        return Attempt(target.id, retryable);
    }

    method Withdraw(id: string)
      requires Valid(Some(id))
      modifies this`log, breaker
      ensures Valid(None) && Sends(log) == old(Sends(log)) && log == old(log) + [GaveBack(id, false)]
    {
      hide Disciplined, Replay, AllHonest, Sends, Budget.RetryBudget.Now;
      GiveBackKeeps(log, tried, id);
      GiveBack(id, false);
    }

    method Deliver(id: string, ghost attempt: nat, ghost retryable: bool, others: seq<Other>)
      requires Valid(Some(id))
      modifies this`log, breaker, budget, admission`committed
      ensures Valid(None) && Sends(log) == old(Sends(log)) + 1
      ensures old(log) + [Sent(id, attempt, retryable)] <= log && OnlyElsewhere(log, |old(log)| + 1)
    {
      hide Disciplined, Replay, AllHonest, Sends, Budget.RetryBudget.Now;
      SendKeeps(log, tried, Sent(id, attempt, retryable));
      Send(id, attempt, retryable);
      Wait(others, None);
    }

    /** Offer the request to targets until one answers. Every iteration begun picks a new target, unless there is none; the
        loop stops early only for want of a target, a token or time, or because the request is answered or refused -- and then
        it stops: nothing is picked after an answer that is not retryable, a refusal, or an answer past the deadline. */
    method Offer(turns: seq<Turn>, deadline: real) returns (result: Result, ghost used: nat, ghost why: Ending)
      requires Valid(None) && tried == {} && log == []
      requires forall i, t :: 0 <= i < |turns| && t in turns[i].candidates ==> t.WellFormed()
      modifies this, breaker, budget, admission`committed
      ensures Valid(None)
      ensures Sends(log) <= used <= |turns|
      ensures |tried| == if why == NoTarget then used - 1 else used
      ensures result == NothingSent ==> Sends(log) == 0
      ensures result.Answered? || result.GaveUp? ==> 1 <= Sends(log) && result.id in tried
      ensures Concluded(log, turns, used, deadline, result)
      ensures forall i :: 0 <= i < |log| && log[i].Held? ==> !Overlong(log[i].deployment, log[i].ask)
      ensures why == Settled <==> result.Answered? || result == Refused
      ensures why == AllTried ==> used == |turns|
      ensures why == NoTarget ==> 1 <= used && Select(turns[used - 1].candidates, tried).None?
      ensures why == NoToken ==> 2 <= used && 3 <= |log| && log[|log| - 2] == Took(turns[used - 1].at, false)
      ensures why == OutOfTime ==> 1 <= used && result.GaveUp? && deadline <= turns[used - 1].after
      ensures result.Answered? ==> 1 <= used && turns[used - 1].answer != Retryable
    {
      hide *;
      NoSends(log);
      Starts(turns, deadline);
      var last: Option<string> := None;
      used, why := 0, AllTried;
      for attempt := 0 to |turns|
        invariant Valid(None) && used == attempt && |tried| == used && why == AllTried
        invariant Sends(log) <= attempt
        invariant last.None? <==> Sends(log) == 0
        invariant last.Some? ==> last.value in tried
        invariant Going(log, turns, attempt, last, deadline)
      {
        ghost var before, logged := tried, log;
        used := attempt + 1;
        var claim := ClaimNext(attempt, turns[attempt]);
        ghost var selection := Select(turns[attempt].candidates, before);
        ClaimIdle(logged, log, selection, attempt, turns[attempt].at, claim);
        StillGoing(logged, log, turns, attempt, last, deadline);
        if claim == Stop {
          why := if selection.None? then NoTarget else NoToken;
          break;
        }
        if claim == Skip {
          continue;
        }
        ghost var claimed := log;
        var outcome := AttemptOn(claim.target, attempt, turns[attempt]);
        if outcome == Nothing {
          TurnIdle(claimed, log, attempt, claim.target.id);
          StillGoing(claimed, log, turns, attempt, last, deadline);
          continue;
        }
        if outcome == Refusal {
          TurnDenied(claimed, log, attempt, last, claim.target.id, turns, deadline);
          CommittedWithin();
          return Refused, used, Settled;
        }
        TurnSent(claimed, log, attempt, last, claim.target.id, outcome.retryable, turns, deadline);
        if !outcome.retryable {
          CommittedWithin();
          return Answered(outcome.id), used, Settled;
        }
        last := Some(outcome.id);
        if deadline <= turns[attempt].after {
          CommittedWithin();
          return GaveUp(outcome.id), used, OutOfTime;
        }
      }
      RunsOut(log, turns, if why == AllTried then used else used - 1, last, deadline, used);
      CommittedWithin();
      return if last.None? then NothingSent else GaveUp(last.value), used, why;
    }

    lemma CommittedWithin()
      requires Valid(None)
      ensures forall i :: 0 <= i < |log| && log[i].Held? ==> !Overlong(log[i].deployment, log[i].ask)
    {
      HeldWithin(Services(), start, log);
    }
  }

  lemma ClaimIdle(before: seq<Event>, after: seq<Event>, selection: Option<Target>, attempt: nat, at: real, claim: Claim)
    requires if selection.None? then after == before else ClaimedAs(before, selection.value, attempt, at, claim, after)
    ensures Idle(before, after)
  {
    if selection.Some? {
      ClaimUnsettled(before, after, selection.value, attempt, at, claim);
    }
  }
}
