/** The cap on how much of the cluster's load may be retries: two deques over a trailing window, against the whole
    history of what was asked and granted. */
module RetryBudgets {
  import opened Numbers

  datatype Config = Config(ratio: real, window: real, floor: int)

  datatype Event = Request(at: real) | Take(at: real) | Look(at: real)

  datatype State = State(requests: seq<real>, retries: seq<real>, refused: nat)

  /** Retries the window's traffic pays for. */
  function Allowed(cfg: Config, requests: nat): int {
    Max(cfg.floor, Trunc(requests as real * cfg.ratio))
  }

  /** Pop from the left while the oldest stamp is before the cutoff. */
  function DropOld(stamps: seq<real>, cutoff: real): seq<real> {
    if stamps != [] && stamps[0] < cutoff then DropOld(stamps[1..], cutoff) else stamps
  }

  function Trimmed(cfg: Config, s: State, now: real): State {
    s.(requests := DropOld(s.requests, now - cfg.window), retries := DropOld(s.retries, now - cfg.window))
  }

  /** Whether a retry asked for now is granted. */
  predicate Grants(cfg: Config, s: State, now: real) {
    var t := Trimmed(cfg, s, now);
    |t.retries| < Allowed(cfg, |t.requests|)
  }

  function Step(cfg: Config, s: State, e: Event): State {
    var t := Trimmed(cfg, s, e.at);
    match e
    case Request(at) => t.(requests := t.requests + [at])
    case Take(at) => if Grants(cfg, s, at) then t.(retries := t.retries + [at]) else t.(refused := t.refused + 1)
    case Look(at) => t
  }

  class RetryBudget {
    const cfg: Config
    var requests: seq<real>
    var retries: seq<real>
    var refused: nat

    constructor (cfg: Config)
      ensures this.cfg == cfg && Now() == State([], [], 0)
    {
      this.cfg := cfg;
      requests, retries, refused := [], [], 0;
    }

    function Now(): State
      reads this
    {
      State(requests, retries, refused)
    }

    method Trim(now: real)
      modifies this
      ensures Now() == Trimmed(cfg, old(Now()), now)
    {
      var cutoff := now - cfg.window;
      while requests != [] && requests[0] < cutoff
        invariant DropOld(requests, cutoff) == DropOld(old(requests), cutoff)
        invariant retries == old(retries) && refused == old(refused)
        decreases |requests|
      {
        requests := requests[1..];
      }
      while retries != [] && retries[0] < cutoff
        invariant DropOld(retries, cutoff) == DropOld(old(retries), cutoff)
        invariant requests == DropOld(old(requests), cutoff) && refused == old(refused)
        decreases |retries|
      {
        retries := retries[1..];
      }
    }

    method NoteRequest(now: real)
      modifies this
      ensures Now() == Step(cfg, old(Now()), Request(now))
    {
      Trim(now);
      requests := requests + [now];
    }

    method TakeOne(now: real) returns (granted: bool)
      modifies this
      ensures granted == Grants(cfg, old(Now()), now)
      ensures Now() == Step(cfg, old(Now()), Take(now))
    {
      hide Allowed, DropOld;
      Trim(now);
      var allowed := Allowed(cfg, |requests|);
      if allowed <= |retries| {
        refused := refused + 1;
        return false;
      }
      retries := retries + [now];
      return true;
    }

    method Snapshot(now: real) returns (requestCount: nat, retryCount: nat, allowed: int, refusedCount: nat)
      modifies this
      ensures Now() == Step(cfg, old(Now()), Look(now))
      ensures requestCount == |requests| && retryCount == |retries|
      ensures allowed == Allowed(cfg, |requests|) && refusedCount == old(refused)
    {
      Trim(now);
      return |requests|, |retries|, Allowed(cfg, |requests|), refused;
    }
  }

  // ----- whole runs

  function Run(cfg: Config, es: seq<Event>): State {
    if es == [] then State([], [], 0) else Step(cfg, Run(cfg, es[..|es| - 1]), es[|es| - 1])
  }

  predicate Granted(cfg: Config, es: seq<Event>, i: nat)
    requires i < |es|
  {
    es[i].Take? && Grants(cfg, Run(cfg, es[..i]), es[i].at)
  }

  /** The clock never runs backwards. */
  ghost predicate Monotone(es: seq<Event>) {
    forall i, j :: 0 <= i < j < |es| ==> es[i].at <= es[j].at
  }

  /** When requests arrived, in order. */
  function RequestTimes(es: seq<Event>): seq<real> {
    if es == [] then []
    else RequestTimes(es[..|es| - 1]) + if es[|es| - 1].Request? then [es[|es| - 1].at] else []
  }

  /** When retries were granted, in order. */
  function GrantTimes(cfg: Config, es: seq<Event>): seq<real> {
    if es == [] then []
    else GrantTimes(cfg, es[..|es| - 1]) + if Granted(cfg, es, |es| - 1) then [es[|es| - 1].at] else []
  }

  /** The stamps inside `[lo, hi]`. */
  function Within(stamps: seq<real>, lo: real, hi: real): seq<real> {
    if stamps == [] then []
    else
      var last := stamps[|stamps| - 1];
      Within(stamps[..|stamps| - 1], lo, hi) + if lo <= last <= hi then [last] else []
  }

  ghost predicate Sorted(stamps: seq<real>) {
    forall i, j :: 0 <= i < j < |stamps| ==> stamps[i] <= stamps[j]
  }

  ghost predicate AtMost(stamps: seq<real>, top: real) {
    forall i :: 0 <= i < |stamps| ==> stamps[i] <= top
  }

  lemma SortedAppend(stamps: seq<real>, last: real, top: real)
    requires Sorted(stamps) && AtMost(stamps, last) && last <= top
    ensures Sorted(stamps + [last]) && AtMost(stamps + [last], top) && AtMost(stamps, top)
  {}

  lemma {:induction false} HistorySorted(cfg: Config, es: seq<Event>, top: real)
    requires Monotone(es) && forall e <- es :: e.at <= top
    ensures Sorted(RequestTimes(es)) && Sorted(GrantTimes(cfg, es))
    ensures AtMost(RequestTimes(es), top) && AtMost(GrantTimes(cfg, es), top)
  {
    hide Granted;
    if es != [] {
      var before, last := es[..|es| - 1], es[|es| - 1];
      forall e <- before ensures e.at <= last.at {
        var i :| 0 <= i < |before| && before[i] == e;
      }
      assert last in es;
      HistorySorted(cfg, before, last.at);
      hide Sorted, AtMost;
      SortedAppend(RequestTimes(before), last.at, top);
      SortedAppend(GrantTimes(cfg, before), last.at, top);
      assert RequestTimes(before) + [] == RequestTimes(before) && GrantTimes(cfg, before) + [] == GrantTimes(cfg, before);
    }
  }

  lemma {:induction false} DropOldAppend(stamps: seq<real>, last: real, cutoff: real)
    ensures cutoff <= last ==> DropOld(stamps + [last], cutoff) == DropOld(stamps, cutoff) + [last]
    ensures last < cutoff && AtMost(stamps, last) ==> DropOld(stamps + [last], cutoff) == []
  {
    if stamps == [] {
      assert [last][1..] == [];
    } else {
      assert (stamps + [last])[1..] == stamps[1..] + [last];
      DropOldAppend(stamps[1..], last, cutoff);
    }
  }

  /** On sorted stamps, popping from the left is keeping what lies in the window. */
  lemma {:induction false} DropOldIsWithin(stamps: seq<real>, cutoff: real, top: real)
    requires Sorted(stamps) && AtMost(stamps, top)
    ensures DropOld(stamps, cutoff) == Within(stamps, cutoff, top)
  {
    if stamps != [] {
      var before, last := stamps[..|stamps| - 1], stamps[|stamps| - 1];
      assert stamps == before + [last];
      SortedFront(stamps, top);
      DropOldIsWithin(before, cutoff, top);
      DropOldAppend(before, last, cutoff);
      WithinAppend(before, last, cutoff, top);
      if last < cutoff {
        WithinEmpty(before, cutoff, top);
      }
      hide DropOld, Within;
    }
  }

  lemma SortedFront(stamps: seq<real>, top: real)
    requires Sorted(stamps) && AtMost(stamps, top) && stamps != []
    ensures Sorted(stamps[..|stamps| - 1]) && AtMost(stamps[..|stamps| - 1], top)
    ensures AtMost(stamps[..|stamps| - 1], stamps[|stamps| - 1]) && stamps[|stamps| - 1] <= top
  {}

  lemma {:induction false} WithinEmpty(stamps: seq<real>, lo: real, hi: real)
    requires forall i :: 0 <= i < |stamps| ==> stamps[i] < lo || hi < stamps[i]
    ensures Within(stamps, lo, hi) == []
  {
    if stamps != [] {
      WithinEmpty(stamps[..|stamps| - 1], lo, hi);
    }
  }

  lemma {:induction false} DropOldTwice(stamps: seq<real>, early: real, late: real)
    requires early <= late
    ensures DropOld(DropOld(stamps, early), late) == DropOld(stamps, late)
  {
    if stamps != [] && stamps[0] < early {
      DropOldTwice(stamps[1..], early, late);
    }
  }

  /** The deques always hold exactly the history's stamps inside the window, as of the last time either was trimmed. */
  lemma {:induction false} DequesAreTheWindow(cfg: Config, es: seq<Event>)
    requires Monotone(es) && 0.0 <= cfg.window && es != []
    ensures var now := es[|es| - 1].at;
      && Run(cfg, es).requests == Within(RequestTimes(es), now - cfg.window, now)
      && Run(cfg, es).retries == Within(GrantTimes(cfg, es), now - cfg.window, now)
  {
    hide Run, DropOld, Within, RequestTimes, GrantTimes;
    var now := es[|es| - 1].at;
    DequesAreDropped(cfg, es);
    forall e <- es ensures e.at <= now {
      var i :| 0 <= i < |es| && es[i] == e;
    }
    HistorySorted(cfg, es, now);
    DropOldIsWithin(RequestTimes(es), now - cfg.window, now);
    DropOldIsWithin(GrantTimes(cfg, es), now - cfg.window, now);
  }

  lemma {:induction false} DequesAreDropped(cfg: Config, es: seq<Event>)
    requires Monotone(es) && 0.0 <= cfg.window && es != []
    ensures Run(cfg, es).requests == DropOld(RequestTimes(es), es[|es| - 1].at - cfg.window)
    ensures Run(cfg, es).retries == DropOld(GrantTimes(cfg, es), es[|es| - 1].at - cfg.window)
    decreases |es|, 0
  {
    hide DropOld, Allowed, Within;
    var before, last := es[..|es| - 1], es[|es| - 1];
    var cutoff := last.at - cfg.window;
    TrimmedHistory(cfg, before, last.at);
    DropOldAppend(RequestTimes(before), last.at, cutoff);
    DropOldAppend(GrantTimes(cfg, before), last.at, cutoff);
    assert RequestTimes(before) + [] == RequestTimes(before) && GrantTimes(cfg, before) + [] == GrantTimes(cfg, before);
  }

  /** What a trim at `now` leaves of the deques a run produced. */
  lemma {:induction false} TrimmedHistory(cfg: Config, es: seq<Event>, now: real)
    requires Monotone(es) && 0.0 <= cfg.window && forall e <- es :: e.at <= now
    ensures Trimmed(cfg, Run(cfg, es), now).requests == DropOld(RequestTimes(es), now - cfg.window)
    ensures Trimmed(cfg, Run(cfg, es), now).retries == DropOld(GrantTimes(cfg, es), now - cfg.window)
    decreases |es|, 1
  {
    if es != [] {
      var last := es[|es| - 1];
      assert last in es;
      DequesAreDropped(cfg, es);
      DropOldTwice(RequestTimes(es), last.at - cfg.window, now - cfg.window);
      DropOldTwice(GrantTimes(cfg, es), last.at - cfg.window, now - cfg.window);
    }
  }

  // ----- the bound

  function GrantsIn(cfg: Config, es: seq<Event>, lo: real, hi: real): nat {
    |Within(GrantTimes(cfg, es), lo, hi)|
  }

  /** Requests that arrived in the window ending at `now`. */
  function RequestsInWindow(cfg: Config, es: seq<Event>, now: real): nat {
    |Within(RequestTimes(es), now - cfg.window, now)|
  }

  /** The retries granted in an interval no longer than the window never exceed what the traffic in the window ending at
      the last of them pays for. */
  lemma {:induction false} RetriesBounded(cfg: Config, es: seq<Event>, lo: real, hi: real) returns (last: nat)
    requires Monotone(es) && 0.0 <= cfg.window && hi - lo <= cfg.window
    requires 0 < GrantsIn(cfg, es, lo, hi)
    ensures last < |es| && Granted(cfg, es, last) && lo <= es[last].at <= hi
    ensures forall j :: last < j < |es| && Granted(cfg, es, j) ==> hi < es[j].at
    ensures GrantsIn(cfg, es, lo, hi) <= Allowed(cfg, RequestsInWindow(cfg, es[..last], es[last].at))
    decreases |es|
  {
    if es == [] {
      WithinEmpty([], lo, hi);
    }
    hide Run, DropOld, RequestTimes, Allowed, Grants, Within, GrantTimes, GrantsIn, RequestsInWindow, Granted;
    var before, e := es[..|es| - 1], es[|es| - 1];
    forall d <- before ensures d.at <= e.at {
      var i :| 0 <= i < |before| && before[i] == d;
    }
    GrantsInLast(cfg, es, lo, hi);
    if Granted(cfg, es, |es| - 1) && e.at <= hi {
      last := |es| - 1;
      NoneYet(cfg, before, e.at, lo, hi);
      GrantedLast(cfg, es);
      GrantIsPaidFor(cfg, before, lo, hi, e.at);
    } else {
      last := RetriesBounded(cfg, before, lo, hi);
      GrantedEarlier(cfg, es, last);
      forall j | last < j < |es| && Granted(cfg, es, j) ensures hi < es[j].at {
        GrantedEarlier(cfg, es, j);
      }
    }
  }

  /** What the traffic pays for, without rounding: fewer than the floor, or one more still within the ratio. */
  lemma PaysFor(cfg: Config, granted: nat, requests: nat)
    ensures granted < Allowed(cfg, requests) <==> granted < cfg.floor || granted as real + 1.0 <= requests as real * cfg.ratio
  {
    var paid := requests as real * cfg.ratio;
    if 0.0 <= paid {
      assert Trunc(paid) as real <= paid < Trunc(paid) as real + 1.0;
    }
  }

  /** A retry is granted exactly when the grants in the window that ends with it are fewer than the floor, or one more is no
      larger a share of the requests in that window than the ratio. */
  lemma GrantedIff(cfg: Config, es: seq<Event>, i: nat)
    requires i < |es| && Monotone(es) && 0.0 <= cfg.window
    ensures var now, past := es[i].at, es[..i];
      var granted, asked := GrantsIn(cfg, past, now - cfg.window, now), |Within(RequestTimes(past), now - cfg.window, now)|;
      Granted(cfg, es, i) <==>
        es[i].Take? && (granted < cfg.floor || granted as real + 1.0 <= asked as real * cfg.ratio)
  {
    hide Run, DropOld, RequestTimes, GrantTimes, Within, Allowed;
    var now, past := es[i].at, es[..i];
    forall e | e in past ensures e.at <= now {
      var k :| 0 <= k < i && past[k] == e;
    }
    TrimmedHistory(cfg, past, now);
    HistorySorted(cfg, past, now);
    DropOldIsWithin(RequestTimes(past), now - cfg.window, now);
    DropOldIsWithin(GrantTimes(cfg, past), now - cfg.window, now);
    PaysFor(cfg, GrantsIn(cfg, past, now - cfg.window, now), |Within(RequestTimes(past), now - cfg.window, now)|);
  }

  /** How many retries were refused. */
  function Refusals(cfg: Config, es: seq<Event>): nat {
    if es == [] then 0
    else Refusals(cfg, es[..|es| - 1]) + if es[|es| - 1].Take? && !Granted(cfg, es, |es| - 1) then 1 else 0
  }

  lemma {:induction false} RefusedIsCounted(cfg: Config, es: seq<Event>)
    ensures Run(cfg, es).refused == Refusals(cfg, es)
  {
    hide Grants;
    if es != [] {
      RefusedIsCounted(cfg, es[..|es| - 1]);
    }
  }

  /** The bound in figures: the retries granted in an interval no longer than the window are no more than the floor, or no
      larger a share of the requests in the window that ends with the last of them than the ratio. */
  lemma RetriesShare(cfg: Config, es: seq<Event>, lo: real, hi: real) returns (last: nat)
    requires Monotone(es) && 0.0 <= cfg.window && hi - lo <= cfg.window
    requires 0 < GrantsIn(cfg, es, lo, hi)
    ensures last < |es| && Granted(cfg, es, last) && lo <= es[last].at <= hi
    ensures var n := GrantsIn(cfg, es, lo, hi);
      n <= cfg.floor || n as real <= |Within(RequestTimes(es[..last]), es[last].at - cfg.window, es[last].at)| as real * cfg.ratio
  {
    hide Allowed, Granted, GrantsIn, Within, RequestTimes;
    last := RetriesBounded(cfg, es, lo, hi);
    PaysFor(cfg, GrantsIn(cfg, es, lo, hi) - 1, RequestsInWindow(cfg, es[..last], es[last].at));
  }

  lemma GrantedLast(cfg: Config, es: seq<Event>)
    requires es != [] && Granted(cfg, es, |es| - 1)
    ensures Grants(cfg, Run(cfg, es[..|es| - 1]), es[|es| - 1].at)
  {
    hide Run, Grants;
  }

  /** What came before is granted or not whatever comes last. */
  lemma GrantedEarlier(cfg: Config, es: seq<Event>, j: nat)
    requires j < |es|
    ensures j < |es| - 1 ==>
      && es[..j] == es[..|es| - 1][..j] && es[j] == es[..|es| - 1][j]
      && Granted(cfg, es, j) == Granted(cfg, es[..|es| - 1], j)
  {
    hide Run, Grants;
    if j < |es| - 1 {
      assert es[..j] == es[..|es| - 1][..j];
    }
  }

  lemma GrantsInLast(cfg: Config, es: seq<Event>, lo: real, hi: real)
    requires es != []
    ensures GrantsIn(cfg, es, lo, hi) == GrantsIn(cfg, es[..|es| - 1], lo, hi)
      + if Granted(cfg, es, |es| - 1) && lo <= es[|es| - 1].at <= hi then 1 else 0
  {
    hide Granted, Within;
    var times := GrantTimes(cfg, es[..|es| - 1]);
    WithinAppend(times, es[|es| - 1].at, lo, hi);
    assert times + [] == times;
  }

  /** Nothing was granted past the latest stamp. */
  lemma NoneYet(cfg: Config, es: seq<Event>, top: real, lo: real, hi: real)
    requires Monotone(es) && forall e <- es :: e.at <= top
    ensures top < lo ==> GrantsIn(cfg, es, lo, hi) == 0
  {
    hide Within, GrantTimes;
    HistorySorted(cfg, es, top);
    if top < lo {
      WithinEmpty(GrantTimes(cfg, es), lo, hi);
    }
  }

  lemma WithinAppend(stamps: seq<real>, last: real, lo: real, hi: real)
    ensures Within(stamps + [last], lo, hi) == Within(stamps, lo, hi) + if lo <= last <= hi then [last] else []
  {
    assert (stamps + [last])[..|stamps|] == stamps;
  }

  lemma GrantIsPaidFor(cfg: Config, es: seq<Event>, lo: real, hi: real, now: real)
    requires Monotone(es) && 0.0 <= cfg.window && hi - lo <= cfg.window && lo <= now <= hi
    requires (forall e <- es :: e.at <= now) && Grants(cfg, Run(cfg, es), now)
    ensures GrantsIn(cfg, es, lo, hi) + 1 <= Allowed(cfg, RequestsInWindow(cfg, es, now))
  {
    hide Run, DropOld, RequestTimes, GrantTimes, Within, Allowed;
    TrimmedHistory(cfg, es, now);
    HistorySorted(cfg, es, now);
    DropOldIsWithin(RequestTimes(es), now - cfg.window, now);
    DropOldIsWithin(GrantTimes(cfg, es), now - cfg.window, now);
    WithinNested(GrantTimes(cfg, es), lo, hi, now - cfg.window, now);
  }

  lemma {:induction false} WithinNested(stamps: seq<real>, lo: real, hi: real, low: real, high: real)
    requires low <= lo && AtMost(stamps, high)
    ensures |Within(stamps, lo, hi)| <= |Within(stamps, low, high)|
  {
    if stamps != [] {
      WithinNested(stamps[..|stamps| - 1], lo, hi, low, high);
    }
  }
}
