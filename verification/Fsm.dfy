/** The deployment lifecycle: which state may follow which. */
module Fsm {

  datatype State = Planned | Launching | Ready | Degraded | Stopping | Stopped | Failed

  function Legal(source: State): set<State> {
    match source
    case Planned => {Launching}
    case Launching => {Ready, Failed}
    case Ready => {Degraded, Failed, Stopping}
    case Degraded => {Ready, Failed, Stopping}
    case Stopping => {Stopped}
    case Stopped => {}
    case Failed => {}
  }

  predicate Terminal(s: State) { s in {Failed, Stopped} }

  predicate Serving(s: State) { s in {Ready, Degraded} }

  predicate Persisted(s: State) { s != Planned }

  /** A self-transition is a legal no-op; anything else off the table raises. */
  predicate Allowed(source: State, target: State) {
    source == target || target in Legal(source)
  }

  ghost predicate IsHistory(states: seq<State>) {
    forall i :: 0 <= i < |states| - 1 ==> Allowed(states[i], states[i + 1])
  }

  /** Every state is on a way a deployment can go: it loads, serves, comes under pressure and out of it, is stopped; or it fails
      where it loads or serves. */
  lemma EveryWay()
    ensures IsHistory([Planned, Launching, Ready, Degraded, Ready, Stopping, Stopped])
    ensures IsHistory([Planned, Launching, Failed]) && IsHistory([Ready, Failed])
    ensures IsHistory([Ready, Degraded, Failed]) && IsHistory([Degraded, Stopping])
    ensures forall a, b :: Allowed(a, b) && a != b ==>
      || (a == Planned && b == Launching) || (a == Launching && b in {Ready, Failed})
      || (a in {Ready, Degraded} && b in {Ready, Degraded, Failed, Stopping}) || (a == Stopping && b == Stopped)
  {}

  /** Terminal states are exactly the absorbing ones. */
  lemma {:induction false} TerminalAbsorbs(states: seq<State>, i: nat, j: nat)
    requires IsHistory(states) && i <= j < |states| && Terminal(states[i])
    ensures states[j] == states[i]
    decreases j - i
  {
    if i < j {
      assert Allowed(states[i], states[i + 1]);
      TerminalAbsorbs(states, i + 1, j);
    }
  }

  /** A deployment that ends stopped went through stopping, and one that was stopping never ends failed. */
  lemma {:induction false} StoppedThroughStopping(states: seq<State>, j: nat)
    requires IsHistory(states) && j < |states| && states[0] == Planned
    ensures states[j] == Stopped ==> exists k :: 0 <= k < j && states[k] == Stopping
    ensures states[j] == Failed ==> forall k :: 0 <= k < j ==> states[k] != Stopping
  {
    if 0 < j {
      StoppedThroughStopping(states, j - 1);
      assert Allowed(states[j - 1], states[j]);
      if states[j] == Failed {
        forall k | 0 <= k < j ensures states[k] != Stopping {
          StoppingOnlyStops(states, k, j);
        }
      }
    }
  }

  lemma {:induction false} StoppingOnlyStops(states: seq<State>, k: nat, j: nat)
    requires IsHistory(states) && k <= j < |states|
    ensures states[k] == Stopping ==> states[j] in {Stopping, Stopped}
    decreases j - k
  {
    if k < j {
      assert Allowed(states[k], states[k + 1]);
      if states[k + 1] == Stopped {
        TerminalAbsorbs(states, k + 1, j);
      } else {
        StoppingOnlyStops(states, k + 1, j);
      }
    }
  }
}
