/**
 The `optimal` channel policy over exact reals: smoothed latency and success per node, and the three ways it moves
 away from the active node. `alpha` is the smoothing factor, any number strictly between zero and one.
 */
module OptimalController {
  import opened Wrappers

  const SUCCESS_EPSILON: real := 0.05
  const SWITCH_MARGIN: real := 0.1
  const SLOW_FACTOR: real := 0.35
  const FAILURE_THRESHOLD := 1
  const SLOW_TICKS := 2

  /** One tick's view: the selectable nodes, the positive delay of each node that answers, and the active member. */
  datatype View = View(candidates: seq<string>, delays: map<string, real>, active: Option<string>)

  datatype Optimal = Optimal(latency: map<string, real>, success: map<string, real>, misses: nat, slowTicks: nat)

  /** What a tick decides. Only the four others select a node. */
  datatype Decision = Stay | Initial(to: string) | Down(to: string) | Slow(to: string) | Proactive(to: string)

  predicate ValidView(view: View) {
    forall name :: name in view.delays ==> view.delays[name] > 0.0
  }

  const RESET := Optimal(map[], map[], 0, 0)

  // ---------- Smoothing ----------

  function Ewma(alpha: real, known: bool, previous: real, sample: real): real {
    if known then previous + alpha * (sample - previous) else sample
  }

  function Smooth(alpha: real, averages: map<string, real>, name: string, sample: real): map<string, real> {
    averages[name := Ewma(alpha, name in averages, if name in averages then averages[name] else 0.0, sample)]
  }

  /** One node's sample: a miss ages the success average only. */
  function UpdateNode(alpha: real, o: Optimal, view: View, name: string): Optimal {
    var answered := name in view.delays;
    o.(success := Smooth(alpha, o.success, name, if answered then 1.0 else 0.0),
       latency := if answered then Smooth(alpha, o.latency, name, view.delays[name]) else o.latency)
  }

  function Update(alpha: real, o: Optimal, view: View, names: seq<string>): Optimal
    decreases |names|
  {
    if names == [] then o else Update(alpha, UpdateNode(alpha, o, view, names[0]), view, names[1..])
  }

  // ---------- Scores ----------

  function Max(a: real, b: real): real {
    if a < b then b else a
  }

  /** Smoothed latency inflated by unreliability; a node that never answered has none. */
  function Effective(o: Optimal, name: string): Option<real> {
    if name !in o.latency then None
    else Some(o.latency[name] / Max(if name in o.success then o.success[name] else 0.0, SUCCESS_EPSILON))
  }

  /** The order with infinity for a missing score. */
  predicate Better(a: Option<real>, b: Option<real>) {
    a.Some? && (b.None? || a.value < b.value)
  }

  predicate IsBest(o: Optimal, view: View, name: string) {
    && name in view.candidates
    && (forall other :: other in view.candidates ==> !Better(Effective(o, other), Effective(o, name)))
    && BeatsEarlier(o, view, name)
  }

  /** Among equal scores the first in view order: everything listed before the node has a worse score. */
  predicate BeatsEarlier(o: Optimal, view: View, name: string) {
    exists k :: 0 <= k < |view.candidates| && view.candidates[k] == name
      && forall j :: 0 <= j < k ==> Better(Effective(o, name), Effective(o, view.candidates[j]))
  }

  /** The same among the nodes the policy may move to. */
  predicate BeatsEarlierReachable(o: Optimal, view: View, name: string) {
    exists k :: 0 <= k < |view.candidates| && view.candidates[k] == name
      && forall j :: 0 <= j < k && Reachable(view, view.candidates[j]) ==>
        Better(Effective(o, name), Effective(o, view.candidates[j]))
  }

  predicate HasActive(view: View) {
    view.active.Some? && view.active.value in view.candidates
  }

  /** A node the policy may move to: it answers right now. */
  predicate Reachable(view: View, name: string) {
    name in view.candidates && view.active != Some(name) && name in view.delays
  }

  predicate IsTarget(o: Optimal, view: View, target: Option<string>) {
    match target
    case None => forall name :: name in view.candidates ==> !Reachable(view, name)
    case Some(t) =>
      && Reachable(view, t)
      && (forall name :: name in view.candidates && Reachable(view, name) ==>
        !Better(Effective(o, name), Effective(o, t)))
      && BeatsEarlierReachable(o, view, t)
  }

  // ---------- The decision ----------

  /** The active node's score sees a bad current delay as well as the smoothed one. */
  function ActiveScore(o: Optimal, view: View, active: string): Option<real> {
    var effective := Effective(o, active);
    if active in view.delays && effective.Some? then Some(Max(effective.value, view.delays[active])) else effective
  }

  predicate IsSlow(view: View, active: string, target: string) {
    active in view.delays && target in view.delays && view.delays[active] > view.delays[target] * (1.0 + SLOW_FACTOR)
  }

  predicate BeatsByMargin(target: Option<real>, active: Option<real>) {
    active.None? || (target.Some? && target.value <= active.value * (1.0 - SWITCH_MARGIN))
  }

  /** The decision and the new counters, once the averages `o` were updated and the target was found. */
  function Choose(o: Optimal, view: View, target: Option<string>): (Decision, Optimal)
    requires HasActive(view)
  {
    var active := view.active.value;
    var misses := if active in view.delays then 0 else o.misses + 1;
    if misses >= FAILURE_THRESHOLD && target.Some? then (Down(target.value), o.(misses := 0, slowTicks := 0))
    else
      var slowTicks := if target.Some? && IsSlow(view, active, target.value) then o.slowTicks + 1 else 0;
      if slowTicks >= SLOW_TICKS && target.Some? then (Slow(target.value), o.(misses := misses, slowTicks := 0))
      else if target.Some? && BeatsByMargin(Effective(o, target.value), ActiveScore(o, view, active)) then
        (Proactive(target.value), o.(misses := misses, slowTicks := 0))
      else (Stay, o.(misses := misses, slowTicks := slowTicks))
  }

  /** One tick. Best node and target are unique, so the decision and the next state are determined. */
  ghost predicate Ticks(alpha: real, o: Optimal, view: View, decision: Decision, next: Optimal) {
    var updated := Update(alpha, o, view, view.candidates);
    if view.candidates == [] then decision.Stay? && next == o
    else if !HasActive(view) then decision.Initial? && IsBest(updated, view, decision.to) && next == updated.(misses := 0, slowTicks := 0)
    else exists target :: Targets(updated, view, target, decision, next)
  }

  predicate Targets(updated: Optimal, view: View, target: Option<string>, decision: Decision, next: Optimal)
    requires HasActive(view)
  {
    IsTarget(updated, view, target) && Choose(updated, view, target) == (decision, next)
  }

  // ---------- The object ----------

  class ChannelController {
    const alpha: real
    var optimalLatency: map<string, real>
    var optimalSuccess: map<string, real>
    var optimalActiveMisses: nat
    var optimalSlowTicks: nat

    function State(): Optimal
      reads this
    {
      Optimal(optimalLatency, optimalSuccess, optimalActiveMisses, optimalSlowTicks)
    }

    constructor (alpha: real)
      ensures this.alpha == alpha && State() == RESET
    {
      this.alpha := alpha;
      optimalLatency, optimalSuccess, optimalActiveMisses, optimalSlowTicks := map[], map[], 0, 0;
    }

    method Reset()
      modifies this
      ensures State() == RESET
    {
      optimalLatency, optimalSuccess, optimalActiveMisses, optimalSlowTicks := map[], map[], 0, 0;
    }

    method UpdateAverages(view: View)
      modifies this`optimalLatency, this`optimalSuccess
      ensures State() == Update(alpha, old(State()), view, view.candidates)
    {
      ghost var before := State();
      for k := 0 to |view.candidates|
        invariant Update(alpha, State(), view, view.candidates[k..]) == Update(alpha, before, view, view.candidates)
      {
        assert view.candidates[k..][1..] == view.candidates[k + 1..];
        var name := view.candidates[k];
        optimalSuccess := Smooth(alpha, optimalSuccess, name, if name in view.delays then 1.0 else 0.0);
        if name in view.delays {
          optimalLatency := Smooth(alpha, optimalLatency, name, view.delays[name]);
        }
      }
      assert view.candidates[|view.candidates|..] == [];
    }

    /** The candidate with the lowest effective latency. */
    method FindBest(view: View) returns (best: string)
      requires view.candidates != []
      ensures IsBest(State(), view, best)
    {
      hide Effective;
      best := view.candidates[0];
      ghost var at := 0;
      for k := 0 to |view.candidates|
        invariant 0 <= at < |view.candidates| && view.candidates[at] == best && (at < k || at == 0)
        invariant forall j :: 0 <= j < at ==> Better(Effective(State(), best), Effective(State(), view.candidates[j]))
        invariant forall j :: 0 <= j < k ==> !Better(Effective(State(), view.candidates[j]), Effective(State(), best))
      {
        if Better(Effective(State(), view.candidates[k]), Effective(State(), best)) {
          best, at := view.candidates[k], k;
        }
      }
    }

    /** The best candidate other than the active one that answers on this tick. */
    method FindTarget(view: View) returns (target: Option<string>)
      requires HasActive(view)
      ensures IsTarget(State(), view, target)
    {
      hide Effective;
      target := None;
      ghost var at := 0;
      for k := 0 to |view.candidates|
        invariant target.None? ==> forall j :: 0 <= j < k ==> !Reachable(view, view.candidates[j])
        invariant target.Some? ==> Reachable(view, target.value) && 0 <= at < k && view.candidates[at] == target.value
        invariant target.Some? ==> forall j :: 0 <= j < at && Reachable(view, view.candidates[j]) ==>
          Better(Effective(State(), target.value), Effective(State(), view.candidates[j]))
        invariant target.Some? ==> forall j :: 0 <= j < k && Reachable(view, view.candidates[j]) ==>
          !Better(Effective(State(), view.candidates[j]), Effective(State(), target.value))
      {
        var name := view.candidates[k];
        if view.active == Some(name) || name !in view.delays {
          continue;
        }
        if target.None? || Better(Effective(State(), name), Effective(State(), target.value)) {
          target, at := Some(name), k;
        }
      }
    }

    method TickOptimal(view: View) returns (decision: Decision)
      modifies this
      ensures Ticks(alpha, old(State()), view, decision, State())
    {
      hide Effective, IsBest, IsTarget;
      if view.candidates == [] {
        return Stay;
      }
      UpdateAverages(view);
      ghost var updated := State();
      if !HasActive(view) {
        var best := FindBest(view);
        optimalActiveMisses, optimalSlowTicks := 0, 0;
        return Initial(best);
      }
      var target := FindTarget(view);
      decision := Decide(view, target);
      assert Targets(updated, view, target, decision, State());
    }

    method Decide(view: View, target: Option<string>) returns (decision: Decision)
      requires HasActive(view)
      modifies this`optimalActiveMisses, this`optimalSlowTicks
      ensures Choose(old(State()), view, target) == (decision, State())
    {
      var active := view.active.value;
      var score := ActiveScore(State(), view, active);
      optimalActiveMisses := if active in view.delays then 0 else optimalActiveMisses + 1;
      if optimalActiveMisses >= FAILURE_THRESHOLD && target.Some? {
        optimalActiveMisses, optimalSlowTicks := 0, 0;
        return Down(target.value);
      }
      if target.Some? && IsSlow(view, active, target.value) {
        optimalSlowTicks := optimalSlowTicks + 1;
      } else {
        optimalSlowTicks := 0;
      }
      if optimalSlowTicks >= SLOW_TICKS && target.Some? {
        optimalSlowTicks := 0;
        return Slow(target.value);
      }
      if target.Some? && BeatsByMargin(Effective(State(), target.value), score) {
        optimalSlowTicks := 0;
        return Proactive(target.value);
      }
      decision := Stay;
    }
  }
}
