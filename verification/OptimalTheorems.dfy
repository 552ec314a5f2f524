/**
 Stability of the optimal policy on every run: averages stay within what was observed, moves go only to nodes that
 answer, and with constant delays there is at most one move, made exactly when the start is not already quiet.
 */
module OptimalTheorems {
  import opened Wrappers
  import opened OptimalController

  // ---------- Averages stay in range ----------

  predicate Within(averages: map<string, real>, low: real, high: real) {
    forall name :: name in averages ==> low <= averages[name] <= high
  }

  predicate DelaysWithin(view: View, low: real, high: real) {
    forall name :: name in view.delays ==> low <= view.delays[name] <= high
  }

  lemma MixStaysBetween(alpha: real, previous: real, sample: real, low: real, high: real)
    requires 0.0 < alpha < 1.0 && low <= previous <= high && low <= sample <= high
    ensures low <= previous + alpha * (sample - previous) <= high
  {
    Product(1.0 - alpha, previous - low);
    Product(alpha, sample - low);
    assert previous + alpha * (sample - previous) - low == (1.0 - alpha) * (previous - low) + alpha * (sample - low);
    Product(1.0 - alpha, high - previous);
    Product(alpha, high - sample);
    assert high - (previous + alpha * (sample - previous)) == (1.0 - alpha) * (high - previous) + alpha * (high - sample);
  }

  lemma Product(a: real, b: real)
    requires a >= 0.0 && b >= 0.0
    ensures a * b >= 0.0
  {
  }

  lemma SmoothStaysWithin(alpha: real, averages: map<string, real>, name: string, sample: real, low: real, high: real)
    requires 0.0 < alpha < 1.0 && Within(averages, low, high) && low <= sample <= high
    ensures Within(Smooth(alpha, averages, name, sample), low, high)
  {
    if name in averages {
      MixStaysBetween(alpha, averages[name], sample, low, high);
    }
  }

  lemma {:induction false} UpdateStaysWithin(alpha: real, o: Optimal, view: View, names: seq<string>, low: real,
      high: real)
    requires 0.0 < alpha < 1.0 && Within(o.success, 0.0, 1.0) && Within(o.latency, low, high)
    requires DelaysWithin(view, low, high)
    ensures var next := Update(alpha, o, view, names);
      Within(next.success, 0.0, 1.0) && Within(next.latency, low, high)
    decreases |names|
  {
    hide Smooth, Within;
    if names != [] {
      SmoothStaysWithin(alpha, o.success, names[0], if names[0] in view.delays then 1.0 else 0.0, 0.0, 1.0);
      if names[0] in view.delays {
        SmoothStaysWithin(alpha, o.latency, names[0], view.delays[names[0]], low, high);
      }
      UpdateStaysWithin(alpha, UpdateNode(alpha, o, view, names[0]), view, names[1..], low, high);
    }
  }

  /** A tick as it happened: what was seen and decided, and the state it left. */
  datatype Record = Record(view: View, decision: Decision, after: Optimal)

  /** A run from a state: every tick follows the policy. Between ticks the views are arbitrary. */
  ghost predicate IsRun(alpha: real, o: Optimal, ticks: seq<Record>)
    decreases |ticks|
  {
    ticks == [] || (Ticks(alpha, o, ticks[0].view, ticks[0].decision, ticks[0].after) && IsRun(alpha, ticks[0].after,
        ticks[1..]))
  }

  function Last(o: Optimal, ticks: seq<Record>): Optimal {
    if ticks == [] then o else ticks[|ticks| - 1].after
  }

  lemma TickKeepsAverages(alpha: real, o: Optimal, view: View, decision: Decision, next: Optimal)
    requires Ticks(alpha, o, view, decision, next)
    ensures next.success == Update(alpha, o, view, view.candidates).success || (view.candidates == [] && next == o)
    ensures next.latency == Update(alpha, o, view, view.candidates).latency || (view.candidates == [] && next == o)
  {
    hide Update, IsBest, IsTarget, Effective;
  }

  /** On every run success averages stay in [0, 1] and latency averages within the observed delays. */
  lemma {:induction false} AveragesStayWithin(alpha: real, o: Optimal, ticks: seq<Record>, low: real, high: real)
    requires 0.0 < alpha < 1.0 && IsRun(alpha, o, ticks)
    requires Within(o.success, 0.0, 1.0) && Within(o.latency, low, high)
    requires forall k :: 0 <= k < |ticks| ==> DelaysWithin(ticks[k].view, low, high)
    ensures Within(Last(o, ticks).success, 0.0, 1.0) && Within(Last(o, ticks).latency, low, high)
    decreases |ticks|
  {
    hide Within, DelaysWithin, Update, Ticks;
    if ticks != [] {
      var view := ticks[0].view;
      assert DelaysWithin(view, low, high);
      UpdateStaysWithin(alpha, o, view, view.candidates, low, high);
      TickKeepsAverages(alpha, o, view, ticks[0].decision, ticks[0].after);
      forall k | 0 <= k < |ticks[1..]| ensures DelaysWithin(ticks[1..][k].view, low, high) {
        assert DelaysWithin(ticks[k + 1].view, low, high);
      }
      AveragesStayWithin(alpha, ticks[0].after, ticks[1..], low, high);
    }
  }

  // ---------- One outcome for each tick ----------

  lemma BestIsNotLater(o: Optimal, view: View, a: string, i: nat, b: string, k: nat)
    requires IsBest(o, view, a) && i < |view.candidates| && view.candidates[i] == a
    requires k <= |view.candidates| && forall j :: 0 <= j < k ==>
      Better(Effective(o, b), Effective(o, view.candidates[j]))
    requires b in view.candidates
    ensures k <= i
  {
    hide Effective;
  }

  lemma BestIsUnique(o: Optimal, view: View, a: string, b: string)
    requires IsBest(o, view, a) && IsBest(o, view, b)
    ensures a == b
  {
    hide Effective;
    var i :| 0 <= i < |view.candidates| && view.candidates[i] == a
      && forall j :: 0 <= j < i ==> Better(Effective(o, a), Effective(o, view.candidates[j]));
    var k :| 0 <= k < |view.candidates| && view.candidates[k] == b
      && forall j :: 0 <= j < k ==> Better(Effective(o, b), Effective(o, view.candidates[j]));
    BestIsNotLater(o, view, a, i, b, k);
    BestIsNotLater(o, view, b, k, a, i);
  }

  lemma TargetIsNotLater(o: Optimal, view: View, a: string, i: nat, b: string, k: nat)
    requires IsTarget(o, view, Some(a)) && i < |view.candidates| && view.candidates[i] == a
    requires k <= |view.candidates|
    requires forall j :: 0 <= j < k && Reachable(view, view.candidates[j]) ==>
      Better(Effective(o, b), Effective(o, view.candidates[j]))
    requires Reachable(view, b)
    ensures k <= i
  {
    hide Effective;
  }

  lemma TargetIsFound(o: Optimal, view: View, target: Option<string>)
    requires IsTarget(o, view, target)
    ensures target.Some? <==> exists name :: name in view.candidates && Reachable(view, name)
  {
    hide Effective, BeatsEarlierReachable;
    assert target.Some? ==> Reachable(view, if target.Some? then target.value else "");
  }

  lemma TargetIsUnique(o: Optimal, view: View, a: Option<string>, b: Option<string>)
    requires IsTarget(o, view, a) && IsTarget(o, view, b)
    ensures a == b
  {
    hide Effective;
    TargetIsFound(o, view, a);
    TargetIsFound(o, view, b);
    if a.Some? {
      var i :| 0 <= i < |view.candidates| && view.candidates[i] == a.value
        && forall j :: 0 <= j < i && Reachable(view, view.candidates[j]) ==>
          Better(Effective(o, a.value), Effective(o, view.candidates[j]));
      var k :| 0 <= k < |view.candidates| && view.candidates[k] == b.value
        && forall j :: 0 <= j < k && Reachable(view, view.candidates[j]) ==>
          Better(Effective(o, b.value), Effective(o, view.candidates[j]));
      TargetIsNotLater(o, view, a.value, i, b.value, k);
      TargetIsNotLater(o, view, b.value, k, a.value, i);
    }
  }

  /** What a tick decides and leaves behind is determined by the state and the view. */
  lemma TickIsDetermined(alpha: real, o: Optimal, view: View, d: Decision, next: Optimal, otherD: Decision,
      otherNext: Optimal)
    requires Ticks(alpha, o, view, d, next) && Ticks(alpha, o, view, otherD, otherNext)
    ensures d == otherD && next == otherNext
  {
    hide Update, Effective, Choose, IsBest, IsTarget;
    var updated := Update(alpha, o, view, view.candidates);
    if view.candidates == [] {
    } else if !HasActive(view) {
      BestIsUnique(updated, view, d.to, otherD.to);
    } else {
      var target :| Targets(updated, view, target, d, next);
      var other :| Targets(updated, view, other, otherD, otherNext);
      TargetIsUnique(updated, view, target, other);
    }
  }

  // ---------- Where a tick may move ----------

  /** Every move other than the initial pick goes to a candidate that answered on that tick and was not active. */
  lemma MovesToAnsweringNode(alpha: real, o: Optimal, view: View, decision: Decision, next: Optimal)
    requires Ticks(alpha, o, view, decision, next) && !decision.Stay? && !decision.Initial?
    ensures decision.to in view.candidates && decision.to in view.delays && HasActive(view)
    ensures view.active.value != decision.to
  {
    hide Update, Effective, IsBest, Better, BeatsByMargin, IsSlow, ActiveScore;
    var updated := Update(alpha, o, view, view.candidates);
    var target :| Targets(updated, view, target, decision, next);
  }

  /** The initial pick is made exactly when there are candidates and the active member is none of them. */
  lemma InitialOnlyWithoutActive(alpha: real, o: Optimal, view: View, decision: Decision, next: Optimal)
    requires Ticks(alpha, o, view, decision, next)
    ensures decision.Initial? <==> view.candidates != [] && !HasActive(view)
    ensures decision.Initial? ==> decision.to in view.candidates
  {
    hide Update, Effective, Better, BeatsByMargin, IsSlow, ActiveScore;
  }

  // ---------- Constant delays ----------

  /** The averages of nodes that always answer, or never do. */
  predicate Settled(o: Optimal, view: View, names: set<string>) {
    forall name :: name in names ==> NodeSettled(o, view, name)
  }

  predicate NodeSettled(o: Optimal, view: View, name: string) {
    && name in o.success && o.success[name] == (if name in view.delays then 1.0 else 0.0)
    && (name in o.latency <==> name in view.delays)
    && (name in view.delays ==> o.latency[name] == view.delays[name])
  }

  /** Not yet sampled, or settled. */
  predicate Fresh(o: Optimal, view: View, name: string) {
    (name !in o.success && name !in o.latency) || NodeSettled(o, view, name)
  }

  lemma UpdateNodeSettles(alpha: real, o: Optimal, view: View, name: string)
    requires Fresh(o, view, name)
    ensures NodeSettled(UpdateNode(alpha, o, view, name), view, name)
  {
    if name in o.success {
      assert alpha * (o.success[name] - o.success[name]) == 0.0;
      if name in view.delays {
        assert alpha * (view.delays[name] - o.latency[name]) == 0.0;
      }
    }
  }

  lemma UpdateNodeKeepsOthers(alpha: real, o: Optimal, view: View, name: string, other: string)
    requires other != name
    ensures NodeSettled(o, view, other) ==> NodeSettled(UpdateNode(alpha, o, view, name), view, other)
    ensures Fresh(o, view, other) ==> Fresh(UpdateNode(alpha, o, view, name), view, other)
  {
  }

  lemma {:induction false} UpdateSettles(alpha: real, o: Optimal, view: View, names: seq<string>, name: string)
    requires Fresh(o, view, name)
    ensures Fresh(Update(alpha, o, view, names), view, name)
    ensures NodeSettled(o, view, name) || name in names ==> NodeSettled(Update(alpha, o, view, names), view, name)
    decreases |names|
  {
    hide UpdateNode, NodeSettled;
    if names != [] {
      if names[0] == name {
        UpdateNodeSettles(alpha, o, view, name);
      } else {
        UpdateNodeKeepsOthers(alpha, o, view, names[0], name);
      }
      UpdateSettles(alpha, UpdateNode(alpha, o, view, names[0]), view, names[1..], name);
    }
  }

  lemma SettledScore(o: Optimal, view: View, name: string)
    requires NodeSettled(o, view, name)
    ensures Effective(o, name) == if name in view.delays then Some(view.delays[name]) else None
  {
    if name in view.delays {
      assert Max(o.success[name], SUCCESS_EPSILON) == 1.0;
      assert o.latency[name] / 1.0 == o.latency[name];
    }
  }

  /** Nothing answers better than the active node by the margin: there is no reason to move. */
  predicate Quiet(view: View, active: string) {
    && active in view.candidates
    && forall name :: name in view.candidates && name != active && name in view.delays ==>
         active in view.delays && view.delays[name] > view.delays[active] * (1.0 - SWITCH_MARGIN)
  }

  predicate AllSettled(o: Optimal, view: View) {
    forall name :: name in view.candidates ==> NodeSettled(o, view, name)
  }

  lemma MarginFacts(active: real, target: real)
    requires active > 0.0 && target > 0.0
    ensures target > active * (1.0 - SWITCH_MARGIN) ==> active <= target * (1.0 + SLOW_FACTOR)
    ensures target >= active ==> target > active * (1.0 - SWITCH_MARGIN)
  {
  }

  /** With settled averages a quiet active node stays, and the streak of slow ticks is over. */
  lemma QuietStays(o: Optimal, view: View, target: Option<string>)
    requires ValidView(view) && HasActive(view) && AllSettled(o, view) && IsTarget(o, view, target)
    requires Quiet(view, view.active.value)
    ensures Choose(o, view, target).0 == Stay && Choose(o, view, target).1.slowTicks == 0
  {
    hide NodeSettled, Better;
    var active := view.active.value;
    SettledScore(o, view, active);
    if target.Some? {
      SettledScore(o, view, target.value);
      MarginFacts(view.delays[active], view.delays[target.value]);
    }
  }

  /**
   With settled averages and no slow streak, an active node that is not quiet is left at once, for the best that
   answers.
   */
  lemma UnquietMoves(o: Optimal, view: View, target: Option<string>)
    requires ValidView(view) && HasActive(view) && AllSettled(o, view) && IsTarget(o, view, target) && o.slowTicks == 0
    requires !Quiet(view, view.active.value)
    ensures target.Some? && Choose(o, view, target).0 in {Down(target.value), Proactive(target.value)}
    ensures Choose(o, view, target).1.slowTicks == 0
  {
    hide NodeSettled, Better;
    var active := view.active.value;
    SettledScore(o, view, active);
    var other :| other in view.candidates && other != active && other in view.delays
      && !(active in view.delays && view.delays[other] > view.delays[active] * (1.0 - SWITCH_MARGIN));
    assert Reachable(view, other);
    SettledScore(o, view, target.value);
    SettledScore(o, view, other);
    TargetIsNoWorse(o, view, target.value, other);
  }

  lemma TargetIsNoWorse(o: Optimal, view: View, target: string, other: string)
    requires IsTarget(o, view, Some(target)) && Reachable(view, other)
    requires Effective(o, target) == Some(view.delays[target]) && Effective(o, other) == Some(view.delays[other])
    ensures view.delays[target] <= view.delays[other]
  {
    hide Effective;
  }

  /** The node moved to is quiet. */
  lemma MoveIsQuiet(o: Optimal, view: View, target: Option<string>, to: string)
    requires ValidView(view) && HasActive(view) && AllSettled(o, view) && IsTarget(o, view, target)
    requires target == Some(to)
    requires Choose(o, view, target).0 in {Down(to), Proactive(to)}
    ensures Quiet(view.(active := Some(to)), to)
  {
    hide NodeSettled, Better;
    var active := view.active.value;
    SettledScore(o, view, active);
    SettledScore(o, view, to);
    forall name | name in view.candidates && name != to && name in view.delays
      ensures view.delays[name] > view.delays[to] * (1.0 - SWITCH_MARGIN)
    {
      if name != active {
        SettledScore(o, view, name);
        TargetIsNoWorse(o, view, to, name);
        MarginFacts(view.delays[to], view.delays[name]);
      }
    }
  }

  lemma InitialIsQuiet(o: Optimal, view: View, best: string)
    requires ValidView(view) && AllSettled(o, view) && IsBest(o, view, best)
    ensures Quiet(view.(active := Some(best)), best)
  {
    hide NodeSettled, Effective;
    SettledScore(o, view, best);
    forall name | name in view.candidates && name != best && name in view.delays
      ensures best in view.delays && view.delays[name] > view.delays[best] * (1.0 - SWITCH_MARGIN)
    {
      SettledScore(o, view, name);
      MarginFacts(view.delays[best], view.delays[name]);
    }
  }

  predicate StartsQuiet(view: View) {
    view.candidates == [] || (HasActive(view) && Quiet(view, view.active.value))
  }

  predicate AllFresh(o: Optimal, view: View) {
    forall name :: name in view.candidates ==> Fresh(o, view, name)
  }

  lemma UpdateSettlesAll(alpha: real, o: Optimal, view: View)
    requires AllFresh(o, view)
    ensures AllSettled(Update(alpha, o, view, view.candidates), view)
  {
    hide Fresh, NodeSettled;
    forall name | name in view.candidates ensures NodeSettled(Update(alpha, o, view, view.candidates), view, name) {
      UpdateSettles(alpha, o, view, view.candidates, name);
    }
  }

  lemma {:induction false} UpdateKeepsCounters(alpha: real, o: Optimal, view: View, names: seq<string>)
    ensures Update(alpha, o, view, names).misses == o.misses && Update(alpha, o, view, names).slowTicks == o.slowTicks
    decreases |names|
  {
    if names != [] {
      UpdateKeepsCounters(alpha, UpdateNode(alpha, o, view, names[0]), view, names[1..]);
    }
  }

  function ActiveAfter(view: View, decision: Decision): Option<string> {
    if decision.Stay? then view.active else Some(decision.to)
  }

  lemma SettledAreFresh(o: Optimal, next: Optimal, view: View, active: Option<string>)
    requires AllSettled(o, view) && next.latency == o.latency && next.success == o.success
    ensures AllFresh(next, view.(active := active))
  {
    forall name | name in view.candidates ensures Fresh(next, view.(active := active), name) {
      assert NodeSettled(o, view, name);
    }
  }

  /** One tick under constant delays: it moves exactly when the view is not quiet, and leaves a quiet view. */
  lemma ConstantTick(alpha: real, o: Optimal, view: View, decision: Decision, next: Optimal)
    requires ValidView(view) && AllFresh(o, view) && o.slowTicks == 0 && Ticks(alpha, o, view, decision, next)
    ensures decision.Stay? <==> StartsQuiet(view)
    ensures StartsQuiet(view.(active := ActiveAfter(view, decision)))
    ensures AllFresh(next, view.(active := ActiveAfter(view, decision))) && next.slowTicks == 0
  {
    hide Update, Fresh, NodeSettled, Effective, Choose, IsBest, IsTarget, Quiet;
    UpdateSettlesAll(alpha, o, view);
    UpdateKeepsCounters(alpha, o, view, view.candidates);
    var updated := Update(alpha, o, view, view.candidates);
    if view.candidates == [] {
    } else if !HasActive(view) {
      BestIsCandidate(updated, view, decision.to);
      InitialIsQuiet(updated, view, decision.to);
      SettledAreFresh(updated, next, view, Some(decision.to));
    } else {
      var target :| Targets(updated, view, target, decision, next);
      ChooseKeepsAverages(updated, view, target);
      SettledAreFresh(updated, next, view, ActiveAfter(view, decision));
      if Quiet(view, view.active.value) {
        QuietStays(updated, view, target);
        assert view.(active := view.active) == view;
      } else {
        UnquietMoves(updated, view, target);
        TargetIsCandidate(updated, view, target.value);
        MoveIsQuiet(updated, view, target, target.value);
      }
    }
  }

  lemma BestIsCandidate(o: Optimal, view: View, name: string)
    requires IsBest(o, view, name)
    ensures name in view.candidates
  {
    hide Effective;
  }

  lemma TargetIsCandidate(o: Optimal, view: View, name: string)
    requires IsTarget(o, view, Some(name))
    ensures name in view.candidates
  {
    hide Effective;
  }

  lemma ChooseKeepsAverages(o: Optimal, view: View, target: Option<string>)
    requires HasActive(view)
    ensures Choose(o, view, target).1.latency == o.latency && Choose(o, view, target).1.success == o.success
  {
    hide Effective;
  }

  /** Every tick sees the same delays, and the active member is the one selected last. */
  predicate Constant(view: View, ticks: seq<Record>)
    decreases |ticks|
  {
    ticks == [] || (ticks[0].view == view && Constant(view.(active := ActiveAfter(view, ticks[0].decision)),
        ticks[1..]))
  }

  function Moves(ticks: seq<Record>): nat {
    if ticks == [] then 0 else (if ticks[0].decision.Stay? then 0 else 1) + Moves(ticks[1..])
  }

  lemma {:induction false} MovesUnderConstantDelays(alpha: real, o: Optimal, view: View, ticks: seq<Record>)
    requires ValidView(view) && AllFresh(o, view) && o.slowTicks == 0 && IsRun(alpha, o, ticks) && Constant(view, ticks)
    ensures Moves(ticks) == if ticks == [] || StartsQuiet(view) then 0 else 1
    decreases |ticks|
  {
    hide Ticks, AllFresh, StartsQuiet;
    if ticks != [] {
      ConstantTick(alpha, o, view, ticks[0].decision, ticks[0].after);
      MovesUnderConstantDelays(alpha, ticks[0].after, view.(active := ActiveAfter(view, ticks[0].decision)),
          ticks[1..]);
    }
  }

  /** After a reset, constant delays lead to at most one move: none if the start is quiet, exactly one otherwise. */
  lemma ConstantDelaysMoveAtMostOnce(alpha: real, view: View, ticks: seq<Record>)
    requires ValidView(view) && IsRun(alpha, RESET, ticks) && Constant(view, ticks)
    ensures Moves(ticks) == if ticks == [] || StartsQuiet(view) then 0 else 1
  {
    hide Ticks, StartsQuiet;
    assert AllFresh(RESET, view);
    MovesUnderConstantDelays(alpha, RESET, view, ticks);
  }
}
