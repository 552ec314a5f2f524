/**
 What the optimal policy measures and when it moves: how samples wear off, how unreliability worsens a score, and the
 exact conditions of the three ways to leave the active node, in delays and averages.
 */
module OptimalDecisions {
  import opened Wrappers
  import opened OptimalController
  import opened OptimalTheorems

  // ---------- Samples wear off ----------

  function Power(base: real, exponent: nat): real {
    if exponent == 0 then 1.0 else base * Power(base, exponent - 1)
  }

  /** The averages after a node gave the same answer `count` times. */
  function Sampled(alpha: real, o: Optimal, view: View, name: string, count: nat): Optimal
    decreases count
  {
    if count == 0 then o else UpdateNode(alpha, Sampled(alpha, o, view, name, count - 1), view, name)
  }

  lemma Closer(alpha: real, previous: real, sample: real, weight: real, start: real)
    requires previous - sample == weight * (start - sample)
    ensures previous + alpha * (sample - previous) - sample == ((1.0 - alpha) * weight) * (start - sample)
  {
    assert previous + alpha * (sample - previous) - sample == (1.0 - alpha) * (previous - sample);
    Regroup(1.0 - alpha, weight, start - sample);
  }

  lemma Regroup(a: real, b: real, c: real)
    ensures a * (b * c) == (a * b) * c
  {
  }

  /** What one sample does to the averages of a known node. */
  lemma OneSample(alpha: real, o: Optimal, view: View, name: string)
    requires name in o.success
    ensures var after := UpdateNode(alpha, o, view, name);
      var sample := if name in view.delays then 1.0 else 0.0;
      && name in after.success && after.success[name] == o.success[name] + alpha * (sample - o.success[name])
      && (name !in view.delays ==> after.latency == o.latency)
      && (name in view.delays && name in o.latency ==>
            name in after.latency
            && after.latency[name] == o.latency[name] + alpha * (view.delays[name] - o.latency[name]))
  {
  }

  /** Each sample moves an average by the same share towards it: after `count` equal ones a power of the rest is left. */
  lemma {:induction false} SamplesApproach(alpha: real, o: Optimal, view: View, name: string, count: nat)
    requires name in view.delays && name in o.latency && name in o.success
    ensures var after := Sampled(alpha, o, view, name, count);
      && name in after.latency && name in after.success
      && after.latency[name] - view.delays[name] == Power(1.0 - alpha, count) * (o.latency[name] - view.delays[name])
      && after.success[name] - 1.0 == Power(1.0 - alpha, count) * (o.success[name] - 1.0)
    decreases count
  {
    hide UpdateNode;
    if count > 0 {
      SamplesApproach(alpha, o, view, name, count - 1);
      var before := Sampled(alpha, o, view, name, count - 1);
      OneSample(alpha, before, view, name);
      Closer(alpha, before.latency[name], view.delays[name], Power(1.0 - alpha, count - 1), o.latency[name]);
      Closer(alpha, before.success[name], 1.0, Power(1.0 - alpha, count - 1), o.success[name]);
    }
  }

  /** The half-life of eight measurements: eight equal answers halve the distance of the latency to the delay. */
  lemma HalfLifeOfEight(alpha: real, o: Optimal, view: View, name: string)
    requires name in view.delays && name in o.latency && name in o.success && Power(1.0 - alpha, 8) == 0.5
    ensures var after := Sampled(alpha, o, view, name, 8);
      name in after.latency && after.latency[name] - view.delays[name] == (o.latency[name] - view.delays[name]) / 2.0
  {
    hide Power;
    SamplesApproach(alpha, o, view, name, 8);
  }

  /** A miss ages the success only: the latency stays, and the success keeps a power of itself. */
  lemma {:induction false} MissesAgeSuccess(alpha: real, o: Optimal, view: View, name: string, count: nat)
    requires name !in view.delays && name in o.success
    ensures var after := Sampled(alpha, o, view, name, count);
      && after.latency == o.latency && name in after.success
      && after.success[name] == Power(1.0 - alpha, count) * o.success[name]
    decreases count
  {
    hide UpdateNode;
    if count > 0 {
      MissesAgeSuccess(alpha, o, view, name, count - 1);
      var before := Sampled(alpha, o, view, name, count - 1);
      OneSample(alpha, before, view, name);
      Closer(alpha, before.success[name], 0.0, Power(1.0 - alpha, count - 1), o.success[name]);
    }
  }

  /** A node seen for the first time has its sample as its average. */
  lemma FirstSample(alpha: real, o: Optimal, view: View, name: string)
    requires name !in o.latency && name !in o.success
    ensures var after := UpdateNode(alpha, o, view, name);
      && name in after.success && after.success[name] == (if name in view.delays then 1.0 else 0.0)
      && (if name in view.delays then name in after.latency && after.latency[name] == view.delays[name]
          else name !in after.latency)
  {
  }

  // ---------- Scores ----------

  /** Of two nodes with one latency the less reliable scores worse, until both answer at most one time in twenty. */
  lemma LessReliableIsWorse(o: Optimal, a: string, b: string)
    requires a in o.latency && b in o.latency && o.latency[a] == o.latency[b] > 0.0
    requires a in o.success && b in o.success && 0.0 <= o.success[a] < o.success[b]
    ensures Better(Effective(o, b), Effective(o, a)) <==> o.success[b] > 0.05
  {
    var divisorA, divisorB := Max(o.success[a], SUCCESS_EPSILON), Max(o.success[b], SUCCESS_EPSILON);
    if o.success[b] > 0.05 {
      assert divisorA < divisorB;
      DivideLess(o.latency[a], divisorA, divisorB);
    } else {
      assert divisorA == divisorB;
    }
  }

  lemma DivideLess(x: real, a: real, b: real)
    requires x > 0.0 && 0.0 < a < b
    ensures x / b < x / a
  {
    var y, z := x / b, x / a;
    assert y * b == x && z * a == x;
    Positive(y, b);
    Grows(y, a, b);
    Cancels(y, z, a);
  }

  lemma Positive(k: real, b: real)
    requires k * b > 0.0 && b > 0.0
    ensures k > 0.0
  {
  }

  lemma Grows(k: real, a: real, b: real)
    requires k > 0.0 && a < b
    ensures k * a < k * b
  {
  }

  lemma Cancels(a: real, b: real, k: real)
    requires a * k < b * k && k > 0.0
    ensures a < b
  {
  }

  /** The score times the reliability is the latency; a node that never answered has none and is never better. */
  lemma ScoreMeans(o: Optimal, name: string)
    requires name in o.success
    ensures name in o.latency ==>
      Effective(o, name).Some?
      && Effective(o, name).value * (if o.success[name] < 0.05 then 0.05 else o.success[name]) == o.latency[name]
    ensures name !in o.latency ==> Effective(o, name) == None && forall other :: !Better(Effective(o, name), other)
  {
  }

  // ---------- Leaving the active node ----------

  /** The delay of an answering node is more than 35 percent above that of the other. */
  predicate MuchSlower(view: View, active: string, other: string) {
    active in view.delays && other in view.delays && view.delays[active] > 1.35 * view.delays[other]
  }

  /** The score of the target is at least ten percent below the active node's, taken as its current delay when that is worse. */
  predicate MuchBetter(o: Optimal, view: View, active: string, target: string) {
    match (Effective(o, active), Effective(o, target))
    case (None, _) => true
    case (Some(_), None) => false
    case (Some(score), Some(better)) =>
      better <= 0.9 * (if active in view.delays && score < view.delays[active] then view.delays[active] else score)
  }

  /**
   With the averages updated and the best answering node found: a silent active node is left at once, a much slower one
   on its second slow tick, and otherwise a node is left for a much better one. Without another answering node it stays.
   */
  lemma LeavesIff(o: Optimal, view: View, target: Option<string>)
    requires HasActive(view) && IsTarget(o, view, target)
    ensures var (decision, next), active := Choose(o, view, target), view.active.value;
      && (decision.Down? <==> target.Some? && active !in view.delays)
      && (decision.Slow? <==> target.Some? && MuchSlower(view, active, target.value) && o.slowTicks >= 1)
      && (decision.Proactive? <==>
            && target.Some? && active in view.delays && !(MuchSlower(view, active, target.value) && o.slowTicks >= 1)
            && MuchBetter(o, view, active, target.value))
      && !decision.Initial? && (!decision.Stay? ==> target == Some(decision.to))
      && next.slowTicks == (if decision.Stay? && target.Some? && MuchSlower(view, active, target.value) then o.slowTicks + 1 else 0)
  {
    hide Effective;
  }

  /** The streaks on a run: a miss is never carried over while another node answers, and a slow streak stays below two. */
  lemma StreaksStayShort(o: Optimal, view: View, target: Option<string>)
    requires HasActive(view) && o.slowTicks < 2
    ensures Choose(o, view, target).1.slowTicks < 2
    ensures target.Some? || view.active.value in view.delays ==> Choose(o, view, target).1.misses == 0
  {
    hide Effective;
  }
}
