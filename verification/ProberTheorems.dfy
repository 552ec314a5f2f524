/**
 The prober's rotation is fair and bounded: the cursor stays in range, a tick probes at most the cap and only stale
 nodes, a stale node is reached within one sweep of polls, and no attempt is repeated within the interval exactly while
 the interval fits in the grace period of the prober's memory.
 */
module ProberTheorems {
  import opened NodeProber

  // ---------- The cursor and the list ----------

  lemma {:induction false} KeepIsDistinct(names: seq<string>, current: seq<string>)
    requires Distinct(names)
    ensures Distinct(Keep(names, current))
    ensures forall name :: name in Keep(names, current) <==> name in names && name in current
    decreases |names|
  {
    if names != [] {
      KeepIsDistinct(names[1..], current);
      assert names == [names[0]] + names[1..];
      assert names[0] !in names[1..];
    }
  }

  lemma {:induction false} AppendIsDistinct(names: seq<string>, current: seq<string>)
    requires Distinct(names)
    ensures Distinct(AppendNew(names, current)) && names <= AppendNew(names, current)
    ensures forall name :: name in AppendNew(names, current) <==> name in names || name in current
    decreases |current|
  {
    if current != [] {
      AppendIsDistinct(if current[0] in names then names else names + [current[0]], current[1..]);
      assert current == [current[0]] + current[1..];
    }
  }

  /** After a snapshot the rotation holds exactly the nodes in view, the old ones first and in their old order. */
  lemma ObserveFollowsView(p: Rotation, snapshot: Snapshot, now: int)
    requires Valid(p)
    ensures var next := Observe(p, snapshot, now);
      && Valid(next) && Keep(p.names, Current(snapshot.members)) <= next.names
      && forall name :: name in next.names <==> name in Current(snapshot.members)
  {
    hide Distinct, Keep, AppendNew, Current, Refresh, Forget, Attempted;
    var current := Current(snapshot.members);
    KeepIsDistinct(p.names, current);
    AppendIsDistinct(Keep(p.names, current), current);
  }

  lemma {:induction false} PickEndBound(p: Rotation, config: Config, now: int, room: nat, step: nat, last: nat)
    requires p.names != [] && step <= |p.names| && last <= step
    ensures last <= PickEnd(p, config, now, room, step, last) <= |p.names|
    decreases |p.names| - step
  {
    if step < |p.names| && room > 0 {
      if IsStale(p, config, now, NameAt(p, step)) {
        PickEndBound(p, config, now, room - 1, step + 1, step + 1);
      } else {
        PickEndBound(p, config, now, room, step + 1, last);
      }
    }
  }

  lemma TickKeepsValid(p: Rotation, config: Config, now: int)
    requires Valid(p) && ValidConfig(config)
    ensures Valid(Tick(p, config, now)) && Tick(p, config, now).names == p.names
  {
    hide Distinct, Pick, PickEnd, Attempted, Batch;
  }

  // ---------- What a tick probes ----------

  lemma {:induction false} PickIsStale(p: Rotation, config: Config, now: int, room: nat, step: nat)
    requires p.names != [] && step <= |p.names|
    ensures |Pick(p, config, now, room, step)| <= room
    ensures forall name :: name in Pick(p, config, now, room, step) ==> name in p.names && IsStale(p, config, now, name)
    decreases |p.names| - step
  {
    hide IsStale;
    if step < |p.names| && room > 0 {
      if IsStale(p, config, now, NameAt(p, step)) {
        PickIsStale(p, config, now, room - 1, step + 1);
      } else {
        PickIsStale(p, config, now, room, step + 1);
      }
    }
  }

  /** A tick probes at most the cap, only nodes of the rotation, and only stale ones. */
  lemma TickIsBounded(p: Rotation, config: Config, now: int)
    requires ValidConfig(config)
    ensures |Picked(p, config, now)| <= config.concurrency
    ensures forall name :: name in Picked(p, config, now) ==> name in p.names && IsStale(p, config, now, name)
  {
    hide IsStale;
    if p.names != [] {
      PickIsStale(p, config, now, Batch(config, |p.names|), 0);
    }
  }

  // ---------- Approaching a node ----------

  /** How many steps from the cursor a position of the list is. */
  function Distance(p: Rotation, index: nat): (d: nat)
    requires Valid(p) && index < |p.names|
    ensures d < |p.names|
  {
    if index >= p.cursor then index - p.cursor else index + |p.names| - p.cursor
  }

  lemma Wrap(k: nat, n: nat)
    requires k < n
    ensures k % n == k && (k + n) % n == k
  {
  }

  lemma DistanceFinds(p: Rotation, index: nat)
    requires Valid(p) && index < |p.names|
    ensures NameAt(p, Distance(p, index)) == p.names[index]
  {
    Wrap(index, |p.names|);
  }

  /** Moving the cursor forward, but not past a position, brings it closer by as much. */
  lemma DistanceShrinks(p: Rotation, next: Rotation, index: nat, moved: nat)
    requires Valid(p) && index < |p.names| && moved <= Distance(p, index)
    requires next.names == p.names && next.cursor == (p.cursor + moved) % |p.names|
    ensures Valid(next) && Distance(next, index) == Distance(p, index) - moved
  {
    var n := |p.names|;
    if p.cursor + moved < n {
      Wrap(p.cursor + moved, n);
    } else {
      Wrap(p.cursor + moved - n, n);
    }
  }

  /** A stale node at distance `d` is picked, or the batch was filled before it was reached. */
  lemma {:induction false} PickReaches(p: Rotation, config: Config, now: int, room: nat, step: nat, last: nat, d: nat)
    requires p.names != [] && step <= d < |p.names| && last <= step && IsStale(p, config, now, NameAt(p, d))
    ensures NameAt(p, d) in Pick(p, config, now, room, step)
      || (PickEnd(p, config, now, room, step, last) <= d && (room > 0 ==>
        PickEnd(p, config, now, room, step, last) >= step + room))
    decreases |p.names| - step
  {
    hide IsStale, NameAt;
    if room > 0 {
      if IsStale(p, config, now, NameAt(p, step)) {
        if step < d {
          PickReaches(p, config, now, room - 1, step + 1, step + 1, d);
        }
      } else {
        PickReaches(p, config, now, room, step + 1, last, d);
      }
    }
  }

  lemma {:induction false} NothingPicked(p: Rotation, config: Config, now: int, room: nat, step: nat, last: nat)
    requires p.names != [] && step <= |p.names| && Pick(p, config, now, room, step) == []
    ensures PickEnd(p, config, now, room, step, last) == last
    decreases |p.names| - step
  {
    hide IsStale;
    if step < |p.names| && room > 0 {
      NothingPicked(p, config, now, room, step + 1, last);
    }
  }

  /** A tick picks a stale node or comes closer to it by a whole batch. */
  lemma TickApproaches(p: Rotation, config: Config, now: int, index: nat)
    requires Valid(p) && ValidConfig(config) && index < |p.names| && config.concurrency >= 1
    requires IsStale(p, config, now, p.names[index]) && p.names[index] !in Picked(p, config, now)
    ensures var next := Tick(p, config, now);
      next.names == p.names && Valid(next) && Distance(next, index) + Batch(config, |p.names|) <= Distance(p, index)
    ensures IsStale(Tick(p, config, now), config, now, p.names[index])
  {
    hide Pick, PickEnd, Distinct;
    var room, d := Batch(config, |p.names|), Distance(p, index);
    AttemptedAt(p.lastAttempt, Picked(p, config, now), now);
    DistanceFinds(p, index);
    PickReaches(p, config, now, room, 0, 0, d);
    if Pick(p, config, now, room, 0) == [] {
      NothingPicked(p, config, now, room, 0, 0);
    } else {
      DistanceShrinks(p, Tick(p, config, now), index, PickEnd(p, config, now, room, 0, 0));
    }
  }

  // ---------- Polls ----------

  type PollConfig = c: Config | ValidConfig(c) witness Config(1, 0, 0)

  /** One poll of the live hub: the snapshot is observed and, unless the poll fails in between, a tick follows. */
  datatype Poll = Poll(snapshot: Snapshot, observedAt: int, ticks: bool, config: PollConfig, tickedAt: int)

  /** What the tick of a poll works on. */
  function Seen(p: Rotation, poll: Poll): Rotation {
    Observe(p, poll.snapshot, poll.observedAt)
  }

  function Probes(p: Rotation, poll: Poll): seq<string> {
    if poll.ticks then Picked(Seen(p, poll), poll.config, poll.tickedAt) else []
  }

  function PollStep(p: Rotation, poll: Poll): Rotation {
    if poll.ticks then Tick(Seen(p, poll), poll.config, poll.tickedAt) else Seen(p, poll)
  }

  /** Some poll of the run probes the name. */
  predicate IsProbed(p: Rotation, polls: seq<Poll>, name: string)
    decreases |polls|
  {
    polls != [] && (name in Probes(p, polls[0]) || IsProbed(PollStep(p, polls[0]), polls[1..], name))
  }

  // ---------- Fairness ----------

  function TickCount(polls: seq<Poll>): nat
    decreases |polls|
  {
    if polls == [] then 0 else (if polls[0].ticks then 1 else 0) + TickCount(polls[1..])
  }

  /** Every snapshot shows the nodes of the list, in any order, and every batch has room for `b`. */
  ghost predicate SameNodes(polls: seq<Poll>, names: seq<string>, b: nat)
    decreases |polls|
  {
    polls == [] ||
    (&& (forall name :: name in Current(polls[0].snapshot.members) <==> name in names)
     && b <= Batch(polls[0].config, |names|)
     && SameNodes(polls[1..], names, b))
  }

  /** The node is stale at every tick until it is picked. */
  predicate StaysStale(p: Rotation, polls: seq<Poll>, name: string)
    decreases |polls|
  {
    polls == [] ||
    (&& (polls[0].ticks ==> IsStale(Seen(p, polls[0]), polls[0].config, polls[0].tickedAt, name))
     && (name in Probes(p, polls[0]) || StaysStale(PollStep(p, polls[0]), polls[1..], name)))
  }

  lemma {:induction false} KeepAll(names: seq<string>, current: seq<string>)
    requires forall name :: name in names ==> name in current
    ensures Keep(names, current) == names
    decreases |names|
  {
    if names != [] {
      KeepAll(names[1..], current);
    }
  }

  lemma {:induction false} AppendNothing(names: seq<string>, current: seq<string>)
    requires forall name :: name in current ==> name in names
    ensures AppendNew(names, current) == names
    decreases |current|
  {
    if current != [] {
      AppendNothing(names, current[1..]);
    }
  }

  /** A snapshot of the same nodes leaves the rotation where it is. */
  lemma SameViewKeepsRotation(p: Rotation, snapshot: Snapshot, now: int)
    requires Valid(p) && forall name :: name in Current(snapshot.members) <==> name in p.names
    ensures Observe(p, snapshot, now).names == p.names && Observe(p, snapshot, now).cursor == p.cursor
  {
    hide Current, Refresh, Forget, Attempted, Distinct, Keep, AppendNew;
    KeepAll(p.names, Current(snapshot.members));
    AppendNothing(p.names, Current(snapshot.members));
  }

  lemma SameDistance(p: Rotation, next: Rotation, index: nat)
    requires Valid(p) && index < |p.names| && next.names == p.names && next.cursor == p.cursor
    ensures Valid(next) && Distance(next, index) == Distance(p, index)
  {
  }

  lemma {:induction false} ReachedWithin(p: Rotation, polls: seq<Poll>, index: nat, b: nat)
    requires Valid(p) && index < |p.names| && b >= 1
    requires SameNodes(polls, p.names, b) && StaysStale(p, polls, p.names[index])
    requires Distance(p, index) < TickCount(polls) * b
    ensures IsProbed(p, polls, p.names[index])
    decreases |polls|
  {
    hide Observe, Tick, Picked, Batch, Distance, Valid, IsStale, Current;
    if polls != [] && p.names[index] !in Probes(p, polls[0]) {
      var poll, seen := polls[0], Seen(p, polls[0]);
      SameViewKeepsRotation(p, poll.snapshot, poll.observedAt);
      SameDistance(p, seen, index);
      if poll.ticks {
        Capped(poll.config, |p.names|);
        TickApproaches(seen, poll.config, poll.tickedAt, index);
        OneBatchLess(TickCount(polls), b);
      }
      ReachedWithin(PollStep(p, poll), polls[1..], index, b);
    }
  }

  lemma Capped(config: Config, count: nat)
    requires ValidConfig(config)
    ensures Batch(config, count) <= config.concurrency
  {
  }

  lemma OneBatchLess(count: nat, b: nat)
    requires count >= 1
    ensures count * b == (count - 1) * b + b
  {
  }

  lemma SweepCovers(count: nat, b: nat)
    requires b >= 1
    ensures CeilDiv(count, b) * b >= count
    ensures count >= 1 ==> CeilDiv(count, b) >= 1 && (CeilDiv(count, b) - 1) * b < count
  {
    var sum := count + b - 1;
    assert sum == (sum / b) * b + sum % b;
    assert sum % b < b;
  }

  /**
   A node of a fixed list that stays stale until it is picked is picked by one of any ceil(N / b) ticks of the polling
   loop, whatever the snapshots measure and whatever the other nodes do.
   */
  lemma StaleNodeIsProbedWithinASweep(p: Rotation, polls: seq<Poll>, index: nat, b: nat)
    requires Valid(p) && index < |p.names| && b >= 1 && SameNodes(polls, p.names, b)
    requires StaysStale(p, polls, p.names[index]) && TickCount(polls) >= CeilDiv(|p.names|, b)
    ensures IsProbed(p, polls, p.names[index])
  {
    hide IsStale, Batch, Distance, StaysStale, SameNodes, IsProbed;
    SweepCovers(|p.names|, b);
    Scale(CeilDiv(|p.names|, b), TickCount(polls), b);
    ReachedWithin(p, polls, index, b);
  }

  lemma BatchIsPositive(config: Config, count: nat)
    requires ValidConfig(config) && config.concurrency >= 1
    ensures 1 <= Batch(config, count) <= config.concurrency
  {
  }

  /** Unless the cap binds, the pulses of one sweep fit in one check interval. */
  lemma SweepFitsInterval(config: Config, count: nat)
    requires ValidConfig(config) && config.concurrency >= 1 && count >= 1 && Batch(config, count) < config.concurrency
    ensures (CeilDiv(count, Batch(config, count)) - 1) * config.pulseMs < config.staleMs
  {
    var b, pulse, stale := Batch(config, count), config.pulseMs, config.staleMs;
    BatchIsPositive(config, count);
    SweepCovers(count, b);
    SweepCovers(count * pulse, stale);
    var before := CeilDiv(count, b) - 1;
    if pulse > 0 {
      assert CeilDiv(count * pulse, stale) <= b;
      Scale(CeilDiv(count * pulse, stale), b, stale);
      ScaleStrictly(before * b, count, pulse);
      assert (before * b) * pulse == (before * pulse) * b;
      if before * pulse >= stale {
        Scale(stale, before * pulse, b);
        assert false;
      }
    } else {
      assert before * pulse == 0;
    }
  }

  lemma Scale(a: int, b: int, k: int)
    requires a <= b && k >= 0
    ensures a * k <= b * k
  {
  }

  lemma ScaleStrictly(a: int, b: int, k: int)
    requires a < b && k > 0
    ensures a * k < b * k
  {
  }

  /** The batch is the least that sweeps the list within one interval, but at least one and at most the cap. */
  lemma BatchIsLeast(config: Config, count: nat)
    requires ValidConfig(config) && config.concurrency >= 1
    ensures var b := Batch(config, count);
      && 1 <= b <= config.concurrency
      && (b == config.concurrency || count * config.pulseMs <= b * config.staleMs)
      && (b == 1 || (b - 1) * config.staleMs < count * config.pulseMs)
  {
    var work, stale, spread, b := count * config.pulseMs, config.staleMs, CeilDiv(count * config.pulseMs, config.staleMs), Batch(config, count);
    SweepCovers(work, stale);
    NoWork(stale);
    hide CeilDiv;
    if spread <= 1 {
      Scale(spread, 1, stale);
    } else {
      Scale(b - 1, spread - 1, stale);
    }
  }

  lemma NoWork(stale: int)
    requires stale >= 1
    ensures CeilDiv(0, stale) == 0
  {
  }

  // ---------- Which nodes a tick takes ----------

  /** The stale nodes are taken in rotation order: one that is left out is behind a full batch of others. */
  lemma {:induction false} PickOrder(p: Rotation, config: Config, now: int, room: nat, step: nat, d: nat, e: nat)
    requires Valid(p) && p.names != [] && step <= d < |p.names| && step <= e < |p.names|
    requires IsStale(p, config, now, NameAt(p, d)) && NameAt(p, d) !in Pick(p, config, now, room, step)
    requires NameAt(p, e) in Pick(p, config, now, room, step)
    ensures e < d
    decreases |p.names| - step
  {
    hide IsStale, NameAt, Valid;
    if room > 0 {
      if step == e {
      } else if IsStale(p, config, now, NameAt(p, step)) {
        DifferentSteps(p, step, e);
        if step < d {
          PickOrder(p, config, now, room - 1, step + 1, d, e);
        }
      } else if step < d {
        PickOrder(p, config, now, room, step + 1, d, e);
      }
    }
  }

  lemma DifferentSteps(p: Rotation, d: nat, e: nat)
    requires Valid(p) && p.names != [] && d < e < |p.names|
    ensures NameAt(p, d) != NameAt(p, e)
  {
    var n := |p.names|;
    var i, j := p.cursor + d, p.cursor + e;
    assert i % n == (if i < n then i else i - n) by {
      Wrap(if i < n then i else i - n, n);
    }
    assert j % n == (if j < n then j else j - n) by {
      Wrap(if j < n then j else j - n, n);
    }
  }

  lemma {:induction false} BatchIsFilled(p: Rotation, config: Config, now: int, room: nat, step: nat, d: nat)
    requires p.names != [] && step <= d < |p.names|
    requires IsStale(p, config, now, NameAt(p, d)) && NameAt(p, d) !in Pick(p, config, now, room, step)
    ensures |Pick(p, config, now, room, step)| == room
    decreases |p.names| - step
  {
    hide IsStale, NameAt;
    if room > 0 {
      if IsStale(p, config, now, NameAt(p, step)) {
        if step < d {
          BatchIsFilled(p, config, now, room - 1, step + 1, d);
        }
      } else {
        BatchIsFilled(p, config, now, room, step + 1, d);
      }
    }
  }

  /** A tick takes the first stale nodes from its cursor on: one that it leaves out is behind a full batch of them. */
  lemma TakesFirstStale(p: Rotation, config: Config, now: int, d: nat, e: nat)
    requires Valid(p) && ValidConfig(config) && p.names != [] && d < |p.names| && e < |p.names|
    requires IsStale(p, config, now, NameAt(p, d)) && NameAt(p, d) !in Picked(p, config, now)
    ensures |Picked(p, config, now)| == Batch(config, |p.names|)
    ensures NameAt(p, e) in Picked(p, config, now) ==> e < d
  {
    hide IsStale, NameAt, Valid, Pick, Batch;
    BatchIsFilled(p, config, now, Batch(config, |p.names|), 0, d);
    if NameAt(p, e) in Picked(p, config, now) {
      PickOrder(p, config, now, Batch(config, |p.names|), 0, d, e);
    }
  }

  // ---------- What a snapshot tells ----------

  lemma {:induction false} RefreshTakes(times: map<string, int>, current: seq<string>, snapshot: Snapshot,
    delays: bool, name: string)
    ensures var after := Refresh(times, current, snapshot, delays);
      if name in current && Measured(snapshot, name) then
        name in after && after[name] == (if delays then snapshot.measured[name].delay else snapshot.measured[name].time.value)
      else (name in after <==> name in times) && (name in times ==> after[name] == times[name])
    decreases |current|
  {
    if current != [] {
      assert current == [current[0]] + current[1..];
      if Measured(snapshot, current[0]) {
        var measurement := snapshot.measured[current[0]];
        var value := if delays then measurement.delay else measurement.time.value;
        RefreshTakes(times[current[0] := value], current[1..], snapshot, delays, name);
      } else {
        RefreshTakes(times, current[1..], snapshot, delays, name);
      }
    }
  }

  /** A node that the snapshot shows measured is as stale as its measurement, or as the last attempt if that is later. */
  lemma MeasuredNodeIsStaleIff(p: Rotation, snapshot: Snapshot, now: int, config: Config, later: int, name: string)
    requires name in Current(snapshot.members) && Measured(snapshot, name)
    ensures IsStale(Observe(p, snapshot, now), config, later, name) <==>
      && snapshot.measured[name].time.value <= later - config.staleMs
      && (name in p.lastAttempt ==> p.lastAttempt[name] <= later - config.staleMs)
  {
    hide Current, AppendNew, Keep, Attempted;
    RefreshTakes(
      Forget(p.lastInView, Current(snapshot.members), now, p.lastSeen), Current(snapshot.members), snapshot, false, name);
  }

  /** A freshly measured node is not probed. */
  lemma FreshNodeIsNotProbed(p: Rotation, poll: Poll, name: string)
    requires name in Current(poll.snapshot.members) && Measured(poll.snapshot, name)
    requires poll.snapshot.measured[name].time.value > poll.tickedAt - poll.config.staleMs
    ensures name !in Probes(p, poll)
  {
    hide Observe, IsStale, Picked;
    MeasuredNodeIsStaleIff(p, poll.snapshot, poll.observedAt, poll.config, poll.tickedAt, name);
    TickIsBounded(Seen(p, poll), poll.config, poll.tickedAt);
  }

  // ---------- No early repetition ----------

  /** The clock of a run of polls does not go back. */
  predicate Ordered(polls: seq<Poll>)
    decreases |polls|
  {
    polls == [] ||
    (&& polls[0].observedAt <= polls[0].tickedAt
     && (|polls| > 1 ==> polls[0].tickedAt <= polls[1].observedAt)
     && Ordered(polls[1..]))
  }

  /** Every tick uses at most the interval and comes within `lag` of its snapshot. */
  predicate Fits(polls: seq<Poll>, interval: int, lag: int) {
    forall k :: 0 <= k < |polls| ==>
      polls[k].config.staleMs <= interval && polls[k].tickedAt <= polls[k].observedAt + lag
  }

  /** After an attempt at `since` the name is not probed before the check interval has passed. */
  predicate Rests(p: Rotation, polls: seq<Poll>, name: string, since: int)
    decreases |polls|
  {
    polls == [] ||
    (&& (name in Probes(p, polls[0]) ==> since + polls[0].config.staleMs <= polls[0].tickedAt)
     && Rests(PollStep(p, polls[0]), polls[1..], name, since))
  }

  /** No two attempts of a name in the run lie within one check interval. */
  ghost predicate Spaced(p: Rotation, polls: seq<Poll>)
    decreases |polls|
  {
    polls == [] ||
    (&& (forall name :: name in Probes(p, polls[0]) ==>
      Rests(PollStep(p, polls[0]), polls[1..], name, polls[0].tickedAt))
     && Spaced(PollStep(p, polls[0]), polls[1..]))
  }

  /** The attempt is remembered, and the node was last in view at most `lag` before it. */
  predicate Remembers(p: Rotation, name: string, since: int, lag: int) {
    && name in p.lastAttempt && since <= p.lastAttempt[name]
    && name in p.lastInView && since <= p.lastInView[name] + lag
  }

  lemma ObserveRemembers(p: Rotation, snapshot: Snapshot, now: int, name: string, since: int, lag: nat)
    requires Remembers(p, name, since, lag) && since <= now
    requires !Forgotten(p.lastInView, Current(snapshot.members), now, name)
    ensures Remembers(Observe(p, snapshot, now), name, since, lag)
  {
    hide Current, Refresh, Attempted, AppendNew, Keep;
    AttemptedAt(Forget(p.lastInView, Current(snapshot.members), now, p.lastInView), Current(snapshot.members), now);
  }

  lemma TickRemembers(p: Rotation, config: Config, now: int, name: string, since: int, lag: int)
    requires ValidConfig(config) && Remembers(p, name, since, lag) && since <= now
    ensures Remembers(Tick(p, config, now), name, since, lag)
    ensures name in Picked(p, config, now) ==> since + config.staleMs <= now
  {
    hide Pick, PickEnd, Attempted, Batch;
    AttemptedAt(p.lastAttempt, Picked(p, config, now), now);
    TickIsBounded(p, config, now);
  }

  lemma PollRemembers(p: Rotation, poll: Poll, name: string, since: int, lag: nat)
    requires Remembers(p, name, since, lag) && since <= poll.observedAt <= poll.tickedAt
    requires !Forgotten(p.lastInView, Current(poll.snapshot.members), poll.observedAt, name)
    ensures Remembers(PollStep(p, poll), name, since, lag)
    ensures name in Probes(p, poll) ==> since + poll.config.staleMs <= poll.tickedAt
  {
    hide Remembers, Observe, Tick, Picked, Forgotten;
    ObserveRemembers(p, poll.snapshot, poll.observedAt, name, since, lag);
    if poll.ticks {
      TickRemembers(Seen(p, poll), poll.config, poll.tickedAt, name, since, lag);
    }
  }

  lemma {:induction false} RestsOnceLate(p: Rotation, polls: seq<Poll>, name: string, since: int, interval: int,
      lag: int)
    requires Ordered(polls) && Fits(polls, interval, lag) && (polls != [] ==> since + interval <= polls[0].observedAt)
    ensures Rests(p, polls, name, since)
    decreases |polls|
  {
    hide Probes, PollStep;
    if polls != [] {
      FitsRest(polls, interval, lag);
      RestsOnceLate(PollStep(p, polls[0]), polls[1..], name, since, interval, lag);
    }
  }

  lemma FitsRest(polls: seq<Poll>, interval: int, lag: int)
    requires Fits(polls, interval, lag) && polls != []
    ensures Fits(polls[1..], interval, lag)
  {
    forall k | 0 <= k < |polls[1..]|
      ensures polls[1..][k].config.staleMs <= interval && polls[1..][k].tickedAt <= polls[1..][k].observedAt + lag
    {
      assert polls[1..][k] == polls[k + 1];
    }
  }

  /** An attempt is forgotten only after the grace period, and by then the interval has passed. */
  lemma {:induction false} RestsWithinGrace(p: Rotation, polls: seq<Poll>, name: string, since: int, interval: int,
      lag: nat)
    requires Ordered(polls) && Fits(polls, interval, lag) && interval + lag <= MEMORY_GRACE_MS + 1
    requires Remembers(p, name, since, lag) && (polls != [] ==> since <= polls[0].observedAt)
    ensures Rests(p, polls, name, since)
    decreases |polls|
  {
    hide Probes, PollStep, Current;
    if polls != [] {
      if Forgotten(p.lastInView, Current(polls[0].snapshot.members), polls[0].observedAt, name) {
        RestsOnceLate(p, polls, name, since, interval, lag);
      } else {
        FitsRest(polls, interval, lag);
        PollRemembers(p, polls[0], name, since, lag);
        RestsWithinGrace(PollStep(p, polls[0]), polls[1..], name, since, interval, lag);
      }
    }
  }

  /** A node that is in every snapshot is never repeated early, whatever the interval and the pace of the polls. */
  lemma {:induction false} InViewIsNeverRepeated(p: Rotation, polls: seq<Poll>, name: string, since: int, lag: nat)
    requires Ordered(polls) && Remembers(p, name, since, lag) && (polls != [] ==> since <= polls[0].observedAt)
    requires forall k :: 0 <= k < |polls| ==> name in Current(polls[k].snapshot.members)
    ensures Rests(p, polls, name, since)
    decreases |polls|
  {
    hide Probes, PollStep, Current, Remembers;
    if polls != [] {
      assert name in Current(polls[0].snapshot.members);
      PollRemembers(p, polls[0], name, since, lag);
      forall k | 0 <= k < |polls[1..]| ensures name in Current(polls[1..][k].snapshot.members) {
        assert name in Current(polls[k + 1].snapshot.members);
      }
      InViewIsNeverRepeated(PollStep(p, polls[0]), polls[1..], name, since, lag);
    }
  }

  /** Whatever a poll probes is remembered after it. */
  lemma ProbesAreRemembered(p: Rotation, poll: Poll, name: string, lag: nat)
    requires Valid(p) && name in Probes(p, poll) && poll.observedAt <= poll.tickedAt <= poll.observedAt + lag
    ensures Remembers(PollStep(p, poll), name, poll.tickedAt, lag)
  {
    hide Current, Refresh, AppendNew, Keep, Forget, Attempted, Pick, PickEnd, Batch, Distinct;
    var current, seen := Current(poll.snapshot.members), Seen(p, poll);
    ObserveFollowsView(p, poll.snapshot, poll.observedAt);
    TickIsBounded(seen, poll.config, poll.tickedAt);
    AttemptedAt(Forget(p.lastInView, current, poll.observedAt, p.lastInView), current, poll.observedAt);
    AttemptedAt(seen.lastAttempt, Picked(seen, poll.config, poll.tickedAt), poll.tickedAt);
  }

  lemma PollKeepsValid(p: Rotation, poll: Poll)
    requires Valid(p)
    ensures Valid(PollStep(p, poll))
  {
    hide Valid, Observe, Tick;
    ObserveFollowsView(p, poll.snapshot, poll.observedAt);
    if poll.ticks {
      TickKeepsValid(Seen(p, poll), poll.config, poll.tickedAt);
    }
  }

  /** From any rotation: no attempt is repeated early while interval and lag fit in the grace period. */
  lemma {:induction false} AttemptsAreSpaced(p: Rotation, polls: seq<Poll>, interval: int, lag: nat)
    requires Valid(p) && Ordered(polls) && Fits(polls, interval, lag) && interval + lag <= MEMORY_GRACE_MS + 1
    ensures Spaced(p, polls)
    decreases |polls|
  {
    hide Probes, PollStep, Valid, Rests, Remembers;
    if polls != [] {
      FitsRest(polls, interval, lag);
      forall name | name in Probes(p, polls[0])
          ensures Rests(PollStep(p, polls[0]), polls[1..], name, polls[0].tickedAt) {
        ProbesAreRemembered(p, polls[0], name, lag);
        RestsWithinGrace(PollStep(p, polls[0]), polls[1..], name, polls[0].tickedAt, interval, lag);
      }
      PollKeepsValid(p, polls[0]);
      AttemptsAreSpaced(PollStep(p, polls[0]), polls[1..], interval, lag);
    }
  }

  const START := Rotation([], 0, map[], map[], map[], map[])

  /** A node that disappears for the grace period, and is back at the next poll. */
  function Disappearing(interval: int, lag: nat): seq<Poll>
    requires interval >= 1
  {
    var config, back := Config(interval, 5_000, 48), if lag <= MEMORY_GRACE_MS then MEMORY_GRACE_MS + 1 else lag;
    [Poll(Snapshot(["a"], map[]), 0, true, config, lag),
     Poll(Snapshot([], map[]), back, true, config, back),
     Poll(Snapshot(["a"], map[]), back, true, config, back)]
  }

  /** A poll that shows the one node "a" to a prober that remembers nothing of it probes it. */
  lemma FirstSightProbes(p: Rotation, poll: Poll)
    requires p == START && poll.ticks && poll.snapshot == Snapshot(["a"], map[]) && poll.config.concurrency >= 1
    ensures Probes(p, poll) == ["a"] && PollStep(p, poll).names == ["a"]
    ensures PollStep(p, poll).lastSeen == map[] && PollStep(p, poll).lastDelay == map[]
    ensures PollStep(p, poll).lastAttempt == map["a" := poll.tickedAt]
    ensures PollStep(p, poll).lastInView == map["a" := poll.observedAt]
  {
    assert Current(["a"]) == ["a"] by { assert ["a"][1..] == []; }
    var seen := Seen(p, poll);
    assert AppendNew(Keep([], ["a"]), ["a"]) == ["a"];
    assert seen.names == ["a"] && seen.lastSeen == map[] && seen.lastDelay == map[] && seen.lastAttempt == map[];
    assert seen.lastInView == map["a" := poll.observedAt];
    PicksSole(seen, poll.config, poll.tickedAt);
    assert Attempted(map[], ["a"], poll.tickedAt) == map["a" := poll.tickedAt];
  }

  /** A snapshot without nodes, later than the grace period, leaves nothing of "a". */
  lemma AbsenceForgets(p: Rotation, poll: Poll)
    requires p.names == ["a"] && p.lastSeen == map[] && p.lastDelay == map[] && poll.snapshot == Snapshot([], map[])
    requires p.lastAttempt.Keys == {"a"} && p.lastInView.Keys == {"a"}
    requires poll.observedAt - p.lastInView["a"] > MEMORY_GRACE_MS
    ensures Probes(p, poll) == [] && PollStep(p, poll) == START
  {
    var seen := Seen(p, poll);
    assert Keep(["a"], []) == [];
    assert seen.names == [] && seen.lastSeen == map[] && seen.lastDelay == map[];
    assert ForgottenNames(p.lastInView, [], poll.observedAt) == {"a"};
    assert seen.lastAttempt == map[] && seen.lastInView == map[];
  }

  /** The failing family: whenever interval and lag exceed the grace period, the node is probed again too early. */
  lemma ForgottenAttemptIsRepeated(interval: int, lag: nat)
    requires interval >= 1 && interval + lag > MEMORY_GRACE_MS + 1
    ensures !Spaced(START, Disappearing(interval, lag))
  {
    hide Observe, Tick, Picked;
    var polls := Disappearing(interval, lag);
    var rest, last := polls[1..], polls[2..];
    assert rest[1..] == last && last[1..] == [] && rest[0] == polls[1] && last[0] == polls[2];
    FirstSightProbes(START, polls[0]);
    var probed := PollStep(START, polls[0]);
    AbsenceForgets(probed, polls[1]);
    FirstSightProbes(START, polls[2]);
    assert !Rests(START, last, "a", polls[0].tickedAt);
    assert !Rests(probed, rest, "a", polls[0].tickedAt);
    assert "a" in Probes(START, polls[0]);
  }

  /** The run is one of the polling loop, with that interval at every tick. */
  lemma DisappearingFits(interval: int, lag: nat)
    requires interval >= 1
    ensures Ordered(Disappearing(interval, lag)) && Fits(Disappearing(interval, lag), interval, lag)
    ensures forall poll :: poll in Disappearing(interval, lag) ==> poll.config.staleMs == interval
  {
    var polls := Disappearing(interval, lag);
    assert polls[1..][0] == polls[1] && polls[1..][1..] == polls[2..] && polls[2..][0] == polls[2] && polls[2..][1..] == [];
    assert Ordered(polls[2..]);
    assert Ordered(polls[1..]);
  }

  /**
   Over all runs of polls with a non-decreasing clock: no two attempts of a node lie within one check interval, if and
   only if the longest interval in use and the delay between snapshot and tick together fit in the grace period.
   */
  lemma NoEarlyRepeat(interval: int, lag: nat)
    requires interval >= 1
    ensures (forall polls :: Ordered(polls) && Fits(polls, interval, lag) ==> Spaced(START, polls))
       <==> interval + lag <= MEMORY_GRACE_MS + 1
  {
    hide Spaced, Ordered, Fits, Disappearing;
    if interval + lag <= MEMORY_GRACE_MS + 1 {
      forall polls | Ordered(polls) && Fits(polls, interval, lag) ensures Spaced(START, polls) {
        AttemptsAreSpaced(START, polls, interval, lag);
      }
    } else {
      ForgottenAttemptIsRepeated(interval, lag);
      DisappearingFits(interval, lag);
      var polls := Disappearing(interval, lag);
      assert Ordered(polls) && Fits(polls, interval, lag) && !Spaced(START, polls);
    }
  }

  lemma PicksSole(p: Rotation, config: Config, now: int)
    requires p.names == ["a"] && Valid(p) && ValidConfig(config) && config.concurrency >= 1
    requires IsStale(p, config, now, "a")
    ensures Picked(p, config, now) == ["a"]
  {
    BatchIsPositive(config, 1);
    var room := Batch(config, 1);
    assert NameAt(p, 0) == "a";
    assert Pick(p, config, now, room - 1, 1) == [];
  }
}
