/**
 The prober's rotation: which nodes a tick probes, how the cursor moves, and what a snapshot makes the prober remember
 or forget. Times are integers in milliseconds.
 */
module NodeProber {
  import opened Wrappers
  import opened EngineNames

  const MEMORY_GRACE_MS := 600_000

  /** The latest measurement on the prober's own address; the time may be unreadable. */
  datatype Measurement = Measurement(time: Option<int>, delay: int)

  datatype Snapshot = Snapshot(members: seq<string>, measured: map<string, Measurement>)

  datatype Rotation = Rotation(
    names: seq<string>,
    cursor: nat,
    lastSeen: map<string, int>,
    lastDelay: map<string, int>,
    lastAttempt: map<string, int>,
    lastInView: map<string, int>)

  /** What one tick needs to know. The check interval is at least one second. */
  datatype Config = Config(staleMs: int, pulseMs: nat, concurrency: nat)

  predicate ValidConfig(config: Config) {
    config.staleMs >= 1
  }

  predicate Distinct(names: seq<string>) {
    forall j, k :: 0 <= j < k < |names| ==> names[j] != names[k]
  }

  predicate Valid(p: Rotation) {
    Distinct(p.names) && (p.cursor < |p.names| || p.cursor == 0)
  }

  // ---------- Staleness and batches ----------

  function CeilDiv(a: nat, b: int): nat
    requires b >= 1
  {
    (a + b - 1) / b
  }

  predicate OlderThan(times: map<string, int>, name: string, bound: int) {
    name in times ==> times[name] <= bound
  }

  predicate IsStale(p: Rotation, config: Config, now: int, name: string) {
    OlderThan(p.lastSeen, name, now - config.staleMs) && OlderThan(p.lastAttempt, name, now - config.staleMs)
  }

  function Batch(config: Config, count: nat): nat
    requires ValidConfig(config)
  {
    var spread := CeilDiv(count * config.pulseMs, config.staleMs);
    var atLeastOne := if spread > 1 then spread else 1;
    if config.concurrency < atLeastOne then config.concurrency else atLeastOne
  }

  // ---------- A tick ----------

  function NameAt(p: Rotation, step: nat): string
    requires p.names != []
  {
    p.names[(p.cursor + step) % |p.names|]
  }

  /** The stale names from `step` on in rotation order, at most `room` of them. */
  function Pick(p: Rotation, config: Config, now: int, room: nat, step: nat): seq<string>
    requires p.names != [] && step <= |p.names|
    decreases |p.names| - step
  {
    if step == |p.names| || room == 0 then []
    else if IsStale(p, config, now, NameAt(p, step)) then [NameAt(p, step)] + Pick(p, config, now, room - 1, step + 1)
    else Pick(p, config, now, room, step + 1)
  }

  /** One past the step of the last name picked, or `last` when none is. */
  function PickEnd(p: Rotation, config: Config, now: int, room: nat, step: nat, last: nat): nat
    requires p.names != [] && step <= |p.names|
    decreases |p.names| - step
  {
    if step == |p.names| || room == 0 then last
    else if IsStale(p, config, now, NameAt(p, step)) then PickEnd(p, config, now, room - 1, step + 1, step + 1)
    else PickEnd(p, config, now, room, step + 1, last)
  }

  /** `Map.set` for every name of the list. */
  function Attempted(times: map<string, int>, names: seq<string>, now: int): map<string, int>
    decreases |names|
  {
    if names == [] then times else Attempted(times[names[0] := now], names[1..], now)
  }

  function Picked(p: Rotation, config: Config, now: int): seq<string>
    requires ValidConfig(config)
  {
    if p.names == [] then [] else Pick(p, config, now, Batch(config, |p.names|), 0)
  }

  function Tick(p: Rotation, config: Config, now: int): Rotation
    requires ValidConfig(config)
  {
    var picked := Picked(p, config, now);
    if picked == [] then p
    else
      var moved := PickEnd(p, config, now, Batch(config, |p.names|), 0, 0);
      p.(cursor := (p.cursor + moved) % |p.names|, lastAttempt := Attempted(p.lastAttempt, picked, now))
  }

  // ---------- A snapshot ----------

  function Current(members: seq<string>): seq<string> {
    if members == [] then []
    else (if members[0] in PSEUDO_NODES then [] else [members[0]]) + Current(members[1..])
  }

  function Keep(names: seq<string>, current: seq<string>): seq<string>
    decreases |names|
  {
    if names == [] then [] else (if names[0] in current then [names[0]] else []) + Keep(names[1..], current)
  }

  function AppendNew(names: seq<string>, current: seq<string>): seq<string>
    decreases |current|
  {
    if current == [] then names
    else AppendNew(if current[0] in names then names else names + [current[0]], current[1..])
  }

  /** The memory of a name is dropped only after it was out of view for longer than the grace period. */
  predicate Forgotten(inView: map<string, int>, current: seq<string>, now: int, name: string) {
    name in inView && name !in current && now - inView[name] > MEMORY_GRACE_MS
  }

  function ForgottenNames(inView: map<string, int>, current: seq<string>, now: int): set<string> {
    set name | name in inView && Forgotten(inView, current, now, name)
  }

  function Forget(inView: map<string, int>, current: seq<string>, now: int, times: map<string, int>): map<string, int> {
    times - ForgottenNames(inView, current, now)
  }

  predicate Measured(snapshot: Snapshot, name: string) {
    name in snapshot.measured && snapshot.measured[name].time.Some?
  }

  function Refresh(times: map<string, int>, current: seq<string>, snapshot: Snapshot, delays: bool): map<string, int>
    decreases |current|
  {
    if current == [] then times
    else if !Measured(snapshot, current[0]) then Refresh(times, current[1..], snapshot, delays)
    else
      var measurement := snapshot.measured[current[0]];
      Refresh(times[current[0] := if delays then measurement.delay else measurement.time.value], current[1..], snapshot,
          delays)
  }

  function Observe(p: Rotation, snapshot: Snapshot, now: int): Rotation {
    var current := Current(snapshot.members);
    var names := AppendNew(Keep(p.names, current), current);
    Rotation(
      names,
      if p.cursor >= |names| then 0 else p.cursor,
      Refresh(Forget(p.lastInView, current, now, p.lastSeen), current, snapshot, false),
      Refresh(Forget(p.lastInView, current, now, p.lastDelay), current, snapshot, true),
      Forget(p.lastInView, current, now, p.lastAttempt),
      Attempted(Forget(p.lastInView, current, now, p.lastInView), current, now))
  }

  // ---------- The object ----------

  class Prober {
    var names: seq<string>
    var cursor: nat
    var lastSeen: map<string, int>
    var lastDelay: map<string, int>
    var lastAttempt: map<string, int>
    var lastInView: map<string, int>

    ghost function View(): Rotation
      reads this
    {
      Rotation(names, cursor, lastSeen, lastDelay, lastAttempt, lastInView)
    }

    constructor ()
      ensures View() == Rotation([], 0, map[], map[], map[], map[]) && Valid(View())
    {
      names, cursor, lastSeen, lastDelay, lastAttempt, lastInView := [], 0, map[], map[], map[], map[];
    }

    predicate Stale(config: Config, now: int, name: string): (stale: bool)
      reads this
      ensures stale == IsStale(View(), config, now, name)
    {
      (name in lastSeen ==> lastSeen[name] <= now - config.staleMs) && (name in lastAttempt ==>
        lastAttempt[name] <= now - config.staleMs)
    }

    /** The scan of one tick: the picked names, and one past the step of the last of them. */
    method Scan(config: Config, now: int, batch: nat) returns (picked: seq<string>, moved: nat)
      requires names != []
      ensures picked == Pick(View(), config, now, batch, 0) && moved == PickEnd(View(), config, now, batch, 0, 0)
      ensures |picked| <= batch
    {
      hide IsStale, Stale;
      picked, moved := [], 0;
      var step := 0;
      while step < |names| && |picked| < batch
        invariant step <= |names| && |picked| <= batch
        invariant picked + Pick(View(), config, now, batch - |picked|, step) == Pick(View(), config, now, batch, 0)
        invariant PickEnd(View(), config, now, batch - |picked|, step, moved) == PickEnd(View(), config, now, batch, 0,
            0)
      {
        var name := names[(cursor + step) % |names|];
        if Stale(config, now, name) {
          picked := picked + [name];
          moved := step + 1;
        }
        step := step + 1;
      }
    }

    /** One pulse; the result is what is probed. */
    method TickPulse(config: Config, now: int) returns (picked: seq<string>)
      requires ValidConfig(config) && Valid(View())
      modifies this`cursor, this`lastAttempt
      ensures picked == Picked(old(View()), config, now)
      ensures View() == Tick(old(View()), config, now)
    {
      picked := [];
      if names == [] {
        return;
      }
      var moved: nat;
      picked, moved := Scan(config, now, Batch(config, |names|));
      if picked == [] {
        return;
      }
      cursor := (cursor + moved) % |names|;
      RecordAttempts(picked, now);
    }

    method RecordAttempts(picked: seq<string>, now: int)
      modifies this`lastAttempt
      ensures lastAttempt == Attempted(old(lastAttempt), picked, now)
    {
      ghost var before := lastAttempt;
      for k := 0 to |picked|
        invariant Attempted(lastAttempt, picked[k..], now) == Attempted(before, picked, now)
      {
        assert picked[k..][1..] == picked[k + 1..];
        lastAttempt := lastAttempt[picked[k] := now];
      }
      assert picked[|picked|..] == [];
    }

    method RotateNames(current: seq<string>)
      modifies this`names, this`cursor
      ensures names == AppendNew(Keep(old(names), current), current)
      ensures cursor == if old(cursor) >= |names| then 0 else old(cursor)
    {
      names := Keep(names, current);
      ghost var kept := names;
      for k := 0 to |current|
        invariant AppendNew(names, current[k..]) == AppendNew(kept, current) && cursor == old(cursor)
      {
        assert current[k..][1..] == current[k + 1..];
        if current[k] !in names {
          names := names + [current[k]];
        }
      }
      assert current[|current|..] == [];
      if cursor >= |names| {
        cursor := 0;
      }
    }

    /** Drops the memory of names that are long out of view. */
    method Prune(current: seq<string>, now: int)
      modifies this`lastInView, this`lastSeen, this`lastDelay, this`lastAttempt
      ensures lastInView == Forget(old(lastInView), current, now, old(lastInView))
      ensures lastSeen == Forget(old(lastInView), current, now, old(lastSeen))
      ensures lastDelay == Forget(old(lastInView), current, now, old(lastDelay))
      ensures lastAttempt == Forget(old(lastInView), current, now, old(lastAttempt))
    {
      ghost var inView, seen, delays, attempts := lastInView, lastSeen, lastDelay, lastAttempt;
      ghost var gone: set<string> := {};
      var rest := lastInView.Keys;
      while rest != {}
        invariant rest <= inView.Keys
        invariant forall name :: name in gone <==> Forgotten(inView, current, now, name) && name !in rest
        invariant lastInView == inView - gone && lastSeen == seen - gone && lastDelay == delays - gone
        invariant lastAttempt == attempts - gone
        decreases rest
      {
        var name :| name in rest;
        rest := rest - {name};
        if name !in current && now - lastInView[name] > MEMORY_GRACE_MS {
          gone := gone + {name};
          lastInView := lastInView - {name};
          lastSeen := lastSeen - {name};
          lastDelay := lastDelay - {name};
          lastAttempt := lastAttempt - {name};
        }
      }
      assert gone == ForgottenNames(inView, current, now);
    }

    method TakeMeasurements(current: seq<string>, snapshot: Snapshot)
      modifies this`lastSeen, this`lastDelay
      ensures lastSeen == Refresh(old(lastSeen), current, snapshot, false)
      ensures lastDelay == Refresh(old(lastDelay), current, snapshot, true)
    {
      ghost var seen, delays := lastSeen, lastDelay;
      for k := 0 to |current|
        invariant Refresh(lastSeen, current[k..], snapshot, false) == Refresh(seen, current, snapshot, false)
        invariant Refresh(lastDelay, current[k..], snapshot, true) == Refresh(delays, current, snapshot, true)
      {
        assert current[k..][1..] == current[k + 1..];
        if Measured(snapshot, current[k]) {
          lastSeen := lastSeen[current[k] := snapshot.measured[current[k]].time.value];
          lastDelay := lastDelay[current[k] := snapshot.measured[current[k]].delay];
        }
      }
      assert current[|current|..] == [];
    }

    /** Digests a snapshot: names in view are noted before the memory of long absent ones is dropped. */
    method ObserveSnapshot(snapshot: Snapshot, now: int)
      modifies this
      ensures View() == Observe(old(View()), snapshot, now)
    {
      ghost var inView := lastInView;
      var current := Current(snapshot.members);
      RotateNames(current);
      NoteInView(current, now);
      Prune(current, now);
      ForgottenAfterView(inView, current, now);
      ForgetThenNote(inView, current, now);
      TakeMeasurements(current, snapshot);
    }

    method NoteInView(current: seq<string>, now: int)
      modifies this`lastInView
      ensures lastInView == Attempted(old(lastInView), current, now)
    {
      ghost var before := lastInView;
      for k := 0 to |current|
        invariant Attempted(lastInView, current[k..], now) == Attempted(before, current, now)
      {
        assert current[k..][1..] == current[k + 1..];
        lastInView := lastInView[current[k] := now];
      }
      assert current[|current|..] == [];
    }
  }

  lemma {:induction false} AttemptedAt(times: map<string, int>, names: seq<string>, now: int)
    ensures Attempted(times, names, now).Keys == times.Keys + (set n | n in names)
    ensures forall name :: name in names ==> Attempted(times, names, now)[name] == now
    ensures forall name :: name in times && name !in names ==> Attempted(times, names, now)[name] == times[name]
    decreases |names|
  {
    if names != [] {
      AttemptedAt(times[names[0] := now], names[1..], now);
      assert names == [names[0]] + names[1..];
    }
  }

  /** Names in view are never forgotten, so noting them first drops the same names. */
  lemma ForgottenAfterView(inView: map<string, int>, current: seq<string>, now: int)
    ensures ForgottenNames(Attempted(inView, current, now), current, now) == ForgottenNames(inView, current, now)
  {
    AttemptedAt(inView, current, now);
  }

  lemma ForgetThenNote(inView: map<string, int>, current: seq<string>, now: int)
    ensures Forget(inView, current, now, Attempted(inView, current, now)) == Attempted(Forget(inView, current, now, inView), current, now)
  {
    AttemptedAt(inView, current, now);
    AttemptedAt(Forget(inView, current, now, inView), current, now);
  }
}
