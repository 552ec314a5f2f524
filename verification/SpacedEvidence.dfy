/**
 The dynamic program over spaced failures: `evaluateSpacedEvidence` keeps, for every attempt,
 the longest spaced run ending there for each state of address diversity. It is proved optimal
 over ALL spaced sub-collections of the attempts, in whatever order they are given.
 */
module SpacedEvidence {
  import opened Wrappers

  datatype ProbeCategory =
    | HttpResponse | DnsFailure | UnsafeAddress | Ipv6Unavailable | UnsafeRedirect | RedirectLimit
    | ConnectTimeout | TlsTimeout | TlsHandshakeReset | ConnectionResetBeforeHttp | TlsError
    | NetworkError | TotalTimeout | ProxyAuthFailure | RouteProofFailure | InfrastructureError

  datatype ValidatedAttempt = ValidatedAttempt(
    attemptId: string,
    attemptedAt: int,
    category: ProbeCategory,
    transportSuccess: bool,
    availableAddressCount: int,
    canonicalAddress: Option<string>,
    finalOriginFqdn: string)

  datatype Evaluation = Evaluation(maximumCount: nat, maximumDiverseCount: nat)

  // ---------- What is to be maximized ----------

  function Abs(x: int): nat {
    if x < 0 then -x else x
  }

  /** Any two members (two copies of one attempt included) lie at least `spacing` apart. */
  ghost predicate Spaced(chosen: multiset<ValidatedAttempt>, spacing: int) {
    forall x, y :: x in chosen && y in chosen && (x != y || chosen[x] > 1) ==>
      Abs(x.attemptedAt - y.attemptedAt) >= spacing
  }

  /** Two members were seen on two different addresses. */
  ghost predicate Diverse(chosen: multiset<ValidatedAttempt>) {
    exists x, y :: x in chosen && y in chosen
      && x.canonicalAddress.Some? && y.canonicalAddress.Some? && x.canonicalAddress != y.canonicalAddress
  }

  ghost predicate Choice(attempts: seq<ValidatedAttempt>, spacing: int, diverse: bool,
      chosen: multiset<ValidatedAttempt>) {
    && chosen <= multiset(attempts)
    && Spaced(chosen, spacing)
    && (diverse ==> Diverse(chosen))
  }

  /** `best` is the size of a largest choice, or 0 when there is none. */
  ghost predicate IsMaximum(attempts: seq<ValidatedAttempt>, spacing: int, diverse: bool, best: nat) {
    && (forall chosen :: Choice(attempts, spacing, diverse, chosen) ==> |chosen| <= best)
    && (best > 0 ==> exists chosen :: Choice(attempts, spacing, diverse, chosen) && |chosen| == best)
  }

  // ---------- Sorting by time ----------

  predicate Precedes(x: ValidatedAttempt, y: ValidatedAttempt, idPrecedes: (string, string) -> bool) {
    x.attemptedAt < y.attemptedAt
    || (x.attemptedAt == y.attemptedAt && idPrecedes(x.attemptId, y.attemptId))
  }

  function InsertByTime(x: ValidatedAttempt, s: seq<ValidatedAttempt>,
      idPrecedes: (string, string) -> bool): (r: seq<ValidatedAttempt>)
    ensures multiset(r) == multiset(s) + multiset{x}
  {
    if s == [] then [x]
    else if Precedes(x, s[0], idPrecedes) then [x] + s
    else
      assert s == [s[0]] + s[1..];
      [s[0]] + InsertByTime(x, s[1..], idPrecedes)
  }

  function SortByTime(s: seq<ValidatedAttempt>, idPrecedes: (string, string) -> bool): (r: seq<ValidatedAttempt>)
    ensures multiset(r) == multiset(s)
  {
    if s == [] then []
    else
      assert s == [s[0]] + s[1..];
      InsertByTime(s[0], SortByTime(s[1..], idPrecedes), idPrecedes)
  }

  ghost predicate InTimeOrder(s: seq<ValidatedAttempt>) {
    forall i, j :: 0 <= i < j < |s| ==> s[i].attemptedAt <= s[j].attemptedAt
  }

  lemma {:induction false} InsertingOrders(x: ValidatedAttempt, s: seq<ValidatedAttempt>,
      idPrecedes: (string, string) -> bool)
    requires InTimeOrder(s)
    ensures InTimeOrder(InsertByTime(x, s, idPrecedes))
  {
    if s != [] && !Precedes(x, s[0], idPrecedes) {
      InsertingOrders(x, s[1..], idPrecedes);
      var rest := InsertByTime(x, s[1..], idPrecedes);
      forall k | 0 <= k < |rest| ensures s[0].attemptedAt <= rest[k].attemptedAt {
        assert rest[k] in multiset(rest);
        assert rest[k] in s[1..] || rest[k] == x;
      }
    }
  }

  lemma {:induction false} SortingOrders(s: seq<ValidatedAttempt>, idPrecedes: (string, string) -> bool)
    ensures InTimeOrder(SortByTime(s, idPrecedes))
  {
    if s != [] {
      SortingOrders(s[1..], idPrecedes);
      InsertingOrders(s[0], SortByTime(s[1..], idPrecedes), idPrecedes);
    }
  }

  // ---------- Diversity states ----------

  datatype DiversityState = NoAddress | Single(address: string) | Multiple

  function AddAddress(state: DiversityState, address: Option<string>): DiversityState {
    if address.None? || state == Multiple then state
    else if state == NoAddress then Single(address.value)
    else if state == Single(address.value) then state
    else Multiple
  }

  function InitialState(address: Option<string>): DiversityState {
    if address.None? then NoAddress else Single(address.value)
  }

  /** What a state says about the addresses of a collection. */
  ghost predicate StateIs(chosen: multiset<ValidatedAttempt>, state: DiversityState) {
    match state
    case NoAddress => forall x :: x in chosen ==> x.canonicalAddress.None?
    case Single(a) =>
      && (exists x :: x in chosen && x.canonicalAddress == Some(a))
      && (forall x :: x in chosen && x.canonicalAddress.Some? ==> x.canonicalAddress == Some(a))
    case Multiple => Diverse(chosen)
  }

  lemma AddingKeepsState(chosen: multiset<ValidatedAttempt>, state: DiversityState, x: ValidatedAttempt)
    requires StateIs(chosen, state)
    ensures StateIs(chosen + multiset{x}, AddAddress(state, x.canonicalAddress))
  {
    var more := chosen + multiset{x};
    assert x in more;
    assert forall y :: y in chosen ==> y in more;
    if state.Single? {
      var y :| y in chosen && y.canonicalAddress == Some(state.address);
      assert y in more;
    }
  }

  lemma MultipleIsDiverse(chosen: multiset<ValidatedAttempt>, state: DiversityState)
    requires StateIs(chosen, state)
    ensures state == Multiple <==> Diverse(chosen)
  {
  }

  /** A collection has one state, so the order in which its addresses were added does not matter. */
  lemma StateIsUnique(chosen: multiset<ValidatedAttempt>, state: DiversityState, other: DiversityState)
    requires StateIs(chosen, state) && StateIs(chosen, other)
    ensures state == other
  {
    MultipleIsDiverse(chosen, state);
    MultipleIsDiverse(chosen, other);
    match (state, other)
    case (Single(a), Single(b)) =>
      var x :| x in chosen && x.canonicalAddress == Some(a);
    case _ =>
  }

  // ---------- Runs ending at a position, with their diversity state ----------

  ghost predicate Gap(s: seq<ValidatedAttempt>, spacing: int, p: nat, i: nat) {
    p < i < |s| && s[i].attemptedAt - s[p].attemptedAt >= spacing
  }

  /** Some run of `n` neighbour-spaced attempts ends at position `i` in state `state`. */
  ghost predicate Run(s: seq<ValidatedAttempt>, spacing: int, i: nat, state: DiversityState, n: nat)
    decreases i, 1
  {
    && i < |s|
    && n > 0
    && (if n == 1 then state == InitialState(s[i].canonicalAddress)
        else exists p: nat, before :: RunVia(s, spacing, i, state, n, p, before))
  }

  ghost predicate RunVia(s: seq<ValidatedAttempt>, spacing: int, i: nat, state: DiversityState, n: nat, p: nat,
      before: DiversityState)
    requires i < |s| && n > 1
    decreases i, 0
  {
    Gap(s, spacing, p, i) && AddAddress(before, s[i].canonicalAddress) == state && Run(s, spacing, p, before, n - 1)
  }

  lemma Previous(s: seq<ValidatedAttempt>, spacing: int, i: nat, state: DiversityState, n: nat)
    returns (p: nat, before: DiversityState)
    requires Run(s, spacing, i, state, n) && n > 1
    ensures RunVia(s, spacing, i, state, n, p, before)
    ensures Gap(s, spacing, p, i) && AddAddress(before, s[i].canonicalAddress) == state
    ensures Run(s, spacing, p, before, n - 1)
  {
    p, before :| RunVia(s, spacing, i, state, n, p, before);
  }

  /** The members of a choice that ends at position `i` in `state`. */
  ghost predicate ChoiceAt(s: seq<ValidatedAttempt>, spacing: int, i: nat, state: DiversityState,
      chosen: multiset<ValidatedAttempt>)
    requires i < |s|
  {
    chosen <= multiset(s[..i + 1]) && Spaced(chosen, spacing) && StateIs(chosen, state)
  }

  lemma SingleChoice(s: seq<ValidatedAttempt>, spacing: int, i: nat)
    requires i < |s|
    ensures ChoiceAt(s, spacing, i, InitialState(s[i].canonicalAddress), multiset{s[i]})
  {
    var x := s[i];
    assert s[..i + 1] == s[..i] + [x];
    assert x in multiset{x};
  }

  lemma GrowsWithin(s: seq<ValidatedAttempt>, p: nat, i: nat, earlier: multiset<ValidatedAttempt>)
    requires p < i < |s| && earlier <= multiset(s[..p + 1])
    ensures earlier + multiset{s[i]} <= multiset(s[..i + 1])
  {
    assert s[..i + 1] == s[..p + 1] + s[p + 1..i] + [s[i]];
  }

  lemma ExtendChoice(s: seq<ValidatedAttempt>, spacing: int, p: nat, i: nat, before: DiversityState,
      earlier: multiset<ValidatedAttempt>)
    requires InTimeOrder(s) && Gap(s, spacing, p, i) && ChoiceAt(s, spacing, p, before, earlier)
    ensures ChoiceAt(s, spacing, i, AddAddress(before, s[i].canonicalAddress), earlier + multiset{s[i]})
  {
    hide StateIs, AddAddress, Spaced;
    var x := s[i];
    GrowsWithin(s, p, i, earlier);
    AddingKeepsState(earlier, before, x);
    NotLaterThan(s, p, earlier);
    AddLast(earlier, x, s[p].attemptedAt, spacing);
  }

  /** A run is a choice: neighbours that far apart keep all members that far apart. */
  lemma {:induction false} RunIsChoice(s: seq<ValidatedAttempt>, spacing: int, i: nat, state: DiversityState, n: nat)
    returns (chosen: multiset<ValidatedAttempt>)
    requires i < |s| && InTimeOrder(s) && Run(s, spacing, i, state, n)
    ensures |chosen| == n && ChoiceAt(s, spacing, i, state, chosen)
    decreases i
  {
    if n == 1 {
      SingleChoice(s, spacing, i);
      chosen := multiset{s[i]};
    } else {
      var p, before := Previous(s, spacing, i, state, n);
      var earlier := RunIsChoice(s, spacing, p, before, n - 1);
      ExtendChoice(s, spacing, p, i, before, earlier);
      chosen := earlier + multiset{s[i]};
    }
  }

  lemma NotLaterThan(s: seq<ValidatedAttempt>, p: nat, chosen: multiset<ValidatedAttempt>)
    requires InTimeOrder(s) && p < |s| && chosen <= multiset(s[..p + 1])
    ensures forall y :: y in chosen ==> y.attemptedAt <= s[p].attemptedAt
  {
    forall y | y in chosen ensures y.attemptedAt <= s[p].attemptedAt {
      assert y in multiset(s[..p + 1]);
      assert y in s[..p + 1];
    }
  }

  lemma AddLast(earlier: multiset<ValidatedAttempt>, x: ValidatedAttempt, latest: int, spacing: int)
    requires Spaced(earlier, spacing) && x.attemptedAt >= latest && x.attemptedAt - latest >= spacing
    requires forall y :: y in earlier ==> y.attemptedAt <= latest
    ensures Spaced(earlier + multiset{x}, spacing)
  {
    var chosen := earlier + multiset{x};
    forall a: ValidatedAttempt, b: ValidatedAttempt | a in chosen && b in chosen && (a != b || chosen[a] > 1)
      ensures Abs(a.attemptedAt - b.attemptedAt) >= spacing
    {
      if a == b == x {
        assert x in earlier;
      }
    }
  }

  /** The last position a non-empty choice needs. */
  lemma {:induction false} LastPosition(s: seq<ValidatedAttempt>, bound: nat,
      chosen: multiset<ValidatedAttempt>) returns (q: nat)
    requires bound <= |s| && chosen <= multiset(s[..bound]) && |chosen| > 0
    ensures q < bound && chosen <= multiset(s[..q + 1]) && s[q] in chosen
    ensures chosen - multiset{s[q]} <= multiset(s[..q])
    decreases bound
  {
    var x := s[bound - 1];
    assert s[..bound] == s[..bound - 1] + [x];
    if chosen <= multiset(s[..bound - 1]) {
      q := LastPosition(s, bound - 1, chosen);
    } else {
      var y :| y in chosen && chosen[y] > multiset(s[..bound - 1])[y];
      q := bound - 1;
    }
  }

  /** Between its last two positions a choice keeps its distance. */
  lemma LastGap(s: seq<ValidatedAttempt>, spacing: int, p: nat, q: nat, chosen: multiset<ValidatedAttempt>)
    requires InTimeOrder(s) && p < q < |s| && Spaced(chosen, spacing)
    requires s[q] in chosen && s[p] in chosen - multiset{s[q]}
    ensures Gap(s, spacing, p, q) && Spaced(chosen - multiset{s[q]}, spacing)
  {
    assert s[p] in chosen && (s[p] != s[q] || chosen[s[q]] > 1);
  }

  /** A choice is a run through its members in time order. */
  lemma {:induction false} ChoiceIsRun(s: seq<ValidatedAttempt>, spacing: int, q: nat,
      chosen: multiset<ValidatedAttempt>)
    returns (state: DiversityState)
    requires InTimeOrder(s) && q < |s| && Spaced(chosen, spacing)
    requires s[q] in chosen && chosen - multiset{s[q]} <= multiset(s[..q])
    ensures Run(s, spacing, q, state, |chosen|) && StateIs(chosen, state)
    decreases q
  {
    var x := s[q];
    var rest := chosen - multiset{x};
    assert chosen == rest + multiset{x};
    if |rest| == 0 {
      SingleChoice(s, spacing, q);
      assert chosen == multiset{x};
      state := InitialState(x.canonicalAddress);
    } else {
      var p := LastPosition(s, q, rest);
      LastGap(s, spacing, p, q, chosen);
      var before := ChoiceIsRun(s, spacing, p, rest);
      state := AddAddress(before, x.canonicalAddress);
      AddingKeepsState(rest, before, x);
      Extend(s, spacing, p, q, before, |rest|);
    }
  }

  // ---------- The table of one attempt ----------

  type States = map<DiversityState, nat>

  ghost predicate Recorded(states: States, state: DiversityState, n: nat) {
    state in states && states[state] >= n
  }

  /** Every entry is the length of a run ending at `i` with that state. */
  ghost predicate Sound(s: seq<ValidatedAttempt>, spacing: int, i: nat, states: States) {
    forall st :: st in states ==> Run(s, spacing, i, st, states[st])
  }

  /** Every one-attempt run, and every run that comes from a position below `bound`, is matched by an entry. */
  ghost predicate CompleteBelow(s: seq<ValidatedAttempt>, spacing: int, i: nat, states: States, bound: nat)
    requires i < |s|
  {
    && Recorded(states, InitialState(s[i].canonicalAddress), 1)
    && (forall p: nat, before, n: nat :: p < bound && Gap(s, spacing, p, i) && Run(s, spacing, p, before, n) ==>
          Recorded(states, AddAddress(before, s[i].canonicalAddress), n + 1))
  }

  ghost predicate Exact(s: seq<ValidatedAttempt>, spacing: int, i: nat, states: States)
    requires i < |s|
  {
    && Sound(s, spacing, i, states)
    && forall st, n: nat :: Run(s, spacing, i, st, n) ==> Recorded(states, st, n)
  }

  lemma CompleteIsExact(s: seq<ValidatedAttempt>, spacing: int, i: nat, states: States)
    requires i < |s| && Sound(s, spacing, i, states) && CompleteBelow(s, spacing, i, states, i)
    ensures Exact(s, spacing, i, states)
  {
    forall st, n: nat | Run(s, spacing, i, st, n) ensures Recorded(states, st, n) {
      if n > 1 {
        var p, before := Previous(s, spacing, i, st, n);
      }
    }
  }

  lemma Extend(s: seq<ValidatedAttempt>, spacing: int, p: nat, i: nat, before: DiversityState, n: nat)
    requires Gap(s, spacing, p, i) && Run(s, spacing, p, before, n)
    ensures Run(s, spacing, i, AddAddress(before, s[i].canonicalAddress), n + 1)
  {
    assert RunVia(s, spacing, i, AddAddress(before, s[i].canonicalAddress), n + 1, p, before);
  }

  /** One earlier attempt's states are carried over to attempt `i`. */
  method CarryStates(ghost s: seq<ValidatedAttempt>, ghost spacing: int, attempt: ValidatedAttempt, ghost i: nat,
                     ghost p: nat, previousStates: States, initial: States)
    returns (current: States)
    requires Gap(s, spacing, p, i) && attempt == s[i]
    requires Exact(s, spacing, p, previousStates)
    requires Sound(s, spacing, i, initial) && CompleteBelow(s, spacing, i, initial, p)
    ensures Sound(s, spacing, i, current) && CompleteBelow(s, spacing, i, current, p + 1)
  {
    current := initial;
    var remaining := previousStates.Keys;
    while remaining != {}
      invariant remaining <= previousStates.Keys
      invariant Sound(s, spacing, i, current)
      invariant forall st :: st in initial ==> Recorded(current, st, initial[st])
      invariant forall st :: st in previousStates && st !in remaining ==>
        Recorded(current, AddAddress(st, attempt.canonicalAddress), previousStates[st] + 1)
      decreases |remaining|
    {
      var state :| state in remaining;
      var count := previousStates[state];
      var nextState := AddAddress(state, attempt.canonicalAddress);
      var known := if nextState in current then current[nextState] else 0;
      Extend(s, spacing, p, i, state, count);
      current := current[nextState := if known > count + 1 then known else count + 1];
      remaining := remaining - {state};
    }
    forall q: nat, before, n: nat | q < p + 1 && Gap(s, spacing, q, i) && Run(s, spacing, q, before, n)
      ensures Recorded(current, AddAddress(before, s[i].canonicalAddress), n + 1)
    {
      if q == p {
        assert Recorded(previousStates, before, n);
      } else {
        assert Recorded(initial, AddAddress(before, s[i].canonicalAddress), n + 1);
      }
    }
  }

  // ---------- Maxima over the tables ----------

  /** `best` is the longest run (of diverse ones, if `diverse`) ending before `bound`, 0 if there is none. */
  ghost predicate Longest(s: seq<ValidatedAttempt>, spacing: int, bound: nat, diverse: bool, best: nat) {
    && (forall i: nat, st, n: nat :: i < bound && Run(s, spacing, i, st, n) && (diverse ==> st == Multiple) ==>
      n <= best)
    && (best > 0 ==> exists i: nat, st :: i < bound && Run(s, spacing, i, st, best) && (diverse ==> st == Multiple))
  }

  lemma LongestIsMaximum(s: seq<ValidatedAttempt>, spacing: int, diverse: bool, best: nat)
    requires InTimeOrder(s) && Longest(s, spacing, |s|, diverse, best)
    ensures IsMaximum(s, spacing, diverse, best)
  {
    forall chosen | Choice(s, spacing, diverse, chosen) ensures |chosen| <= best {
      if |chosen| > 0 {
        var q, state := ChoiceEndsSomewhere(s, spacing, diverse, chosen);
      }
    }
    if best > 0 {
      var i: nat, st :| i < |s| && Run(s, spacing, i, st, best) && (diverse ==> st == Multiple);
      var chosen := LongRunIsChoice(s, spacing, diverse, i, st, best);
    }
  }

  lemma ChoiceEndsSomewhere(s: seq<ValidatedAttempt>, spacing: int, diverse: bool, chosen: multiset<ValidatedAttempt>)
    returns (q: nat, state: DiversityState)
    requires InTimeOrder(s) && Choice(s, spacing, diverse, chosen) && |chosen| > 0
    ensures q < |s| && Run(s, spacing, q, state, |chosen|) && (diverse ==> state == Multiple)
  {
    assert s[..|s|] == s;
    q := LastPosition(s, |s|, chosen);
    state := ChoiceIsRun(s, spacing, q, chosen);
    MultipleIsDiverse(chosen, state);
  }

  lemma LongRunIsChoice(s: seq<ValidatedAttempt>, spacing: int, diverse: bool, i: nat, state: DiversityState, n: nat)
    returns (chosen: multiset<ValidatedAttempt>)
    requires InTimeOrder(s) && Run(s, spacing, i, state, n) && (diverse ==> state == Multiple)
    ensures Choice(s, spacing, diverse, chosen) && |chosen| == n
  {
    chosen := RunIsChoice(s, spacing, i, state, n);
    PrefixWithin(s, i + 1);
    MultipleIsDiverse(chosen, state);
  }

  lemma PrefixWithin(s: seq<ValidatedAttempt>, bound: nat)
    requires bound <= |s|
    ensures multiset(s[..bound]) <= multiset(s)
  {
    assert s == s[..bound] + s[bound..];
  }

  method RaiseMaxima(ghost s: seq<ValidatedAttempt>, ghost spacing: int, ghost i: nat, current: States,
      before: Evaluation)
    returns (after: Evaluation)
    requires i < |s| && Exact(s, spacing, i, current)
    requires Longest(s, spacing, i, false, before.maximumCount)
    requires Longest(s, spacing, i, true, before.maximumDiverseCount)
    ensures Longest(s, spacing, i + 1, false, after.maximumCount)
    ensures Longest(s, spacing, i + 1, true, after.maximumDiverseCount)
  {
    after := before;
    var remaining := current.Keys;
    while remaining != {}
      invariant remaining <= current.Keys
      invariant after.maximumCount >= before.maximumCount && after.maximumDiverseCount >= before.maximumDiverseCount
      invariant forall st :: st in current && st !in remaining ==> current[st] <= after.maximumCount
      invariant Multiple in current && Multiple !in remaining ==> current[Multiple] <= after.maximumDiverseCount
      invariant after.maximumCount == before.maximumCount || exists st :: Run(s, spacing, i, st, after.maximumCount)
      invariant after.maximumDiverseCount == before.maximumDiverseCount
        || Run(s, spacing, i, Multiple, after.maximumDiverseCount)
      decreases |remaining|
    {
      var state :| state in remaining;
      var count := current[state];
      assert Run(s, spacing, i, state, count);
      after := after.(maximumCount := if count > after.maximumCount then count else after.maximumCount);
      if state == Multiple {
        after := after.(maximumDiverseCount := if count > after.maximumDiverseCount then count
            else after.maximumDiverseCount);
      }
      remaining := remaining - {state};
    }
    assert forall st, n: nat :: Run(s, spacing, i, st, n) ==> Recorded(current, st, n);
    LongestGrows(s, spacing, i, false, before.maximumCount, after.maximumCount);
    LongestGrows(s, spacing, i, true, before.maximumDiverseCount, after.maximumDiverseCount);
  }

  lemma LongestGrows(s: seq<ValidatedAttempt>, spacing: int, i: nat, diverse: bool, before: nat, after: nat)
    requires Longest(s, spacing, i, diverse, before) && after >= before
    requires forall st, n: nat :: Run(s, spacing, i, st, n) && (diverse ==> st == Multiple) ==> n <= after
    requires after == before || exists st :: Run(s, spacing, i, st, after) && (diverse ==> st == Multiple)
    ensures Longest(s, spacing, i + 1, diverse, after)
  {
    if after > before {
      var st :| Run(s, spacing, i, st, after) && (diverse ==> st == Multiple);
      assert i < i + 1 && Run(s, spacing, i, st, after);
    } else if before > 0 {
      var j: nat, st :| j < i && Run(s, spacing, j, st, before) && (diverse ==> st == Multiple);
      assert j < i + 1 && Run(s, spacing, j, st, before);
    }
  }

  // ---------- The algorithm ----------

  /** The states of the attempt at `index`, from those of all earlier attempts. */
  method StatesEndingAt(sorted: seq<ValidatedAttempt>, minimumSpacingMs: int, index: nat, statesByEnd: seq<States>)
    returns (current: States)
    requires index < |sorted| && |statesByEnd| == index
    requires forall p :: 0 <= p < index ==> Exact(sorted, minimumSpacingMs, p, statesByEnd[p])
    ensures Exact(sorted, minimumSpacingMs, index, current)
  {
    var attempt := sorted[index];
    current := map[InitialState(attempt.canonicalAddress) := 1];
    var previousIndex := 0;
    while previousIndex < index
      invariant 0 <= previousIndex <= index
      invariant Sound(sorted, minimumSpacingMs, index, current)
      invariant CompleteBelow(sorted, minimumSpacingMs, index, current, previousIndex)
    {
      if attempt.attemptedAt - sorted[previousIndex].attemptedAt >= minimumSpacingMs {
        current := CarryStates(sorted, minimumSpacingMs, attempt, index, previousIndex, statesByEnd[previousIndex],
            current);
      }
      previousIndex := previousIndex + 1;
    }
    CompleteIsExact(sorted, minimumSpacingMs, index, current);
  }

  method EvaluateSpacedEvidence(attempts: seq<ValidatedAttempt>, minimumSpacingMs: int,
      idPrecedes: (string, string) -> bool)
    returns (evaluation: Evaluation)
    ensures IsMaximum(attempts, minimumSpacingMs, false, evaluation.maximumCount)
    ensures IsMaximum(attempts, minimumSpacingMs, true, evaluation.maximumDiverseCount)
    ensures evaluation.maximumDiverseCount <= evaluation.maximumCount <= |attempts|
  {
    var sorted := SortByTime(attempts, idPrecedes);
    SortingOrders(attempts, idPrecedes);
    var statesByEnd: seq<States> := [];
    evaluation := Evaluation(0, 0);
    var index := 0;
    while index < |sorted|
      invariant 0 <= index <= |sorted| && |statesByEnd| == index
      invariant forall p :: 0 <= p < index ==> Exact(sorted, minimumSpacingMs, p, statesByEnd[p])
      invariant Longest(sorted, minimumSpacingMs, index, false, evaluation.maximumCount)
      invariant Longest(sorted, minimumSpacingMs, index, true, evaluation.maximumDiverseCount)
    {
      var current := StatesEndingAt(sorted, minimumSpacingMs, index, statesByEnd);
      statesByEnd := statesByEnd + [current];
      evaluation := RaiseMaxima(sorted, minimumSpacingMs, index, current, evaluation);
      index := index + 1;
    }
    LongestIsMaximum(sorted, minimumSpacingMs, false, evaluation.maximumCount);
    LongestIsMaximum(sorted, minimumSpacingMs, true, evaluation.maximumDiverseCount);
    SameMaximum(sorted, attempts, minimumSpacingMs, false, evaluation.maximumCount);
    SameMaximum(sorted, attempts, minimumSpacingMs, true, evaluation.maximumDiverseCount);
    MaximaBounds(attempts, minimumSpacingMs, evaluation);
  }

  lemma SameMaximum(s: seq<ValidatedAttempt>, attempts: seq<ValidatedAttempt>, spacing: int, diverse: bool, best: nat)
    requires multiset(s) == multiset(attempts) && IsMaximum(s, spacing, diverse, best)
    ensures IsMaximum(attempts, spacing, diverse, best)
  {
    assert forall chosen :: Choice(s, spacing, diverse, chosen) <==> Choice(attempts, spacing, diverse, chosen);
  }

  lemma MaximaBounds(attempts: seq<ValidatedAttempt>, spacing: int, e: Evaluation)
    requires IsMaximum(attempts, spacing, false, e.maximumCount)
    requires IsMaximum(attempts, spacing, true, e.maximumDiverseCount)
    ensures e.maximumDiverseCount <= e.maximumCount <= |attempts|
  {
    if e.maximumCount > 0 {
      var chosen :| Choice(attempts, spacing, false, chosen) && |chosen| == e.maximumCount;
      assert multiset(attempts) == chosen + (multiset(attempts) - chosen);
    }
    if e.maximumDiverseCount > 0 {
      var chosen :| Choice(attempts, spacing, true, chosen) && |chosen| == e.maximumDiverseCount;
      assert Choice(attempts, spacing, false, chosen);
    }
  }
}
