/**
 The recovery journal of configuration applies. While an apply is pending the journal names the content that was
 accepted before it and the candidate it may already have published, each with the default route it belongs to.
 */
module ConfigApply {
  import opened Wrappers

  /** SHA-256 of a text, taken to be injective. */
  datatype Digest = Sha256(text: string)

  datatype Route = Direct | Vpn

  /** The identity of a configuration file, which may be missing. */
  datatype Identity = Identity(hash: Option<Digest>, route: Route)

  datatype Journal = Journal(id: nat, configPath: string, accepted: Identity, candidate: Option<Identity>)

  datatype Attempt = Attempt(journal: Journal, previousJournal: Option<Journal>, previousContent: Option<string>)

  datatype ApplyError = AnotherPath | FileMismatch | NoPendingApply | ChangedDuringActivation | NotDurable

  datatype Recovery = Recovery(pending: bool, route: Route)

  /** The stored journal, the default route of the settings, and the configuration file. */
  datatype Store = Store(journal: Option<Journal>, route: Route, file: Option<string>, nextId: nat)

  function HashOf(content: Option<string>): Option<Digest> {
    match content
    case None => None
    case Some(text) => Some(Sha256(text))
  }

  /** Which of the journal's identities the file has: the accepted one first. */
  function AcceptedIdentity(journal: Journal, configPath: string,
      content: Option<string>): Result<Identity, ApplyError> {
    if journal.configPath != configPath then Err(AnotherPath)
    else if HashOf(content) == journal.accepted.hash then Ok(journal.accepted)
    else if journal.candidate.Some? && HashOf(content) == journal.candidate.value.hash then Ok(journal.candidate.value)
    else Err(FileMismatch)
  }

  function ReadRecovery(s: Store, configPath: string): Result<Recovery, ApplyError> {
    if s.journal.None? then Ok(Recovery(false, s.route))
    else
      var identity :- AcceptedIdentity(s.journal.value, configPath, s.file);
      Ok(Recovery(true, identity.route))
  }

  function Begin(s: Store, configPath: string): Result<(Store, Attempt), ApplyError> {
    var accepted :- if s.journal.Some? then AcceptedIdentity(s.journal.value, configPath, s.file)
        else Ok(Identity(HashOf(s.file), s.route));
    var journal := Journal(s.nextId, configPath, accepted, None);
    Ok((s.(journal := Some(journal), nextId := s.nextId + 1), Attempt(journal, s.journal, s.file)))
  }

  function RecordCandidate(s: Store, configPath: string, content: string): Result<Store, ApplyError> {
    if s.journal.None? || s.journal.value.configPath != configPath then Err(NoPendingApply)
    else Ok(s.(journal := Some(s.journal.value.(candidate := Some(Identity(Some(Sha256(content)), s.route))))))
  }

  function Expected(journal: Journal): Identity {
    if journal.candidate.Some? then journal.candidate.value else journal.accepted
  }

  function Finish(s: Store, attempt: Attempt, rollback: bool): Result<Store, ApplyError> {
    if s.journal.None? || s.journal.value.id != attempt.journal.id then Err(ChangedDuringActivation)
    else if !rollback && HashOf(s.file) != Expected(s.journal.value).hash then Err(NotDurable)
    else Ok(s.(journal := if rollback then attempt.previousJournal else None))
  }

  // ---------- The stored journal as it is updated ----------

  class ConfigApplyStore {
    var journal: Option<Journal>
    var route: Route
    var file: Option<string>
    var nextId: nat

    function View(): Store
      reads this
    {
      Store(journal, route, file, nextId)
    }

    constructor (route: Route, file: Option<string>)
      ensures View() == Store(None, route, file, 0)
    {
      journal, this.route, this.file, nextId := None, route, file, 0;
    }

    method ReadConfigApplyRecovery(configPath: string) returns (r: Result<Recovery, ApplyError>)
      ensures r == ReadRecovery(View(), configPath)
    {
      if journal.None? {
        return Ok(Recovery(false, route));
      }
      var identity := AcceptedIdentity(journal.value, configPath, file);
      r := if identity.Ok? then Ok(Recovery(true, identity.value.route)) else Err(identity.error);
    }

    method BeginConfigApply(configPath: string) returns (r: Result<Attempt, ApplyError>)
      modifies this`journal, this`nextId
      ensures Begin(old(View()), configPath).Ok? ==>
        r == Ok(Begin(old(View()), configPath).value.1) && View() == Begin(old(View()), configPath).value.0
      ensures Begin(old(View()), configPath).Err? ==>
        r == Err(Begin(old(View()), configPath).error) && View() == old(View())
    {
      var previousJournal, previousContent := journal, file;
      var accepted := Identity(HashOf(previousContent), route);
      if previousJournal.Some? {
        var identity := AcceptedIdentity(previousJournal.value, configPath, previousContent);
        if identity.Err? {
          return Err(identity.error);
        }
        accepted := identity.value;
      }
      var pending := Journal(nextId, configPath, accepted, None);
      journal := Some(pending);
      nextId := nextId + 1;
      r := Ok(Attempt(pending, previousJournal, previousContent));
    }

    method RecordConfigApplyCandidate(configPath: string, content: string) returns (r: Result<bool, ApplyError>)
      modifies this`journal
      ensures r.Ok? <==> RecordCandidate(old(View()), configPath, content).Ok?
      ensures View() == if r.Ok? then RecordCandidate(old(View()), configPath, content).value else old(View())
    {
      if journal.None? || journal.value.configPath != configPath {
        return Err(NoPendingApply);
      }
      journal := Some(journal.value.(candidate := Some(Identity(Some(Sha256(content)), route))));
      r := Ok(true);
    }

    method FinishConfigApply(attempt: Attempt, rollback: bool) returns (r: Result<bool, ApplyError>)
      modifies this`journal
      ensures r.Ok? <==> Finish(old(View()), attempt, rollback).Ok?
      ensures View() == if r.Ok? then Finish(old(View()), attempt, rollback).value else old(View())
    {
      if journal.None? || journal.value.id != attempt.journal.id {
        return Err(ChangedDuringActivation);
      }
      if !rollback {
        var expected := if journal.value.candidate.Some? then journal.value.candidate.value else journal.value.accepted;
        if HashOf(file) != expected.hash {
          return Err(NotDurable);
        }
      }
      journal := if rollback then attempt.previousJournal else None;
      r := Ok(true);
    }
  }

  // ---------- Applying a configuration ----------

  /** Where the serialized apply stands; `oldRoute` is what a rollback of the staged mutation restores. */
  datatype Stage =
    | Idle
    | Staged(attempt: Attempt, oldRoute: Route)
    | Built(attempt: Attempt, oldRoute: Route, content: string)
    | Recorded(attempt: Attempt, oldRoute: Route, content: string)
    | Published(attempt: Attempt, oldRoute: Route, content: string)
    | Restored(attempt: Attempt, oldRoute: Route)
    | Migrating(content: string)

  /** The system, and the history of which content was generated under which route. */
  datatype World = World(store: Store, stage: Stage, generated: set<(Option<string>, Route)>)

  datatype Event =
    | StageMutation(route: Route)
    | Build(content: string)
    | FinishUnchanged
    | Record
    | Publish
    | FinishApplied
    | Restore
    | Rollback(engineFailed: bool)
    | Fail
    | Crash
    | PrepareOffline(content: string)
    | RenameOffline

  function Stop(w: World): World {
    w.(stage := Idle)
  }

  /** The journal begins in the same transaction as the mutation, before it. */
  function StageStep(w: World, path: string, route: Route): World {
    var begun := Begin(w.store, path);
    if begun.Err? then w
    else World(begun.value.0.(route := route), Staged(begun.value.1, w.store.route), w.generated)
  }

  function BuildStep(w: World, content: string): World
    requires w.stage.Staged?
  {
    w.(stage := Built(w.stage.attempt, w.stage.oldRoute, content),
        generated := w.generated + {(Some(content), w.store.route)})
  }

  /** The generated content is already in the file, and no older apply was pending. */
  function FinishUnchangedStep(w: World): World
    requires w.stage.Built?
  {
    if w.stage.attempt.previousJournal.Some? || w.store.file != Some(w.stage.content) then w
    else
      var finished := Finish(w.store, w.stage.attempt, false);
      if finished.Err? then Stop(w) else Stop(w.(store := finished.value))
  }

  function RecordStep(w: World, path: string): World
    requires w.stage.Built?
  {
    var recorded := RecordCandidate(w.store, path, w.stage.content);
    if recorded.Err? then Stop(w)
    else w.(store := recorded.value, stage := Recorded(w.stage.attempt, w.stage.oldRoute, w.stage.content))
  }

  function PublishStep(w: World): World
    requires w.stage.Recorded?
  {
    w.(store := w.store.(file := Some(w.stage.content)),
        stage := Published(w.stage.attempt, w.stage.oldRoute, w.stage.content))
  }

  function FinishAppliedStep(w: World): World
    requires w.stage.Published?
  {
    var finished := Finish(w.store, w.stage.attempt, false);
    if finished.Err? then Stop(w) else Stop(w.(store := finished.value))
  }

  /** A failed activation writes the previous content back, or removes the file when there was none. */
  function RestoreStep(w: World, attempt: Attempt, oldRoute: Route): World {
    w.(store := w.store.(file := attempt.previousContent), stage := Restored(attempt, oldRoute))
  }

  /** The rollback transaction: the mutation is undone, and the journal goes back or stays pending for the engine. */
  function RollbackStep(w: World, path: string, attempt: Attempt, oldRoute: Route, engineFailed: bool): World {
    var undone := w.store.(route := oldRoute);
    if engineFailed then
      var begun := Begin(undone, path);
      if begun.Err? then Stop(w) else Stop(w.(store := begun.value.0))
    else
      var finished := Finish(undone, attempt, true);
      if finished.Err? then Stop(w) else Stop(w.(store := finished.value))
  }

  /** The offline preparation at start: over a pending apply the journal is rebased in one transaction first. */
  function PrepareOfflineStep(w: World, path: string, content: string): World {
    var noted := w.(generated := w.generated + {(Some(content), w.store.route)});
    if w.store.journal.None? then noted.(stage := Migrating(content))
    else
      var begun := Begin(w.store, path);
      if begun.Err? then w
      else
        var recorded := RecordCandidate(begun.value.0, path, content);
        if recorded.Err? then w else noted.(store := recorded.value, stage := Migrating(content))
  }

  function Step(w: World, path: string, event: Event): World {
    match event
    case StageMutation(route) => if w.stage.Idle? then StageStep(w, path, route) else w
    case Build(content) => if w.stage.Staged? then BuildStep(w, content) else w
    case FinishUnchanged => if w.stage.Built? then FinishUnchangedStep(w) else w
    case Record => if w.stage.Built? then RecordStep(w, path) else w
    case Publish => if w.stage.Recorded? then PublishStep(w) else w
    case FinishApplied => if w.stage.Published? then FinishAppliedStep(w) else w
    case Restore =>
      if w.stage.Recorded? || w.stage.Published? || w.stage.Built? then RestoreStep(w, w.stage.attempt, w.stage.oldRoute) else w
    case Rollback(engineFailed) =>
      if w.stage.Staged? || w.stage.Built? || w.stage.Recorded? || w.stage.Restored? then
        RollbackStep(w, path, w.stage.attempt, w.stage.oldRoute, engineFailed && w.stage.Restored?)
      else w
    case Fail => Stop(w)
    case Crash => Stop(w)
    case PrepareOffline(content) => if w.stage.Idle? then PrepareOfflineStep(w, path, content) else w
    case RenameOffline => if w.stage.Migrating? then Stop(w.(store := w.store.(file := Some(w.stage.content)))) else w
  }

  function Run(w: World, path: string, events: seq<Event>): World
    decreases |events|
  {
    if events == [] then w else Run(Step(w, path, events[0]), path, events[1..])
  }

  // ---------- The invariant ----------

  function ContentOf(identity: Identity): Option<string> {
    match identity.hash
    case None => None
    case Some(digest) => Some(digest.text)
  }

  /** The content the identity names was generated under the identity's route. */
  predicate Truthful(generated: set<(Option<string>, Route)>, identity: Identity) {
    (ContentOf(identity), identity.route) in generated
  }

  predicate Matches(journal: Journal, content: Option<string>) {
    HashOf(content) == journal.accepted.hash || (journal.candidate.Some? && HashOf(content) == journal.candidate.value.hash)
  }

  predicate JournalOk(generated: set<(Option<string>, Route)>, path: string, journal: Journal,
      content: Option<string>) {
    && journal.configPath == path && Truthful(generated, journal.accepted)
    && (journal.candidate.Some? ==> Truthful(generated, journal.candidate.value))
    && Matches(journal, content)
  }

  /** The journal answers for this file: it is about its path, and knows its content as accepted or as the candidate. */
  predicate AnswersFor(s: Store, configPath: string) {
    s.journal.Some? ==> s.journal.value.configPath == configPath && Matches(s.journal.value, s.file)
  }

  /** Recovery succeeds exactly for a file the journal answers for, the accepted identity before the candidate. */
  lemma RecoversIff(s: Store, configPath: string)
    ensures ReadRecovery(s, configPath).Ok? <==> AnswersFor(s, configPath)
    ensures ReadRecovery(s, configPath).Ok? ==>
      ReadRecovery(s, configPath).value == Recovery(s.journal.Some?,
        if s.journal.None? then s.route
        else if HashOf(s.file) == s.journal.value.accepted.hash then s.journal.value.accepted.route
        else s.journal.value.candidate.value.route)
  {
  }

  /** An apply begins exactly over a file the journal answers for, whose route it keeps, and forgets the candidate. */
  lemma BeginsIff(s: Store, configPath: string)
    ensures Begin(s, configPath).Ok? <==> AnswersFor(s, configPath)
    ensures Begin(s, configPath).Ok? ==>
      var (next, attempt) := Begin(s, configPath).value;
      && next.journal == Some(attempt.journal) && attempt.previousJournal == s.journal && attempt.previousContent == s.file
      && attempt.journal.configPath == configPath && attempt.journal.candidate.None?
      && attempt.journal.accepted == Identity(HashOf(s.file), ReadRecovery(s, configPath).value.route)
      && next.file == s.file && next.route == s.route
  {
    RecoversIff(s, configPath);
  }

  /** An apply finishes exactly under its own journal, and forwards only with the content that was last announced. */
  lemma FinishesIff(s: Store, attempt: Attempt, rollback: bool)
    ensures Finish(s, attempt, rollback).Ok? <==>
      && s.journal.Some? && s.journal.value.id == attempt.journal.id
      && (rollback || HashOf(s.file) ==
            if s.journal.value.candidate.Some? then s.journal.value.candidate.value.hash else s.journal.value.accepted.hash)
    ensures Finish(s, attempt, rollback).Ok? ==>
      Finish(s, attempt, rollback).value == s.(journal := if rollback then attempt.previousJournal else None)
  {
  }

  /** Recovery accepts the file, under a route its content was generated under. */
  predicate Recoverable(generated: set<(Option<string>, Route)>, path: string, journal: Option<Journal>, route: Route,
      file: Option<string>) {
    if journal.None? then (file, route) in generated else JournalOk(generated, path, journal.value, file)
  }

  /** What the running apply relies on: rolling back leads to a recoverable store again. */
  predicate AttemptOk(w: World, path: string, attempt: Attempt, oldRoute: Route) {
    && w.store.journal.Some? && w.store.journal.value.id == attempt.journal.id
    && w.store.journal.value.accepted == attempt.journal.accepted
    && attempt.journal.accepted.hash == HashOf(attempt.previousContent)
    && Recoverable(w.generated, path, attempt.previousJournal, oldRoute, attempt.previousContent)
  }

  predicate StageOk(w: World, path: string) {
    match w.stage
    case Idle => true
    case Staged(attempt, oldRoute) =>
      AttemptOk(w, path, attempt, oldRoute) && w.store.file == attempt.previousContent && w.store.journal.value.candidate.None?
    case Built(attempt, oldRoute, content) =>
      && AttemptOk(w, path, attempt, oldRoute) && w.store.file == attempt.previousContent
      && w.store.journal.value.candidate.None?
      && (Some(content), w.store.route) in w.generated
    case Recorded(attempt, oldRoute, content) =>
      && AttemptOk(w, path, attempt, oldRoute) && w.store.file == attempt.previousContent
      && w.store.journal.value.candidate == Some(Identity(Some(Sha256(content)), w.store.route))
    case Published(attempt, oldRoute, content) =>
      && AttemptOk(w, path, attempt, oldRoute) && w.store.file == Some(content)
      && w.store.journal.value.candidate == Some(Identity(Some(Sha256(content)), w.store.route))
    case Restored(attempt, oldRoute) => AttemptOk(w, path, attempt, oldRoute) && w.store.file == attempt.previousContent
    case Migrating(content) =>
      && (Some(content), w.store.route) in w.generated
      && (w.store.journal.Some? ==>
        w.store.journal.value.candidate == Some(Identity(Some(Sha256(content)), w.store.route)))
  }

  predicate Inv(w: World, path: string) {
    Recoverable(w.generated, path, w.store.journal, w.store.route, w.store.file) && StageOk(w, path)
  }

  lemma HashIsInjective(a: Option<string>, b: Option<string>)
    requires HashOf(a) == HashOf(b)
    ensures a == b
  {
  }

  lemma IdentityOfFile(generated: set<(Option<string>, Route)>, path: string, journal: Journal, content: Option<string>)
    requires JournalOk(generated, path, journal, content)
    ensures var identity := AcceptedIdentity(journal, path, content);
      identity.Ok? && identity.value.hash == HashOf(content) && Truthful(generated, identity.value)
  {
  }

  /** Beginning, also over a pending apply, never fails and stays recoverable whatever route is staged with it. */
  lemma BeginKeeps(w: World, path: string, route: Route)
    requires Recoverable(w.generated, path, w.store.journal, w.store.route, w.store.file)
    ensures var begun := Begin(w.store, path);
      && begun.Ok? && begun.value.1.journal.accepted.hash == HashOf(w.store.file)
      && JournalOk(w.generated, path, begun.value.1.journal, w.store.file)
  {
    if w.store.journal.Some? {
      IdentityOfFile(w.generated, path, w.store.journal.value, w.store.file);
    }
  }

  /** Every step keeps the store recoverable, a crash or a failure included. */
  lemma StepKeeps(w: World, path: string, event: Event)
    requires Inv(w, path)
    ensures Inv(Step(w, path, event), path)
  {
    BeginKeeps(w, path, w.store.route);
  }

  lemma {:induction false} RunKeeps(w: World, path: string, events: seq<Event>)
    requires Inv(w, path)
    ensures Inv(Run(w, path, events), path)
    decreases |events|
  {
    hide Inv, Step;
    if events != [] {
      StepKeeps(w, path, events[0]);
      RunKeeps(Step(w, path, events[0]), path, events[1..]);
    }
  }

  /** A fresh installation, or one whose last apply finished: the file was generated under the current route. */
  function Installed(file: Option<string>, route: Route): World {
    World(Store(None, route, file, 0), Idle, {(file, route)})
  }

  /** In every run recovery accepts the file and returns a route that its content was generated under. */
  lemma RecoveryReturnsGeneratingRoute(path: string, file: Option<string>, route: Route, events: seq<Event>)
    ensures var w := Run(Installed(file, route), path, events);
      var recovery := ReadRecovery(w.store, path);
      && recovery.Ok? && (w.store.file, recovery.value.route) in w.generated
      && (recovery.value.pending <==> w.store.journal.Some?)
  {
    assert Inv(Installed(file, route), path);
    hide Run, StageOk, AcceptedIdentity, Matches;
    RunKeeps(Installed(file, route), path, events);
    var w := Run(Installed(file, route), path, events);
    if w.store.journal.Some? {
      IdentityOfFile(w.generated, path, w.store.journal.value, w.store.file);
      TruthOfFile(w.generated, path, w.store.journal.value, w.store.file);
    }
  }

  lemma TruthOfFile(generated: set<(Option<string>, Route)>, path: string, journal: Journal, content: Option<string>)
    requires JournalOk(generated, path, journal, content)
    ensures var identity := AcceptedIdentity(journal, path, content);
      identity.Ok? && (content, identity.value.route) in generated
  {
    IdentityOfFile(generated, path, journal, content);
    HashIsInjective(content, ContentOf(AcceptedIdentity(journal, path, content).value));
  }

  /** An apply that was published finishes: its content is durable and no other apply took its journal. */
  lemma PublishedApplyFinishes(path: string, file: Option<string>, route: Route, events: seq<Event>)
    ensures var w := Run(Installed(file, route), path, events);
      w.stage.Published? ==> Finish(w.store, w.stage.attempt, false).Ok? && FinishAppliedStep(w).store.journal.None?
  {
    assert Inv(Installed(file, route), path);
    hide Run, Recoverable;
    RunKeeps(Installed(file, route), path, events);
  }

  // ---------- Rolling back ----------

  predicate HasAttempt(stage: Stage) {
    stage.Staged? || stage.Built? || stage.Recorded? || stage.Published? || stage.Restored?
  }

  /** The running apply was staged on this store. */
  predicate StagedOn(w: World, before: Store) {
    HasAttempt(w.stage) ==>
      (&& w.stage.attempt.previousJournal == before.journal && w.stage.attempt.previousContent == before.file
       && w.stage.oldRoute == before.route)
  }

  lemma StepStaysStaged(w: World, path: string, event: Event, before: Store)
    requires StagedOn(w, before) && HasAttempt(w.stage) && HasAttempt(Step(w, path, event).stage)
    ensures StagedOn(Step(w, path, event), before)
  {
    hide Begin, Finish, RecordCandidate;
  }

  /** Staging remembers the store it starts from. */
  lemma StagingRemembers(w: World, path: string, route: Route)
    requires Inv(w, path) && w.stage.Idle?
    ensures Step(w, path, StageMutation(route)).stage.Staged? && StagedOn(Step(w, path, StageMutation(route)), w.store)
  {
    hide AcceptedIdentity;
    BeginKeeps(w, path, route);
  }

  lemma RollbackReverts(w: World, path: string, before: Store)
    requires Inv(w, path) && StagedOn(w, before) && MayRollBack(w.stage)
    ensures var after := Step(w, path, Rollback(false));
      && after.stage.Idle? && after.store.file == before.file && after.store.journal == before.journal
      && after.store.route == before.route
  {
    hide Recoverable;
  }

  /** A published file is restored before the rollback; the other stages roll back as they are. */
  predicate MayRollBack(stage: Stage) {
    stage.Staged? || stage.Built? || stage.Recorded? || stage.Restored?
  }

  /** No event of the run ends the apply. */
  predicate KeepsAttempt(w: World, path: string, events: seq<Event>)
    decreases |events|
  {
    HasAttempt(w.stage) && (events == [] || KeepsAttempt(Step(w, path, events[0]), path, events[1..]))
  }

  lemma {:induction false} RunStaysStaged(w: World, path: string, events: seq<Event>, before: Store)
    requires StagedOn(w, before) && KeepsAttempt(w, path, events)
    ensures StagedOn(Run(w, path, events), before)
    decreases |events|
  {
    hide Step, StagedOn, HasAttempt;
    if events != [] {
      KeptAttempt(Step(w, path, events[0]), path, events[1..]);
      StepStaysStaged(w, path, events[0], before);
      RunStaysStaged(Step(w, path, events[0]), path, events[1..], before);
    }
  }

  lemma KeptAttempt(w: World, path: string, events: seq<Event>)
    requires KeepsAttempt(w, path, events)
    ensures HasAttempt(w.stage)
  {
  }

  lemma {:induction false} RunSplit(w: World, path: string, first: seq<Event>, second: seq<Event>)
    ensures Run(w, path, first + second) == Run(Run(w, path, first), path, second)
    decreases |first|
  {
    hide Step;
    if first == [] {
      assert first + second == second;
    } else {
      assert (first + second)[0] == first[0] && (first + second)[1..] == first[1..] + second;
      RunSplit(Step(w, path, first[0]), path, first[1..], second);
    }
  }

  lemma RunOne(w: World, path: string, event: Event)
    ensures Run(w, path, [event]) == Step(w, path, event)
  {
    assert [event][1..] == [];
  }

  /**
   In every run: whatever happened before an apply was staged, and whatever the apply went through since, a rollback
   whose engine was restored puts the file, the journal and the route back exactly as they were before the staging.
   */
  lemma RollbackRestores(path: string, file: Option<string>, route: Route, before: seq<Event>, staged: Route,
      during: seq<Event>)
    requires var w := Run(Installed(file, route), path, before);
      && w.stage.Idle? && KeepsAttempt(Step(w, path, StageMutation(staged)), path, during)
      && MayRollBack(Run(Step(w, path, StageMutation(staged)), path, during).stage)
    ensures var w := Run(Installed(file, route), path, before).store;
      var after := Run(Installed(file, route), path, before + ([StageMutation(staged)] + (during + [Rollback(false)])));
      && after.stage.Idle? && after.store.file == w.file && after.store.journal == w.journal
      && after.store.route == w.route
  {
    assert Inv(Installed(file, route), path);
    hide Inv, Step, StagedOn, Run, KeepsAttempt, HasAttempt;
    var start, w := Installed(file, route), Run(Installed(file, route), path, before);
    var stage, back := StageMutation(staged), Rollback(false);
    var begun := Step(w, path, stage);
    RunKeeps(start, path, before);
    StagingRemembers(w, path, staged);
    StepKeeps(w, path, stage);
    RunStaysStaged(begun, path, during, w.store);
    var applied := Run(begun, path, during);
    RunKeeps(begun, path, during);
    RollbackReverts(applied, path, w.store);
    RunSplit(start, path, before, [stage] + (during + [back]));
    RunSplit(w, path, [stage], during + [back]);
    RunOne(w, path, stage);
    RunSplit(begun, path, during, [back]);
    RunOne(applied, path, back);
  }
}
