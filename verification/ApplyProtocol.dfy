/**
 Executing one durable operation: attest, write, finalize, activate. The process may crash between any two steps,
 every file session may fail, and an operator may clear a leftover lock or temporary file while the process is down.
 Only this protocol writes the rule file, and the worker submits a new operation only when no other one is open.
 */
module ApplyProtocol {
  import opened Wrappers
  import RuleText
  import opened Journal
  import opened JournalTheorems

  // ---------- The file store ----------

  datatype Disk = Disk(content: string, locked: bool, temporary: Option<string>)

  /** How releasing the store lock ends: unlinked, found missing, or left behind. */
  datatype Release = Released | Disappeared | Stays

  /** Which of the file operations of one session fail. */
  datatype Faults = Faults(lock: bool, read: bool, release: Release)

  function Unlock(disk: Disk, faults: Faults): Disk {
    disk.(locked := faults.release.Stays?)
  }

  /** A session that reads under the store lock; `body` is what it computes from the file. */
  function Session<T>(disk: Disk, faults: Faults, body: Result<T,
      RuleText.StoreError>): Result<T, RuleText.StoreError> {
    if disk.locked || faults.lock then Err(RuleText.Unavailable)
    else if disk.temporary.Some? then Err(RuleText.ReconciliationRequired)
    else if faults.read then Err(RuleText.Unsafe)
    else if body.Ok? && !faults.release.Released? then Err(RuleText.ReconciliationRequired)
    else body
  }

  /**
   A lock of another session stays; an own lock, also one whose acquisition failed half-way, is released or left behind.
   */
  function DiskAfter(disk: Disk, faults: Faults): Disk {
    if disk.locked then disk else Unlock(disk, faults)
  }

  function ReadFile(check: RuleText.RuleCheck, disk: Disk): Result<string, RuleText.StoreError> {
    if RuleText.ValidateComplete(check, disk.content).Err? then Err(RuleText.Unsafe) else Ok(disk.content)
  }

  datatype Attestation = AtSource | AtIntent

  function Attest(check: RuleText.RuleCheck, disk: Disk, op: Operation): Result<Attestation, RuleText.StoreError> {
    var content :- ReadFile(check, disk);
    if RevisionOf(content) == op.expectedSource then Ok(AtSource)
    else if Sha256(content) == op.intended then Ok(AtIntent)
    else Err(RuleText.ReconciliationRequired)
  }

  function AttestWritten(check: RuleText.RuleCheck, disk: Disk, op: Operation): Result<bool, RuleText.StoreError> {
    var content :- ReadFile(check, disk);
    if op.resultingRevision == Some(RevisionOf(content)) && op.resultingDigest == Some(Sha256(content)) then Ok(true)
    else Err(RuleText.ReconciliationRequired)
  }

  function RulesOf(upserts: seq<Upsert>): seq<string> {
    seq(|upserts|, k requires 0 <= k < |upserts| => upserts[k].rule)
  }

  /** The content a delta leads to; a delta without effect is refused. */
  function Intent(check: RuleText.RuleCheck, disk: Disk, delta: Delta): Result<string, RuleText.StoreError> {
    var content :- ReadFile(check, disk);
    var update :- RuleText.DeltaUpdate(check, content, delta.deletes, RulesOf(delta.upserts));
    if update.changed then Ok(update.content) else Err(RuleText.ReconciliationRequired)
  }

  /**
   What the commit session may write: the file must still be at the source, and the delta must still give the intent.
   */
  function Commit(check: RuleText.RuleCheck, disk: Disk, op: Operation): Result<string, RuleText.StoreError> {
    var content :- ReadFile(check, disk);
    if RevisionOf(content) != op.expectedSource then Err(RuleText.ReconciliationRequired)
    else
      var intended :- Intent(check, disk, op.delta);
      if Sha256(intended) != op.intended then Err(RuleText.ReconciliationRequired) else Ok(intended)
  }

  // ---------- The process ----------

  /** Where the execution of one operation stands. The three stages from `Writing` on hold the store lock. */
  datatype Stage =
    | Starting
    | Attesting
    | Preflighting
    | Vetoed
    | Aborting
    | Committing
    | Writing(content: string)
    | Renaming(content: string)
    | Renamed
    | Finalizing(revision: Revision, digest: Digest)
    | Beginning
    | Checking(attempt: int)
    | Activation(attempt: int)
    | Rechecking(attempt: int, outcome: Outcome)
    | Ending(attempt: int, outcome: Outcome)

  datatype Process = Down | Idle | Running(id: string, stage: Stage)

  datatype World = World(db: Db, disk: Disk, process: Process, clock: int, writes: map<string, int>)

  /** Everything a step cannot foresee: failing file operations, a veto, an abort signal, the activation's outcome. */
  datatype Choice = Choice(faults: Faults, allowed: bool, veto: bool, aborted: bool, failed: bool, temporaryStays: bool,
      outcome: Outcome)

  datatype ProtocolEvent =
    | Tick(now: int)
    | Crash(lockLeft: bool)
    | Restart
    | ClearLock
    | ClearTemporary
    | Environment(candidates: map<string, Candidate>, decisions: seq<Decision>, settings: Option<Settings>,
        activeConsent: Option<Consent>, runningValidations: set<string>)
    | Submit(text: Text, input: PrepareInput, faults: Faults)
    | Execute(id: string)
    | Throw
    | Proceed(choice: Choice)

  predicate Open(op: Operation) {
    !op.phase.Completed? && !op.phase.Aborted?
  }

  predicate NoneOpen(operations: map<string, Operation>) {
    forall id :: id in operations ==> !Open(operations[id])
  }

  function Count(writes: map<string, int>, id: string): int {
    if id in writes then writes[id] else 0
  }

  predicate HoldsLock(stage: Stage) {
    stage.Writing? || stage.Renaming? || stage.Renamed?
  }

  /** The process holds the store lock, so lock and temporary file are its own and not left over. */
  predicate InSession(process: Process) {
    process.Running? && HoldsLock(process.stage)
  }

  /** Neither the rule file nor the count of publications changed. */
  predicate SameFile(w: World, next: World) {
    next.disk.content == w.disk.content && next.writes == w.writes
  }

  function Stop(w: World): World {
    w.(process := Idle)
  }

  function Continue(w: World, stage: Stage): World
    requires w.process.Running?
  {
    w.(process := Running(w.process.id, stage))
  }

  /** A failed session: reconciliation failures mark the operation, and every failure leaves the execution. */
  function FailSession(w: World, id: string, error: RuleText.StoreError): (next: World)
    ensures SameFile(w, next)
  {
    if error.ReconciliationRequired? then Stop(w.(db := AfterOr(w.db, Mark(w.db, id, w.clock)))) else Stop(w)
  }

  function Start(w: World, id: string, op: Operation, choice: Choice): (next: World)
    requires w.process.Running?
    ensures SameFile(w, next)
  {
    if op.phase.ReconciliationRequired? || op.phase.Aborted? || op.phase.Completed? || !choice.allowed then Stop(w)
    else if op.phase.Prepared? then (if op.action.Rollback? then Stop(w) else Continue(w, Attesting))
    else Continue(w, Beginning)
  }

  function AttestStep(check: RuleText.RuleCheck, w: World, id: string, op: Operation, choice: Choice): (next: World)
    requires w.process.Running?
    ensures SameFile(w, next)
  {
    var attested := Session(w.disk, choice.faults, Attest(check, w.disk, op));
    var after := w.(disk := DiskAfter(w.disk, choice.faults));
    if attested.Err? then FailSession(after, id, attested.error)
    else if attested.value.AtSource? then Continue(after, Preflighting)
    else Continue(after, Finalizing(RevisionOf(w.disk.content), Sha256(w.disk.content)))
  }

  function Preflight(w: World, id: string, op: Operation, choice: Choice): (next: World)
    requires w.process.Running?
    ensures SameFile(w, next)
  {
    if choice.veto then Continue(w, Vetoed)
    else if !op.action.AutomaticAdd? then Continue(w, Committing)
    else
      match AssertAuthorized(w.db, id)
      case Ok(_) => Continue(w, Committing)
      case Err(error) => if IsVeto(error) then Continue(w, Vetoed) else Stop(w)
  }

  function VetoStep(check: RuleText.RuleCheck, w: World, id: string, op: Operation, choice: Choice): (next: World)
    requires w.process.Running?
    ensures SameFile(w, next)
  {
    var attested := Session(w.disk, choice.faults, Attest(check, w.disk, op));
    var after := w.(disk := DiskAfter(w.disk, choice.faults));
    if attested.Err? then FailSession(after, id, attested.error)
    else if attested.value.AtSource? then Continue(after, Aborting)
    else FailSession(after, id, RuleText.ReconciliationRequired)
  }

  function AbortStep(w: World, id: string, op: Operation): (next: World)
    ensures SameFile(w, next)
  {
    Stop(w.(db := AfterOr(w.db, Abort(w.db, id, op.expectedSource, op.intended, w.clock))))
  }

  function CommitStep(check: RuleText.RuleCheck, w: World, id: string, op: Operation, choice: Choice): (next: World)
    requires w.process.Running?
    ensures SameFile(w, next)
  {
    var begun := Session(w.disk, choice.faults.(release := Released), Commit(check, w.disk, op));
    match begun
    case Err(error) => FailSession(w.(disk := DiskAfter(w.disk, choice.faults)), id, error)
    case Ok(content) => Continue(w.(disk := w.disk.(locked := true)), Writing(content))
  }

  function WriteStep(w: World, content: string, choice: Choice): (next: World)
    requires w.process.Running?
    ensures SameFile(w, next)
  {
    if choice.failed then
      Stop(w.(disk := Unlock(w.disk, choice.faults).(temporary := if choice.temporaryStays then Some(content)
          else None)))
    else Continue(w.(disk := w.disk.(temporary := Some(content))), Renaming(content))
  }

  function RenameStep(w: World, id: string, content: string, choice: Choice): World
    requires w.process.Running?
  {
    if choice.failed then
      Stop(w.(disk := Unlock(w.disk, choice.faults).(temporary := if choice.temporaryStays then Some(content)
          else None)))
    else
      Continue(w.(disk := w.disk.(content := content, temporary := None), writes := w.writes[id := Count(w.writes, id) + 1]), Renamed)
  }

  /** After the rename: the directory is synced, the file is read again, and the lock is released. */
  function PublishStep(check: RuleText.RuleCheck, w: World, id: string, op: Operation, choice: Choice): (next: World)
    requires w.process.Running?
    ensures SameFile(w, next)
  {
    var after := w.(disk := Unlock(w.disk, choice.faults));
    if choice.failed || ReadFile(check, w.disk).Err? then Stop(after)
    else if Sha256(w.disk.content) != op.intended || !choice.faults.release.Released? then
      FailSession(after, id, RuleText.ReconciliationRequired)
    else Continue(after, Finalizing(RevisionOf(w.disk.content), op.intended))
  }

  function FinalizeStep(w: World, id: string, revision: Revision, digest: Digest): (next: World)
    requires w.process.Running?
    ensures SameFile(w, next)
  {
    var finalized := Finalize(w.db, id, revision, digest, w.clock);
    if finalized.Err? then Stop(w) else Continue(w.(db := finalized.value.db), Beginning)
  }

  function BeginStep(w: World, id: string): (next: World)
    requires w.process.Running?
    ensures SameFile(w, next)
  {
    var begun := Begin(w.db, id, w.clock);
    if begun.Err? then Stop(w)
    else Continue(w.(db := begun.value.db), Checking(begun.value.value.attempt))
  }

  function ErrorOf(choice: Choice): Outcome {
    Fails(if choice.aborted then Shutdown else MaterializationFailure)
  }

  /** Re-attesting the written file, before and after activation. */
  function CheckStep(check: RuleText.RuleCheck, w: World, id: string, op: Operation, attempt: int, passed: Stage,
      choice: Choice): (next: World)
    requires w.process.Running?
    ensures SameFile(w, next)
  {
    var attested := Session(w.disk, choice.faults, AttestWritten(check, w.disk, op));
    var after := w.(disk := DiskAfter(w.disk, choice.faults));
    if attested.Err? && attested.error.ReconciliationRequired? then FailSession(after, id, attested.error)
    else if attested.Err? || choice.aborted then Continue(after, Ending(attempt, ErrorOf(choice)))
    else Continue(after, passed)
  }

  function EndStep(w: World, id: string, attempt: int, outcome: Outcome): (next: World)
    ensures SameFile(w, next)
  {
    Stop(w.(db := AfterOr(w.db, Complete(w.db, id, attempt, outcome, w.clock))))
  }

  /** One step of the running execution. */
  function Advance(check: RuleText.RuleCheck, w: World, choice: Choice): World {
    if !w.process.Running? then w
    else if w.process.id !in w.db.operations then Stop(w)
    else
      var id, op := w.process.id, w.db.operations[w.process.id];
      match w.process.stage
      case Starting => Start(w, id, op, choice)
      case Attesting => AttestStep(check, w, id, op, choice)
      case Preflighting => Preflight(w, id, op, choice)
      case Vetoed => VetoStep(check, w, id, op, choice)
      case Aborting => AbortStep(w, id, op)
      case Committing => CommitStep(check, w, id, op, choice)
      case Writing(content) => WriteStep(w, content, choice)
      case Renaming(content) => RenameStep(w, id, content, choice)
      case Renamed => PublishStep(check, w, id, op, choice)
      case Finalizing(revision, digest) => FinalizeStep(w, id, revision, digest)
      case Beginning => BeginStep(w, id)
      case Checking(attempt) => CheckStep(check, w, id, op, attempt, Activation(attempt), choice)
      case Activation(attempt) => Continue(w, Rechecking(attempt, choice.outcome))
      case Rechecking(attempt, outcome) => CheckStep(check, w, id, op, attempt, Ending(attempt, outcome), choice)
      case Ending(attempt, outcome) => EndStep(w, id, attempt, outcome)
  }

  /** Preparing a new operation: the intent is read from the file, and journaled in the same turn of the worker. */
  function SubmitStep(check: RuleText.RuleCheck, w: World, text: Text, input: PrepareInput,
      faults: Faults): (next: World)
    requires Indexed(w.db)
    ensures SameFile(w, next)
  {
    var intent := Session(w.disk, faults, Intent(check, w.disk, input.delta));
    var after := w.(disk := DiskAfter(w.disk, faults));
    if intent.Err? then after
    else
      var prepared := input.(expectedSource := RevisionOf(w.disk.content), intended := Sha256(intent.value));
      after.(db := AfterOr(w.db, Prepare(w.db, text, prepared, w.clock)))
  }

  function Step(check: RuleText.RuleCheck, w: World, event: ProtocolEvent): World
    requires Indexed(w.db)
  {
    match event
    case Tick(now) => if w.clock <= now <= MAX_DATE then w.(clock := now) else w
    case Crash(lockLeft) => w.(process := Down, disk := w.disk.(locked := w.disk.locked || lockLeft))
    case Restart => if w.process.Down? then Stop(w) else w
    case ClearLock => if InSession(w.process) then w else w.(disk := w.disk.(locked := false))
    case ClearTemporary => if InSession(w.process) then w else w.(disk := w.disk.(temporary := None))
    case Environment(candidates, decisions, settings, activeConsent, runningValidations) =>
      w.(db := w.db.(candidates := candidates, decisions := decisions, settings := settings,
          activeConsent := activeConsent,
                     runningValidations := runningValidations))
    case Submit(text, input, faults) =>
      if w.process.Idle? && NoneOpen(w.db.operations) then SubmitStep(check, w, text, input, faults) else w
    case Execute(id) => if w.process.Idle? && id in w.db.operations then w.(process := Running(id, Starting)) else w
    case Throw => if w.process.Running? && !HoldsLock(w.process.stage) then Stop(w) else w
    case Proceed(choice) => Advance(check, w, choice)
  }
}
