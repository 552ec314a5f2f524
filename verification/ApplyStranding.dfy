/**
 When recovery cannot complete: a published operation whose candidate was rejected stays unfinished until the candidate
 is confirmed again.
 */
module ApplyStranding {
  import opened Wrappers
  import RuleText
  import opened Journal
  import opened JournalTheorems
  import opened ApplyProtocol
  import opened ApplySafety
  import opened ApplyJournal
  import opened ApplyRecovery

  // ---------- A rejected candidate ----------

  predicate NotReady(candidates: map<string, Candidate>, candidate: Option<string>, rule: Option<string>) {
    candidate.Some? && !CandidateReady(candidates, candidate.value, rule)
  }

  /** The rule is in the file, the journal does not know it, and the candidate is no longer confirmed and active. */
  predicate Stranded(w: World, id: string) {
    && id in w.db.operations
    && var op := w.db.operations[id];
    && (op.phase.Prepared? || op.phase.ReconciliationRequired?) && op.resultingRevision.None?
    && w.disk.content == op.intended.text && NotReady(w.db.candidates, op.candidate, op.proposedRule)
  }

  /** No event of the run makes the candidate ready again. */
  predicate StaysRejected(events: seq<ProtocolEvent>, candidate: Option<string>, rule: Option<string>)
    decreases |events|
  {
    events == [] ||
    ((events[0].Environment? ==> NotReady(events[0].candidates, candidate, rule)) && StaysRejected(events[1..],
        candidate, rule))
  }

  predicate SameRequest(before: Operation, after: Operation) {
    after.candidate == before.candidate && after.proposedRule == before.proposedRule && after.intended == before.intended
  }

  predicate StaysStranded(w: World, next: World, id: string)
    requires id in w.db.operations
  {
    Stranded(next, id) && SameRequest(w.db.operations[id], next.db.operations[id])
  }

  lemma FailedSessionStaysStranded(w: World, id: string, error: RuleText.StoreError)
    requires Stranded(w, id)
    ensures StaysStranded(w, FailSession(w, id, error), id)
  {
  }

  lemma SessionStaysStranded(check: Check, w: World, id: string, choice: Choice)
    requires Inv(check, w) && Stranded(w, id) && w.process.Running? && w.process.id == id
    requires w.process.stage.Attesting? || w.process.stage.Renamed?
    ensures StaysStranded(w, Advance(check, w, choice), id)
  {
    hide Inv, Session, Attest, ReadFile, FailSession, NotReady;
    var attested := Session(w.disk, choice.faults, Attest(check, w.disk, w.db.operations[id]));
    FailedSessionStaysStranded(w.(disk := DiskAfter(w.disk, choice.faults)), id,
        if attested.Err? then attested.error else RuleText.Unsafe);
    FailedSessionStaysStranded(w.(disk := Unlock(w.disk, choice.faults)), id, RuleText.ReconciliationRequired);
  }

  lemma FinalizeStaysStranded(check: Check, w: World, id: string, choice: Choice)
    requires Sound(check, w) && Stranded(w, id) && w.process.Running? && w.process.id == id
    requires w.process.stage.Finalizing?
    ensures StaysStranded(w, Advance(check, w, choice), id)
  {
    hide Inv, JournalOk, Finalize, ReplacesManual, CandidateReady, LatestDecision;
    FinalizesIff(check, w);
  }

  /** A published operation is in one of these stages, and no other operation runs past its start. */
  lemma StrandedStages(check: Check, w: World, id: string)
    requires Inv(check, w) && Stranded(w, id) && w.process.Running?
    ensures w.process.id in w.db.operations
    ensures w.process.id != id ==> w.process.stage.Starting? && !Open(w.db.operations[w.process.id])
    ensures w.process.id == id ==>
      w.process.stage.Starting? || w.process.stage.Attesting? || w.process.stage.Renamed? || w.process.stage.Finalizing?
  {
    hide KeysOk, RowFits, WritesOf, NoneOpen, NotReady;
    RowAt(check, w, id);
    SourceIsNotIntent(check, w, id);
    assert Open(w.db.operations[id]);
  }

  lemma SourceIsNotIntent(check: Check, w: World, id: string)
    requires Inv(check, w) && id in w.db.operations && Open(w.db.operations[id])
    ensures w.db.operations[id].expectedSource.text != w.db.operations[id].intended.text
  {
    hide IntentOk;
    RowAt(check, w, id);
    IntentDiffers(check, w.db.operations[id]);
  }

  lemma AdvanceStaysStranded(check: Check, w: World, id: string, choice: Choice)
    requires Sound(check, w) && Stranded(w, id)
    ensures StaysStranded(w, Advance(check, w, choice), id)
  {
    hide Inv, JournalOk, NotReady, AttestStep, PublishStep, FinalizeStep;
    if w.process.Running? {
      StrandedStages(check, w, id);
      if w.process.stage.Attesting? || w.process.stage.Renamed? {
        SessionStaysStranded(check, w, id, choice);
      } else if w.process.stage.Finalizing? {
        FinalizeStaysStranded(check, w, id, choice);
      }
    }
  }

  lemma StepStaysStranded(check: Check, w: World, event: ProtocolEvent, id: string)
    requires Sound(check, w) && Stranded(w, id)
    requires event.Environment? ==>
      NotReady(event.candidates, w.db.operations[id].candidate, w.db.operations[id].proposedRule)
    ensures Indexed(w.db) && StaysStranded(w, Step(check, w, event), id)
  {
    hide Inv, JournalOk, NotReady, Advance, SubmitStep;
    SoundIsIndexed(check, w);
    assert Open(w.db.operations[id]);
    if event.Proceed? {
      AdvanceStaysStranded(check, w, id, event.choice);
    }
  }

  /**
   However often it is retried or crashes, a published operation whose candidate is not ready is never finalized:
   it stays prepared, or goes to reconciliation, and its rules stay in the file, until the candidate is ready again.
   */
  lemma {:induction false} StrandedUntilReady(check: Check, w: World, events: seq<ProtocolEvent>, id: string)
    requires Sound(check, w) && Stranded(w, id)
    requires StaysRejected(events, w.db.operations[id].candidate, w.db.operations[id].proposedRule)
    ensures Stranded(ProtocolRun(check, w, events), id)
    decreases |events|
  {
    hide Sound, Step, Stranded, NotReady;
    SoundParts(check, w);
    StrandedRow(w, id);
    if events != [] {
      StepStaysStranded(check, w, events[0], id);
      StepKeepsSound(check, w, events[0]);
      StrandedUntilReady(check, Step(check, w, events[0]), events[1..], id);
    }
  }

  lemma SoundParts(check: Check, w: World)
    requires Sound(check, w)
    ensures Inv(check, w)
  {
  }

  lemma StrandedRow(w: World, id: string)
    requires Stranded(w, id)
    ensures id in w.db.operations
  {
  }
}
