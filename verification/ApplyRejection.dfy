/**
 A concrete run in which the file and the journal part for good: an operation is prepared for a confirmed candidate,
 its rule is published, the process dies before the journal is told, and the candidate is rejected meanwhile.
 */
module ApplyRejection {
  import opened Wrappers
  import RuleText
  import opened RuleTextTheorems
  import opened Journal
  import opened JournalTheorems
  import opened ApplyProtocol
  import opened ApplySafety
  import opened ApplyJournal
  import opened ApplyRecovery
  import opened ApplyStranding

  // ---------- The text of a file with one rule ----------

  const RULE := "a.b"
  const SAMPLE: Check := (rule: string) => rule == RULE
  const PUBLISHED := RuleText.BEGIN + "\n" + RULE + "\n" + RuleText.END + "\n"

  lemma HashesOfText(i: nat)
    requires i < |PUBLISHED| && PUBLISHED[i] == '#'
    ensures i == 0 || i == 29
  {
  }

  predicate IsMarkerAt(token: string, at: nat) {
    (token == RuleText.BEGIN && at == 0) || (token == RuleText.END && at == 29)
  }

  lemma MarkerOccursOnce(token: string, at: nat)
    requires IsMarkerAt(token, at)
    ensures forall i :: RuleText.Occurs(PUBLISHED, token, i) <==> i == at
  {
    assert RuleText.Occurs(PUBLISHED, RuleText.BEGIN, 0);
    assert RuleText.Occurs(PUBLISHED, RuleText.END, 29);
    forall i | RuleText.Occurs(PUBLISHED, token, i) ensures i == at {
      CharOf(PUBLISHED, token, i, 0);
      CharOf(PUBLISHED, token, i, 2);
      HashesOfText(i);
    }
  }

  lemma MarkerIsFound(token: string, at: nat)
    requires IsMarkerAt(token, at)
    ensures RuleText.IndexOf(PUBLISHED, token, 0) == Some(at) && RuleText.Count(PUBLISHED, token, 0) == 1
  {
    MarkerOccursOnce(token, at);
    assert RuleText.Occurs(PUBLISHED, token, at);
    assert RuleText.IndexOf(PUBLISHED, token, 0).Some?;
    assert RuleText.IndexOf(PUBLISHED, token, at + |token|).None?;
    assert RuleText.Count(PUBLISHED, token, at + |token|) == 0;
  }

  lemma LinesOfText()
    ensures RuleText.SplitLines(PUBLISHED) == [RuleText.BEGIN, RULE, RuleText.END, ""]
  {
    var end := RuleText.END + "\n";
    SplitFirstLine(RuleText.BEGIN, RULE + "\n" + end);
    SplitFirstLine(RULE, end);
    SplitFirstLine(RuleText.END, "");
    assert PUBLISHED == RuleText.BEGIN + "\n" + (RULE + "\n" + end);
    assert end == end + "";
  }

  lemma CommentLine(line: string, lines: seq<string>)
    requires line != "" && line[0] == '#' && line[|line| - 1] != '\r'
    ensures RuleText.RuleLines([line] + lines) == RuleText.RuleLines(lines) && RuleText.StripReturn(line) == line
  {
    assert ([line] + lines)[1..] == lines;
  }

  lemma PlainLines()
    ensures RuleText.StripReturn(RULE) == RULE && RuleText.StripReturn("") == ""
  {
  }

  lemma RulesOfText()
    ensures RuleText.RuleLines(RuleText.SplitLines(PUBLISHED)) == [RULE]
    ensures RuleText.NoStrayReturn(RuleText.SplitLines(PUBLISHED))
  {
    hide RuleText.SplitLines, RuleText.RuleLines, RuleText.StripReturn;
    LinesOfText();
    NoLines();
    PlainLines();
    CommentLine(RuleText.BEGIN, [RULE, RuleText.END, ""]);
    KeptLine(RULE, [RuleText.END, ""]);
    CommentLine(RuleText.END, [""]);
    assert [RuleText.BEGIN] + [RULE, RuleText.END, ""] == [RuleText.BEGIN, RULE, RuleText.END, ""];
    assert [RULE] + [RuleText.END, ""] == [RULE, RuleText.END, ""] && [RuleText.END] + [""] == [RuleText.END, ""];
  }

  lemma {:induction false} Utf8Bound(s: string)
    ensures RuleText.Utf8Length(s) <= 4 * |s|
  {
    if s != "" {
      Utf8Bound(s[1..]);
    }
  }

  lemma TextIsValid()
    ensures RuleText.ValidateComplete(SAMPLE, PUBLISHED).Ok?
  {
    hide RuleText.IndexOf, RuleText.Count, RuleText.Utf8Length, RuleText.SplitLines;
    MarkerIsFound(RuleText.BEGIN, 0);
    MarkerIsFound(RuleText.END, 29);
    RulesOfText();
    Utf8Bound(PUBLISHED);
  }

  lemma EmptyFileHasNoRules()
    ensures RuleText.ManagedRules(SAMPLE, "") == Ok([])
  {
    NoLines();
    assert RuleText.MarkersOk("");
  }

  lemma AroundEmptyFile()
    ensures RuleText.MarkersOk("") && RuleText.Before("") == "" && RuleText.After("") == ""
  {
  }

  lemma BlockOfRule()
    ensures RuleText.Block([RULE]) == PUBLISHED
  {
    assert RuleText.Sorted([RULE]) == [RULE];
    assert RuleText.Join([RULE]) == RULE;
  }

  lemma OneRuleAdded()
    ensures RuleText.AfterDelta([], [], [RULE]) == [RULE]
  {
    assert [RULE][1..] == [];
    assert RuleText.DeleteAll(RuleText.AddAll([], []), []) == [];
    assert RuleText.AddAll([], [RULE]) == RuleText.AddAll([RULE], []);
  }

  lemma FirstRule()
    ensures RuleText.DeltaUpdate(SAMPLE, "", [], [RULE]) == Ok(RuleText.RulesUpdate(PUBLISHED, true))
  {
    hide RuleText.ValidateComplete, RuleText.MarkersOk, RuleText.Before, RuleText.After, RuleText.Block,
      RuleText.ManagedRules;
    EmptyFileHasNoRules();
    AroundEmptyFile();
    TextIsValid();
    BlockOfRule();
    OneRuleAdded();
    assert "" + PUBLISHED + "" == PUBLISHED;
    assert PUBLISHED != "";
  }

  // ---------- The run ----------

  const CONFIRMED := Candidate(Confirmed, true, Some(RULE), None, None, 0, None, 0, 0)
  const REJECTED := CONFIRMED.(active := false)
  const DECISION := Decision("d", RULE, 0, true, Some(RULE))
  const CALM := Choice(Faults(false, false, Released), true, false, false, false, false, Succeeds)
  const ANY_TEXT := Text((id: string) => true, (rule: string) => true, (candidate: string) => true)
  const REQUEST := PrepareInput(
    "op", "key", ManualAdd, None, Some(RULE), RevisionOf(""), Sha256(""), Some(RULE), Delta([Upsert(RULE, Manual)], []))

  const START := World(EMPTY, Disk("", false, None), Down, 0, map[])
  const KNOWN := EMPTY.(candidates := map[RULE := CONFIRMED], decisions := [DECISION])
  const OPERATION := NewOperation(REQUEST.(expectedSource := RevisionOf(""), intended := Sha256(PUBLISHED)), None, 0)
  const PREPARED := World(Insert(KNOWN, OPERATION), Disk("", false, None), Idle, 0, map[])

  function Offered(candidate: Candidate): ProtocolEvent {
    Environment(map[RULE := candidate], [DECISION], None, None, {})
  }

  const SUBMISSION := [Restart, Offered(CONFIRMED), Submit(ANY_TEXT, REQUEST, CALM.faults), ProtocolEvent.Execute("op")]

  function Proceeds(choice: Choice, count: nat): seq<ProtocolEvent> {
    if count == 0 then [] else [Proceed(choice)] + Proceeds(choice, count - 1)
  }

  const REJECTION := [Crash(false), Offered(REJECTED), Restart]

  lemma {:induction false} DriveIsRun(check: Check, w: World, choice: Choice, count: nat)
    requires Inv(check, w)
    ensures ProtocolRun(check, w, Proceeds(choice, count)) == Drive(check, w, choice, count)
    decreases count
  {
    hide Inv, Advance;
    if count > 0 {
      AdvanceKeeps(check, w, choice);
      IsIndexed(check, w);
      DriveIsRun(check, Advance(check, w, choice), choice, count - 1);
      assert Proceeds(choice, count)[1..] == Proceeds(choice, count - 1);
    }
  }

  lemma IsIndexed(check: Check, w: World)
    requires Inv(check, w)
    ensures Indexed(w.db)
  {
    hide FileInv;
    KeysGiveIndex(w.db);
  }

  lemma {:induction false} RunSplit(check: Check, w: World, first: seq<ProtocolEvent>, second: seq<ProtocolEvent>)
    requires Inv(check, w)
    ensures ProtocolRun(check, w, first + second) == ProtocolRun(check, ProtocolRun(check, w, first), second)
    decreases |first|
  {
    hide Inv, Step;
    if first == [] {
      assert first + second == second;
    } else {
      StepKeeps(check, w, first[0]);
      assert (first + second)[0] == first[0] && (first + second)[1..] == first[1..] + second;
      RunSplit(check, Step(check, w, first[0]), first[1..], second);
    }
  }

  lemma RunStep(check: Check, w: World, event: ProtocolEvent, rest: seq<ProtocolEvent>)
    requires Inv(check, w)
    ensures Indexed(w.db) && Inv(check, Step(check, w, event))
    ensures ProtocolRun(check, w, [event] + rest) == ProtocolRun(check, Step(check, w, event), rest)
  {
    hide Inv, Step;
    StepKeeps(check, w, event);
    assert ([event] + rest)[1..] == rest;
  }

  lemma FirstIntent(w: World)
    requires w.disk == Disk("", false, None)
    ensures Session(w.disk, CALM.faults, Intent(SAMPLE, w.disk, REQUEST.delta)) == Ok(PUBLISHED)
  {
    hide RuleText.DeltaUpdate;
    FirstRule();
    EmptyFileHasNoRules();
    assert RulesOf(REQUEST.delta.upserts) == [RULE];
  }

  lemma RequestIsPrepared()
    ensures Prepare(KNOWN, ANY_TEXT, REQUEST.(expectedSource := RevisionOf(""), intended := Sha256(PUBLISHED)), 0)
      == Ok(After(Insert(KNOWN, OPERATION), PreparedOperation(OPERATION, true)))
  {
  }

  lemma Submits(w: World)
    requires w == World(KNOWN, Disk("", false, None), Idle, 0, map[]) && Indexed(w.db)
    ensures Step(SAMPLE, w, Submit(ANY_TEXT, REQUEST, CALM.faults)) == PREPARED
  {
    hide Session, Intent, Prepare, RuleText.DeltaUpdate;
    FirstIntent(w);
    RequestIsPrepared();
    assert NoneOpen(w.db.operations);
  }

  lemma SubmissionLeadsToStart()
    ensures Sound(SAMPLE, START)
    ensures ProtocolRun(SAMPLE, START, SUBMISSION) == PREPARED.(process := Running("op", Starting))
  {
    hide Inv, JournalOk, Step;
    EmptyFileHasNoRules();
    InitialIsSound(SAMPLE, "", 0);
    var restarted, offered := RestartOf(), World(KNOWN, Disk("", false, None), Idle, 0, map[]);
    var e := SUBMISSION;
    assert e == [e[0]] + ([e[1]] + ([e[2]] + ([e[3]] + [])));
    RunStep(SAMPLE, START, e[0], [e[1]] + ([e[2]] + ([e[3]] + [])));
    FirstSteps();
    RunStep(SAMPLE, restarted, e[1], [e[2]] + ([e[3]] + []));
    RunStep(SAMPLE, offered, e[2], [e[3]] + []);
    Submits(offered);
    RunStep(SAMPLE, PREPARED, e[3], []);
    Executes();
  }

  function RestartOf(): World {
    START.(process := Idle)
  }

  lemma FirstSteps()
    requires Indexed(START.db)
    ensures Step(SAMPLE, START, Restart) == RestartOf()
    ensures Step(SAMPLE, RestartOf(), Offered(CONFIRMED)) == World(KNOWN, Disk("", false, None), Idle, 0, map[])
  {
  }

  lemma Executes()
    requires Indexed(PREPARED.db)
    ensures Step(SAMPLE, PREPARED, ProtocolEvent.Execute("op")) == PREPARED.(process := Running("op", Starting))
  {
  }

  /** Seven steps on, the rule is in the file and the journal has yet to be told. */
  lemma Publishes(w: World)
    requires Sound(SAMPLE, w) && w == PREPARED.(process := Running("op", Starting))
    ensures var next := Drive(SAMPLE, w, CALM, 7);
      && next.process == Running("op", Finalizing(RevisionOf(PUBLISHED), Sha256(PUBLISHED))) && next.db == PREPARED.db
      && Inv(SAMPLE, next)
  {
    hide Inv, JournalOk, Advance;
    StartsAttesting(SAMPLE, w, "op", CALM);
    AdvanceKeeps(SAMPLE, w, CALM);
    WritesFromSource(SAMPLE, Advance(SAMPLE, w, CALM), "op", CALM);
    DriveKeeps(SAMPLE, w, CALM, 7);
    assert Drive(SAMPLE, w, CALM, 7) == Drive(SAMPLE, Advance(SAMPLE, w, CALM), CALM, 6);
  }

  /** A crash before the finalizing transaction, and a rejection of the candidate, strand any operation. */
  lemma RejectionStrands(check: Check, w: World, id: string, candidates: map<string, Candidate>,
      decisions: seq<Decision>)
    requires Inv(check, w) && w.process.Running? && w.process.id == id && w.process.stage.Finalizing?
    requires id in w.db.operations
    requires w.db.operations[id].resultingRevision.None?
    requires NotReady(candidates, w.db.operations[id].candidate, w.db.operations[id].proposedRule)
    ensures var after := ProtocolRun(check, w,
        [Crash(false), Environment(candidates, decisions, None, None, {}), Restart]);
      Stranded(after, id) && after.process.Idle? && after.disk.content == w.disk.content && after.db.ownership == w.db.ownership
  {
    hide Inv, NotReady, ProtocolRun, Stranded;
    var reject, restart := Environment(candidates, decisions, None, None, {}), Restart;
    assert [Crash(false), reject, restart] == [Crash(false)] + ([reject] + ([restart] + []));
    RunStep(check, w, Crash(false), [reject] + ([restart] + []));
    var crashed := w.(process := Down, disk := w.disk);
    assert Step(check, w, Crash(false)) == crashed;
    RunStep(check, crashed, reject, [restart] + []);
    var rejected := Step(check, crashed, reject);
    RunStep(check, rejected, restart, []);
    RunOver(check, Step(check, rejected, restart));
    StrandedAfter(check, w, id, rejected);
  }

  lemma RunOver(check: Check, w: World)
    requires Inv(check, w)
    ensures ProtocolRun(check, w, []) == w
  {
  }

  lemma StrandedAfter(check: Check, w: World, id: string, next: World)
    requires Inv(check, w) && w.process.Running? && w.process.id == id && w.process.stage.Finalizing?
    requires id in w.db.operations
    requires w.db.operations[id].resultingRevision.None? && next.disk.content == w.disk.content
    requires next.db.operations == w.db.operations
    requires NotReady(next.db.candidates, w.db.operations[id].candidate, w.db.operations[id].proposedRule)
    ensures Stranded(next.(process := Idle), id)
  {
    hide KeysOk, FileInv, NotReady;
  }

  /**
   The failing run: after it the published rule is in the file and in no table, the operation is still prepared, and by
   `StrandedUntilReady` no retry changes that while the candidate stays rejected.
   */
  lemma RejectionBetweenRenameAndFinalize()
    ensures Inv(SAMPLE, START)
    ensures var after := ProtocolRun(SAMPLE, START, SUBMISSION + Proceeds(CALM, 7) + REJECTION);
      && Sound(SAMPLE, after) && Stranded(after, "op") && after.process.Idle?
      && after.disk.content == PUBLISHED && after.db.ownership == map[]
  {
    hide Inv, JournalOk, Advance, ProtocolRun, Drive, Stranded, NotReady;
    SubmissionLeadsToStart();
    var started := PREPARED.(process := Running("op", Starting));
    RunKeepsSound(SAMPLE, START, SUBMISSION);
    Publishes(started);
    DriveIsRun(SAMPLE, started, CALM, 7);
    var published := Drive(SAMPLE, started, CALM, 7);
    RunSplit(SAMPLE, START, SUBMISSION, Proceeds(CALM, 7));
    RunSplit(SAMPLE, START, SUBMISSION + Proceeds(CALM, 7), REJECTION);
    RejectedIsNotReady();
    FileAtFinalizing(SAMPLE, published);
    RejectionStrands(SAMPLE, published, "op", map[RULE := REJECTED], [DECISION]);
    RunKeepsSound(SAMPLE, START, SUBMISSION + Proceeds(CALM, 7) + REJECTION);
  }

  lemma RejectedIsNotReady()
    ensures NotReady(map[RULE := REJECTED], Some(RULE), Some(RULE))
  {
  }

  lemma FileAtFinalizing(check: Check, w: World)
    requires Inv(check, w) && w.process.Running? && w.process.stage.Finalizing?
    ensures w.process.stage.revision == RevisionOf(w.disk.content)
  {
    hide KeysOk, FileInv;
  }
}
