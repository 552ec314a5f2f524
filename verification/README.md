# Verification of submerge's protocols and algorithms

A Dafny model of the parts of submerge whose correctness does not show in any single function: the durable
application of domain rules (journal, rule file, worker), the decision over probe evidence, the decoder of
`geosite.dat`, the fencing of deployment and runtime, configuration recovery, and four smaller algorithms. Each is
modelled after its source and proved for all inputs, runs or interleavings. `dafny verify dfyconfig.toml` checks
the whole project.

## How it is built

| files | what they model |
|---|---|
| `SpacedEvidence`, `Decision`, `DecisionFacts` | the dynamic program over spaced failures, the candidate decision built on it, and what its checks say of hosts, labels and categories |
| `ProtobufWire`, `Geosite`, `GeositeTheorems` | the bounded protobuf reader, the two-pass site decoder, an encoder and the round trip |
| `RuleText`, `RuleTextTheorems`, `RuleTextAcceptance` | the managed block of the rule file: its parser, its printer and deltas, and which files and updates are accepted |
| `Journal`, `JournalStore`, `JournalTheorems`, `JournalGuards` | the journal transactions as functions on tables, the same as methods on mutable tables, what every run keeps, and exactly when each transaction takes effect |
| `ApplyProtocol`, `ApplySafety`, `ApplyJournal` | one execution as a step machine with crashes and failing file operations, its safety, and the journal's invariants over its runs |
| `ApplyRecovery`, `ApplyOutcome`, `ApplyFailures` | how an execution ends, case by case, when no call fails, and what vetoes and failing calls lead to |
| `ApplyStranding`, `ApplyRejection`, `ApplyExecutor` | an operation that cannot complete, a concrete run that strands one, and the executor as an object whose history is a run of the machine |
| `ApplyWorker`, `WorkerTheorems`, `WorkerCalls`, `WorkerObject` | the serial worker as a step machine over its awaits, what its calls lead to, and the worker as an object |
| `WorkerJournal`, `ApplySystem` | worker and protocol together: every run of the two is a run of the protocol |
| `Provisioning`, `Deployment`, `DeploymentTheorems`, `DeploymentOutcomes`, `DeploymentCourses` | the capability with its generation, the controller's interleaved transitions, their fencing, when they make the deployment ready, and what failing stores and passed reconciliations lead to |
| `Runtime`, `RuntimeTheorems` | the generation fence around enabling the runtime, and exactly when it is enabled |
| `VpnPool`, `EngineNames` | the search for a node through cyclic groups |
| `NodeProber`, `ProberTheorems` | the prober's rotation and memory |
| `OptimalController`, `OptimalTheorems`, `OptimalDecisions` | the `optimal` policy over exact reals, and the exact conditions of its moves |
| `ConfigApply` | the recovery journal of configuration applies |
| `Naming` | unique proxy names and entries by name |
| `Wrappers` | optional values and error results |

Code that updates state is a class or a method with loops, proved equal to a function or against a declarative
specification; asynchronous code is a step machine in which each stretch between two awaits is one step and events
come in any order. A digest stands for the text it digests, so it is injective. Library checks on single strings are
parameters: `Decision.Libraries` (host names, URLs, addresses, suffix lists), `Geosite.Text` (UTF-8 decoding and
normalisation), `RuleText.RuleCheck` (of which only line safety is known) and `Journal.Text`. Clocks, identifiers,
file-system failures, probe results and everything the network answers are event parameters.

The pieces meet as follows. `ApplyProtocol` calls the journal's functions and the rule file's `DeltaUpdate`, so its
steps change the very tables and text the other modules speak about, and each of its steps is one journal transaction
or none. It lets a new operation be submitted only while none is open; `ApplySystem` runs the worker and the protocol
together and proves that the worker submits only then, so every run of the system is a run of the protocol. An
executor's history variable is such a run too, so `ApplySafety`, `ApplyOutcome` and `ApplyFailures` hold of it.

## What turned out to be false of the code

* A drain does not always make the worker ready again. When a submission that runs before the queued drain turns
  partial, the drain still serves the wake, but the worker stays in recovery until it is woken once more
  (`OvertakenWakeStaysInRecovery`). A drain restores readiness exactly when no partial or deferred outcome came since
  the last wake (`DrainRestoresReadiness`).
* A settings change whose suspension is rejected notes no recovery, so a wanted runtime can stay off
  (`RejectedSuspensionIsForgotten`); `WantedRuntimeIsEnabledOrRecovers` gives the exact condition.
* A retry after the rename does not always finalize. Rejecting a candidate looks at no unfinished operation, so after a
  crash between rename and finalize every retry is refused at the commit, with the rule published and the operation
  still prepared (`RejectionBetweenRenameAndFinalize`), for as long as the candidate is not ready again
  (`StrandedUntilReady`). A retry finalizes exactly when the clock is valid, the candidate is still authorized and no
  automatic rule would replace a manual one (`RetryFinalizes`), and an undisturbed execution completes exactly under
  such guards (`CompletesIff`).
* A node can be probed twice within one check interval when it was out of view for the ten minutes after which its
  memory is dropped. It cannot in any run of polls if and only if the longest interval, together with the delay between
  a snapshot and its tick, is at most the grace period and one millisecond (`NoEarlyRepeat`).
* Finalize and abort compare no clocks: the row constraints hold afterwards exactly under the conditions of
  `WrittenChecks` and `AbortedChecks`.

## Model

| member | source | states |
|---|---|---|
| SpacedEvidence.EvaluateSpacedEvidence | packages/server/src/modules/domain-intelligence/decision.ts:288-329 | For attempts in any order and any positive spacing: the first count is the size of a largest sub-collection whose members are pairwise that far apart, the second the size of a largest such sub-collection holding two distinct known addresses, or 0 |
| SpacedEvidence.StatesEndingAt | packages/server/src/modules/domain-intelligence/decision.ts:300-315 | The table of one attempt holds, for every diversity state, exactly the longest spaced run ending at that attempt |
| SpacedEvidence.RaiseMaxima | packages/server/src/modules/domain-intelligence/decision.ts:316-324 | Folding one attempt's table into the maxima keeps them the longest plain and diverse runs seen so far |
| SpacedEvidence.RunIsChoice | packages/server/src/modules/domain-intelligence/decision.ts:288-329 | Every run of the dynamic program is a spaced sub-collection with the diversity the state claims |
| SpacedEvidence.ChoiceIsRun | packages/server/src/modules/domain-intelligence/decision.ts:288-329 | Every spaced sub-collection is a run of the dynamic program ending at its latest member |
| SpacedEvidence.StateIsUnique | packages/server/src/modules/domain-intelligence/decision.ts:276-286 | A collection has exactly one diversity state, so the order in which its addresses are added does not matter |
| Decision.DecideCandidate | packages/server/src/modules/domain-intelligence/decision.ts:346-461 | Inadmissible evidence gives the invalid-evidence decision; otherwise a reason is listed exactly when its condition applies, reasons are ranked, the summary counts what was seen, confirmation is equivalent to a declarative witness condition, and the result meets the shared report contract |
| Decision.WitnessesAgree | packages/server/src/modules/domain-intelligence/decision.ts:401-434 | The counts of the dynamic program offer enough spaced (and, when required, diverse) failures exactly when some witness collection of in-window direct failures does |
| Decision.NoReasonIffNoObjection | packages/server/src/modules/domain-intelligence/decision.ts:383-461 | The list of reasons is empty exactly when no condition of the policy objects |
| Decision.ConfirmsIffNoObjection | packages/server/src/modules/domain-intelligence/decision.ts:383-461 | Absence of objections is exactly the existence of the witnesses a confirmation promises, enough proxy successes, and no bad proxy attempt |
| Decision.ConfirmedMeetsContract | packages/shared/src/domain-intelligence.ts:424-516 | A decision built from ranked reasons and a fitting summary satisfies every rule of the decision schema |
| DecisionFacts.ConfirmableIff | packages/server/src/modules/domain-intelligence/decision.ts:346-461 | Admissible evidence confirms exactly when it is healthy, seen often enough, uncovered and up to date, its failures in transport inside the window and at hosts of the candidate contain enough spaced ones on two addresses where there was a choice, and its proxy attempts in the window are enough and all good |
| DecisionFacts.CountsIff | packages/server/src/modules/domain-intelligence/decision.ts:394-400 | A direct attempt counts exactly when it failed before any HTTP answer, within the window, at a final origin that is a host of the candidate; a failure at a foreign origin does not |
| DecisionFacts.ProxyReasonsIff | packages/server/src/modules/domain-intelligence/decision.ts:395-449 | The proxy is unstable exactly by a transport failure inside the window, and uncertain exactly by an attempt there that is neither a transport failure nor an HTTP response |
| DecisionFacts.DiversityReasonIff | packages/server/src/modules/domain-intelligence/decision.ts:401-455 | Address diversity is missing exactly when an attempt that counts had a choice of addresses and no large enough spaced collection shows two |
| DecisionFacts.HostIff | packages/server/src/modules/domain-intelligence/decision.ts:201-209 | A host of the candidate is its own name, or for a site everything within the registrable site at a label boundary |
| DecisionFacts.AttemptIff | packages/server/src/modules/domain-intelligence/decision.ts:211-260 | An attempt is taken exactly when identifier, times, counts, origin, address and status fit its category, and then with its canonical address and final host |
| DecisionFacts.CoverageIff | packages/server/src/modules/domain-intelligence/decision.ts:262-274 | A coverage result is accepted exactly when its match, if any, fits the host: equal, within at a label boundary, or containing the keyword |
| DecisionFacts.StatusIff | packages/server/src/modules/domain-intelligence/decision.ts:133-146 | Confirmed without reasons, pending exactly when further observation can remove every reason, blocked otherwise |
| ProtobufWire.VarintRoundTrip | packages/server/src/modules/domain-intelligence/geosite.ts:63-76 | Reading the Base 128 Varint encoding of any safe value gives the value and ends right behind it (Protocol Buffers Encoding, section "Base 128 Varints") |
| ProtobufWire.FieldsRoundTrip | packages/server/src/modules/domain-intelligence/geosite.ts:104-122 | Reading the encoding of any list of encodable fields gives the list back (sections "Message Structure" and "Length-Delimited Records") |
| ProtobufWire.ReadVarint | packages/server/src/modules/domain-intelligence/geosite.ts:63-76 | On any buffer: terminates in bounds and returns exactly what the wire format assigns, failing past ten bytes or above the safe integers |
| ProtobufWire.SkipField | packages/server/src/modules/domain-intelligence/geosite.ts:104-114 | Moves the cursor behind exactly one field of the given wire type, or fails |
| ProtobufWire.ReadKey | packages/server/src/modules/domain-intelligence/geosite.ts:116-122 | Returns field number and wire type of the key at the cursor, refusing field number 0 |
| Geosite.ReadSiteRules | packages/server/src/modules/domain-intelligence/geosite.ts:232-270 | Both passes over a site agree with the site's parsed entries within the remaining entry budget |
| Geosite.ReadDomainRule | packages/server/src/modules/domain-intelligence/geosite.ts:204-230 | One entry gives its rule exactly when it has a supported kind, a normal value and no attribute |
| Geosite.BoundActiveSelectors | packages/server/src/modules/domain-intelligence/geosite.ts:50-61 | The first 64 distinct non-empty normalized selectors, in order |
| Geosite.DecodeActiveGeositeCategories | packages/server/src/modules/domain-intelligence/geosite.ts:272-317 | The two-pass decoder computes the reference decoding of any byte string |
| GeositeTheorems.LookupExact | packages/server/src/modules/domain-intelligence/geosite.ts:285-317 | A selector is answered with rules exactly when it has no @, exactly one site has its code, and every entry of that site is supported |
| GeositeTheorems.FailClosed | packages/server/src/modules/domain-intelligence/geosite.ts:272-317 | Any wire error anywhere, empty or oversized input leaves every selector unanswered |
| GeositeTheorems.ListRoundTrip | packages/server/src/modules/domain-intelligence/geosite.ts:183-317 | Parsing the encoding of any in-budget site list gives the meaning of that list |
| GeositeTheorems.DecodeInvertsEncode | packages/server/src/modules/domain-intelligence/geosite.ts:272-317 | Decoding an encoded in-budget list gives a bounded selector the rules of its single fully supported site, and nothing otherwise |
| GeositeTheorems.DecodeAnswersWhatWasEncoded | packages/server/src/modules/domain-intelligence/geosite.ts:183-317 | The same in terms of the encoded types and bytes alone: type 0 gives a keyword rule, 2 a suffix rule, 3 an exact rule, in their order, for the one site of that name whose entries all read as a rule |
| GeositeTheorems.BoundedIff | packages/server/src/modules/domain-intelligence/geosite.ts:50-61 | A name is answered exactly when some selector normalizes to it before which fewer than 64 distinct names were asked for |
| RuleText.CountOccurrences | packages/server/src/modules/domain-intelligence/rule-store.ts:122-131 | Counts non-overlapping occurrences scanned from the left |
| RuleText.ValidateDomainRules | packages/server/src/modules/domain-intelligence/rule-store.ts:170-182 | Accepts exactly the lists within the limit whose rules all pass and are pairwise distinct |
| RuleText.ValidateCompleteRuleList | packages/server/src/modules/domain-intelligence/rule-store.ts:184-207 | Accepts exactly the files within the size limit with good markers, no stray carriage return and valid rules, and returns their number |
| RuleText.ApplyDelta | packages/server/src/modules/domain-intelligence/rule-store.ts:487-492 | The set of managed rules, deletes then upserts, rewritten into the block |
| RuleTextTheorems.SoleOccurrence | packages/server/src/modules/domain-intelligence/rule-store.ts:141-155 | A marker that occurs at most once is found wherever it occurs: occurrences cannot overlap |
| RuleTextTheorems.UpdateThenParse | packages/server/src/modules/domain-intelligence/rule-store.ts:209-252 | Parsing what an update wrote gives exactly the sorted rules |
| RuleTextTheorems.UpdateKeepsOutside | packages/server/src/modules/domain-intelligence/rule-store.ts:226-252 | The text before and after the block is the same before and after an update |
| RuleTextTheorems.OutsideOfFile | packages/server/src/modules/domain-intelligence/rule-store.ts:233-249 | The kept text is the file around its block, up to one line terminator |
| RuleTextTheorems.UpdateDependsOnSetOnly | packages/server/src/modules/domain-intelligence/rule-store.ts:226-252 | Two valid lists of the same rules lead to the same update |
| RuleTextTheorems.UpdateIsIdempotent | packages/server/src/modules/domain-intelligence/rule-store.ts:226-252 | Writing the same set of rules again reports no change |
| RuleTextTheorems.DeltaThenParse | packages/server/src/modules/domain-intelligence/rule-store.ts:487-492 | After an accepted delta the file parses to the old rules without the deletes and with the upserts |
| RuleTextTheorems.DeltaIsIdempotent | packages/server/src/modules/domain-intelligence/rule-store.ts:487-492 | Applying an accepted delta to its own result reports no change |
| RuleTextTheorems.DeltaOrderIsImmaterial | packages/server/src/modules/domain-intelligence/rule-store.ts:487-492 | Deltas with the same deletes and upserts lead to the same file, in whatever order they list them |
| RuleTextAcceptance.UpdateSucceedsIff | packages/server/src/modules/domain-intelligence/rule-store.ts:226-252 | An update of an acceptable file succeeds exactly when the new rules are valid, hide no marker, repeat no rule outside the block, and number and size fit |
| RuleTextAcceptance.MarkersIff | packages/server/src/modules/domain-intelligence/rule-store.ts:133-155 | Markers are accepted exactly when there are none, or each occurs once, on a line of its own, the beginning first |
| RuleTextAcceptance.BlockIsMarkedIff | packages/server/src/modules/domain-intelligence/rule-store.ts:231-250 | A printed block is well marked exactly when no rule in it contains a marker |
| RuleTextAcceptance.OutsideIsValid | packages/server/src/modules/domain-intelligence/rule-store.ts:184-207 | What an acceptable file holds outside its block is acceptable by itself |
| RuleTextAcceptance.SortedAscends | packages/server/src/modules/domain-intelligence/rule-store.ts:231-232 | Of two rules in the block, the earlier one is the smaller where they first differ, or a beginning of the other |
| RuleTextAcceptance.BytesOfChar | packages/server/src/modules/domain-intelligence/rule-store.ts:184-187 | The size limit counts bytes of UTF-8: one to four for each character, by the ranges of RFC 3629, section 3 |
| JournalStore.Tables.PrepareDomainRuleOperation | packages/server/src/modules/domain-intelligence/apply-journal.ts:343-558 | Insert or recognise an operation, on the mutable tables; `PrepareCreatesIff`, `CreatedRow` and `PrepareReturnsIff` say exactly when and with which row |
| JournalStore.Tables.FinalizeDomainRuleWrite | packages/server/src/modules/domain-intelligence/apply-journal.ts:639-805 | Commit a written operation: digest and revision checks, budget, ownership rows, candidate and decision |
| JournalStore.Tables.ApplyDelta | packages/server/src/modules/domain-intelligence/apply-journal.ts:703-731 | Deletes then upserts on the ownership table, keeping the creation time of replaced rows |
| JournalStore.Tables.BeginDomainRuleActivation | packages/server/src/modules/domain-intelligence/apply-journal.ts:807-861 | Begin or resume an activation attempt |
| JournalStore.Tables.CompleteDomainRuleActivation | packages/server/src/modules/domain-intelligence/apply-journal.ts:863-923 | Record the outcome of the current attempt |
| JournalStore.Tables.MarkReconciliationRequired | packages/server/src/modules/domain-intelligence/apply-journal.ts:925-965 | Stop an unfinished operation for reconciliation |
| JournalStore.Tables.AbortPreparedOperation | packages/server/src/modules/domain-intelligence/apply-journal.ts:985-1031 | Abort a prepared operation and release its slot |
| JournalTheorems.NewOperationChecks | packages/server/src/db/schema.ts:614-636 | A fresh row satisfies the CHECK constraints |
| JournalTheorems.WrittenChecks | packages/server/src/db/schema.ts:614-636 | Finalizing keeps the constraints exactly when the clock is not before the row's creation |
| JournalTheorems.BegunChecks | packages/server/src/db/schema.ts:618-636 | Beginning an attempt keeps the constraints exactly while fewer than 1,000,000 attempts were made |
| JournalTheorems.EndedChecks | packages/server/src/db/schema.ts:618-636 | Completing an attempt keeps the constraints |
| JournalTheorems.MarkedChecks | packages/server/src/db/schema.ts:614-636 | Marking for reconciliation keeps the constraints |
| JournalTheorems.AbortedChecks | packages/server/src/db/schema.ts:614-636 | Aborting keeps the constraints exactly when the clock is not before the row's creation |
| JournalTheorems.EventRows | packages/server/src/modules/domain-intelligence/apply-journal.ts:343-1031 | Every transaction leaves the rows alone, inserts one prepared row, or moves one row in one of five ways |
| JournalTheorems.EventKeepsJournal | packages/server/src/modules/domain-intelligence/apply-journal.ts:343-1031 | Every transaction keeps keys, constraints, one unfinished operation per candidate, and the budget |
| JournalTheorems.RunKeepsJournal | packages/server/src/db/schema.ts:614-636 | Every run with a non-decreasing clock keeps them, of any length and with any number of attempts |
| JournalTheorems.RunEvolves | packages/server/src/modules/domain-intelligence/apply-journal.ts:343-1031 | Over every run intent and written result never change once set, attempts only grow, phases follow their graph, and completed, aborted and reconciliation-required rows are frozen |
| JournalTheorems.EventKeepsSoleUnfinished | packages/server/src/modules/domain-intelligence/apply-journal.ts:373-423 | A candidate never has two unfinished operations |
| JournalTheorems.EventKeepsBudgets | packages/server/src/modules/domain-intelligence/apply-journal.ts:490-524 | Every day's reserved slots are its operations still holding one, its consumed slots those with a written revision, and together they are at most three |
| JournalTheorems.AtMostThreeAutomaticRulesPerDay | packages/server/src/modules/domain-intelligence/apply-journal.ts:490-524 | In every reachable state a day has at most three automatic operations written or still able to be |
| JournalTheorems.ReservationNeverMissing | packages/server/src/modules/domain-intelligence/apply-journal.ts:684-701 | The "reservation is missing" errors of finalize and abort are unreachable |
| JournalTheorems.StaleCompletionRefused | packages/server/src/modules/domain-intelligence/apply-journal.ts:863-923 | A completion for another attempt than the current one is an error and changes nothing |
| JournalTheorems.RetrySupersedesEarlierAttempts | packages/server/src/modules/domain-intelligence/apply-journal.ts:807-861 | A retry takes a larger attempt number, which makes all completions of earlier attempts stale |
| JournalTheorems.StaleForEver | packages/server/src/modules/domain-intelligence/apply-journal.ts:863-923 | And they stay refused in every later state |
| JournalTheorems.OwnershipKeys | packages/server/src/modules/domain-intelligence/apply-journal.ts:703-731 | The owned rules after a commit are the old ones without the deletes and with the upserts |
| JournalTheorems.CommittedRow | packages/server/src/modules/domain-intelligence/apply-journal.ts:706-731 | The row a commit writes for a rule: the delta's owner, the operation, the revision, and the creation time of the row it replaces |
| JournalTheorems.AutomaticKeepsManual | packages/server/src/modules/domain-intelligence/apply-journal.ts:669-682 | An automatic operation never changes a manually owned rule |
| JournalTheorems.OwnershipChangesOnCommit | packages/server/src/modules/domain-intelligence/apply-journal.ts:639-805 | Ownership changes only by the commit of a prepared operation |
| JournalTheorems.AppliedCandidateIsBlocked | packages/server/src/modules/domain-intelligence/apply-journal.ts:733-788 | Committing blocks the candidate: nothing can be prepared for it until it is confirmed again |
| JournalTheorems.OwnershipIgnoresOrder | packages/server/src/modules/domain-intelligence/apply-journal.ts:62-65 | Committing writes the same ownership rows in whatever order a valid delta lists its entries |
| JournalGuards.PrepareCreatesIff | packages/server/src/modules/domain-intelligence/apply-journal.ts:343-558 | A new row enters exactly when its key and identifier are new, nothing needs reconciling, the candidate is confirmed, free and not leased, no manual rule is replaced, and for an automatic operation the consent is current and the day's held and spent slots, counted in the tables, are below the configured limit; a rollback needs a written revision |
| JournalGuards.CreatedRow | packages/server/src/modules/domain-intelligence/apply-journal.ts:492-557 | The row that enters: the request, prepared, with the active consent and the current day for an automatic operation |
| JournalGuards.PrepareReturnsIff | packages/server/src/modules/domain-intelligence/apply-journal.ts:439-461 | A known key is answered with its row, and nothing changes, exactly when the request is the same and a prepared row is still allowed |
| JournalGuards.LatestIsNewest | packages/server/src/modules/domain-intelligence/apply-journal.ts:739-744 | The decision that is read is the maximum over the candidate's rows: the latest one, and of several at one time the last by identifier |
| JournalGuards.CommitAuthorizedIff | packages/server/src/modules/domain-intelligence/apply-journal.ts:733-755 | A commit for a candidate is authorized exactly when the candidate stands and its newest decision confirms the rule |
| JournalGuards.FinalizeIff | packages/server/src/modules/domain-intelligence/apply-journal.ts:639-805 | Finalizing takes effect exactly on a prepared operation with the intended digest at a new revision that the tables still allow, and answers a repetition exactly when it says what the row says |
| JournalGuards.FinalizedTables | packages/server/src/modules/domain-intelligence/apply-journal.ts:733-804 | What finalizing writes besides ownership: the committed row, the blocked candidate, and one decision more, which does not confirm it |
| JournalGuards.BeginIff | packages/server/src/modules/domain-intelligence/apply-journal.ts:807-861 | An attempt begins exactly from a committed or partial row; a running or completed one is reported unchanged |
| JournalGuards.CompleteIff | packages/server/src/modules/domain-intelligence/apply-journal.ts:863-923 | Only the running attempt completes, once; a repetition is answered exactly when the row says the same outcome |
| JournalGuards.MarkIff | packages/server/src/modules/domain-intelligence/apply-journal.ts:925-965 | Marking stops exactly the operations that are not closed |
| JournalGuards.AbortIff | packages/server/src/modules/domain-intelligence/apply-journal.ts:967-1031 | Aborting takes effect exactly on a prepared operation with the attested intent, and gives its slot back on its day |
| JournalGuards.CoversIff | packages/server/src/modules/domain-intelligence/apply-journal.ts:70-74 | A suffix rule covers its domain and what is below it at a label boundary, any other rule only itself |
| ApplyExecutor.Executor.ExecuteDomainRuleOperation | packages/server/src/modules/domain-intelligence/apply-operation.ts:285-534 | A veto leaves the file as it is; with dependencies that neither fail nor abort and a clear disk, an open operation ends as the table of cases says, and the phase returned is the expected one: aborted for a veto, completed or partial for an activation, an error otherwise |
| ApplyExecutor.Executor.ApplyPrepared | packages/server/src/modules/domain-intelligence/apply-operation.ts:314-424 | Attest, write or abort, then finalize, one protocol step at each call of a dependency; a vetoed operation is aborted and the file stays as it is |
| ApplyExecutor.Executor.PreflightPrepared | packages/server/src/modules/domain-intelligence/apply-operation.ts:351-358 | The preflight and the authorization of an automatic operation: a veto never goes on to the write |
| ApplyExecutor.Executor.AbortVetoed | packages/server/src/modules/domain-intelligence/apply-operation.ts:358-392 | After a veto the operation is aborted and aborted is returned, or an error; the file stays |
| ApplyExecutor.Executor.CommitPrepared | packages/server/src/modules/domain-intelligence/rule-store.ts:558-602 | The commit session: lock, compare the source, apply the delta, temporary file, rename, re-read, release |
| ApplyExecutor.Executor.WithStoreLock | packages/server/src/modules/domain-intelligence/rule-store.ts:353-375 | A session under the store lock: an existing lock makes it unavailable, a leftover temporary file or a lost lock requires reconciliation |
| ApplyExecutor.Executor.ActivateWritten | packages/server/src/modules/domain-intelligence/apply-operation.ts:426-534 | Begin an attempt, re-attest, activate, re-attest, complete |
| ApplyExecutor.RunAppend | packages/server/src/modules/domain-intelligence/apply-operation.ts:285-534 | The executor's history can be extended step by step |
| ApplyExecutor.ExecutorIsSafe | packages/server/src/modules/domain-intelligence/apply-operation.ts:285-534 | Every state an executor can be in satisfies the protocol's invariant |
| ApplySafety.StepKeeps | packages/server/src/modules/domain-intelligence/apply-operation.ts:285-534 | Every step of the protocol keeps the invariant: file sessions that fail anywhere, a crash between any two steps, an operator clearing leftovers, changed settings |
| ApplySafety.PublishedAtMostOnce | packages/server/src/modules/domain-intelligence/apply-operation.ts:314-424 | In every run the file goes from an operation's source to its intended content at most once |
| ApplySafety.JournaledAsIntended | packages/server/src/modules/domain-intelligence/apply-operation.ts:135-151 | A journaled revision and digest are those of the intended content, and that content was published exactly once |
| ApplySafety.FileAndOwnershipAgree | packages/server/src/modules/domain-intelligence/apply-journal.ts:365-372 | File and ownership table agree when nothing is prepared or waiting for reconciliation; otherwise there is one such operation and they differ by at most its delta |
| ApplySafety.FileChangesByRename | packages/server/src/modules/domain-intelligence/rule-store.ts:558-602 | Only a rename changes the file, from the source of the running operation to its intent, which was not published before |
| ApplySafety.AbortedNeverPublished | packages/server/src/modules/domain-intelligence/apply-operation.ts:345-391 | An aborted operation's content was never published |
| ApplySafety.RetryFindsItsContent | packages/server/src/modules/domain-intelligence/apply-operation.ts:318-344 | A retry that finds its content published goes to the finalizing transaction without a second write |
| ApplySafety.WritersHaveNotPublished | packages/server/src/modules/domain-intelligence/apply-operation.ts:392-411 | No execution that is about to write has its content in the file already |
| ApplySafety.SessionsAgree | packages/server/src/modules/domain-intelligence/rule-store.ts:558-662 | Every comparison of the file with the journal that an execution makes succeeds |
| ApplySafety.ReconciliationOnlyFromDisk | packages/server/src/modules/domain-intelligence/apply-operation.ts:318-411 | An operation needs reconciliation only after a leftover temporary file or a lost lock |
| ApplySafety.ManagedIntent | packages/server/src/modules/domain-intelligence/rule-store.ts:487-492 | The intended file holds the rules of the source without the deletes and with the upserts |
| ApplyJournal.StepTransacts | packages/server/src/modules/domain-intelligence/apply-operation.ts:285-534 | Every step of the protocol is one journal transaction at the current time, or leaves the tables alone |
| ApplyJournal.RunKeepsSound | packages/server/src/db/schema.ts:614-636 | Over every run of the protocol the row constraints, the sole unfinished operation per candidate and the budget hold |
| ApplyJournal.FinalizesIff | packages/server/src/modules/domain-intelligence/apply-journal.ts:639-805 | In every reachable state the finalizing transaction succeeds exactly when the clock is valid, the candidate is authorized and no automatic rule replaces a manual one; digest, revision, phase and reservation always agree |
| ApplyJournal.RetryFinalizes | packages/server/src/modules/domain-intelligence/apply-operation.ts:318-344 | A retry after the rename never writes again; it commits the intended revision, digest and ownership exactly under these guards, and otherwise changes nothing |
| ApplyRecovery.RecoveryCompletes | packages/server/src/modules/domain-intelligence/apply-operation.ts:285-534 | From every reachable state with an open operation and a clear disk, under the guards of the journal, one undisturbed execution ends completed within 13 steps, published once, with file and ownership in agreement |
| ApplyOutcome.ExecutionEndsAs | packages/server/src/modules/domain-intelligence/apply-operation.ts:285-534 | From every reachable state with an open operation and a clear disk, an execution in which no call fails ends within 13 steps as a table over row, tables, file and answers says: untouched, aborted unpublished with its slot given back when vetoed, published only when the commit is refused, or applied, published once and owned, with the outcome of the activation |
| ApplyOutcome.EndsVetoed | packages/server/src/modules/domain-intelligence/apply-operation.ts:347-392 | An operation whose source is in the file and which the deployment, a manual rule or a withdrawn consent vetoes ends aborted, with file and publications as they were |
| ApplyOutcome.CompletesIff | packages/server/src/modules/domain-intelligence/apply-operation.ts:285-534 | An undisturbed execution completes, in any number of steps, if and only if the guards hold |
| ApplyFailures.StoppedPublishesNothing | packages/server/src/modules/domain-intelligence/apply-operation.ts:311-413 | An execution that is vetoed, refused or fails before its rename publishes nothing in any later run until another execution starts |
| ApplyFailures.MarksIff | packages/server/src/modules/domain-intelligence/apply-operation.ts:274-412 | A session of an execution marks its operation for reconciliation exactly when it finds a leftover temporary file or loses its lock |
| ApplyFailures.FailedCheckEndsPartial | packages/server/src/modules/domain-intelligence/apply-operation.ts:426-534 | An attempt whose written file cannot be attested ends partial, as shutdown when interrupted and as a materialization failure otherwise, whatever the activation said |
| ApplyStranding.StrandedUntilReady | packages/server/src/modules/domain-intelligence/apply-journal.ts:733-757 | Whatever is retried or crashes, a published operation whose candidate is not ready is never finalized before the candidate is ready again |
| ApplyRejection.RejectionBetweenRenameAndFinalize | packages/server/src/modules/domain-intelligence/service.ts:828-846 | The failing input: a run from an empty journal in which a candidate is rejected between rename and finalize, and the published rule is in no table |
| ApplyRecovery.WritesFromSource | packages/server/src/modules/domain-intelligence/apply-operation.ts:314-411 | From the attested source, six undisturbed steps publish the intent |
| ApplyRecovery.NoneOpenAfter | packages/server/src/modules/domain-intelligence/apply-journal.ts:1034-1043 | Completing the one open operation leaves none open |
| WorkerTheorems.StepKeeps | packages/server/src/modules/domain-intelligence/apply-worker.ts:56-284 | Every call and every stretch between awaits keeps the worker's invariant |
| WorkerTheorems.ReadyMeansNothingUnfinished | packages/server/src/modules/domain-intelligence/apply-worker.ts:56-125 | In every run a ready worker with nothing running has only completed or aborted operations |
| WorkerTheorems.PreparesOnlyWhenClosed | packages/server/src/modules/domain-intelligence/apply-worker.ts:108-125 | A new operation is prepared only while every other one is closed |
| WorkerTheorems.TasksAreSerial | packages/server/src/modules/domain-intelligence/apply-worker.ts:196-202 | Tasks begin in the order they were enqueued and none is lost |
| WorkerTheorems.BeginsOneAtATime | packages/server/src/modules/domain-intelligence/apply-worker.ts:192-202 | A task begins only when nothing runs, and it is the oldest one |
| WorkerTheorems.FencedSubmissionNeverPrepares | packages/server/src/modules/domain-intelligence/apply-worker.ts:108-125 | A submission admitted before a partial or deferred outcome, and still queued then, never prepares in any later run |
| WorkerTheorems.WakesAreServed | packages/server/src/modules/domain-intelligence/apply-worker.ts:92-101 | A worker at rest has begun a snapshot after every wake it accepted, unless it was aborted by a failure or a stop, or was disabled since |
| WorkerTheorems.DrainRestoresReadiness | packages/server/src/modules/domain-intelligence/apply-worker.ts:231-260 | A drain that ends makes the worker ready exactly when no partial or deferred outcome came since the last wake |
| WorkerTheorems.OvertakenWakeStaysInRecovery | packages/server/src/modules/domain-intelligence/apply-worker.ts:231-252 | The failing case as a concrete run: a wake queued behind a submission that turns partial is served, everything is closed, yet the worker stays in recovery |
| WorkerCalls.WakeTakesEffect | packages/server/src/modules/domain-intelligence/apply-worker.ts:92-101 | A wake of an enabled worker that is ready, recovering or in need of recovery is remembered, makes it recover, and has a drain queued or running; any other changes nothing |
| WorkerCalls.WakeLeadsToSnapshot | packages/server/src/modules/domain-intelligence/apply-worker.ts:92-101 | In every run, after such a wake a worker at rest has read the journal, unless it was aborted or disabled after it; told from the events alone |
| WorkerCalls.ReadyMeansNoWakePending | packages/server/src/modules/domain-intelligence/apply-worker.ts:92-117 | In every run, a worker that admits submissions has no wake pending: no submission overtakes a durable wake |
| WorkerCalls.SnapshotExecutes | packages/server/src/modules/domain-intelligence/apply-worker.ts:153-189 | A snapshot executes what it lists, from the first on, unless the worker was aborted |
| WorkerCalls.StartLeadsToSnapshot | packages/server/src/modules/domain-intelligence/apply-worker.ts:56-83 | In every run, after the first start of an enabled worker a worker at rest has read the journal |
| WorkerCalls.SubmissionPrepares | packages/server/src/modules/domain-intelligence/apply-worker.ts:108-125 | A submission whose turn comes prepares exactly when nothing was aborted, disabled or fenced since it was admitted |
| WorkerCalls.PreparedIsExecuted | packages/server/src/modules/domain-intelligence/apply-worker.ts:108-125 | What was prepared is executed next, unless the worker was aborted meanwhile |
| WorkerCalls.FenceTakesEffect | packages/server/src/modules/domain-intelligence/apply-worker.ts:153-220 | A partial or deferred execution fences every submission admitted so far and requires recovery |
| WorkerCalls.AbortedStartsNothing | packages/server/src/modules/domain-intelligence/apply-worker.ts:143-202 | Over every run, an aborted worker prepares nothing and executes nothing but what it is executing |
| ApplySystem.PreparesWhenNoneOpen | packages/server/src/modules/domain-intelligence/apply-worker.ts:108-118 | In the composed system the worker prepares only while no operation is open in the tables and none is executed |
| ApplySystem.SystemStepKeeps | packages/server/src/modules/domain-intelligence/apply-worker.ts:56-260 | Every step of worker, protocol and environment, crashes included, keeps both invariants and what the worker knows of the journal |
| ApplySystem.SystemRefinesProtocol | packages/server/src/modules/domain-intelligence/apply-worker.ts:108-190 | Every run of worker and protocol together is a run of the protocol, so all its theorems hold of the system |
| ApplySystem.ReadyMeansInStep | packages/server/src/modules/domain-intelligence/apply-worker.ts:92-125 | In every run of the system, a ready worker with nothing running means that no operation is open and the file holds exactly the owned rules |
| WorkerObject.DomainRuleApplyWorker.Start | packages/server/src/modules/domain-intelligence/apply-worker.ts:56-83 | Start once: recover, or stay disabled; the fields change as the model says and the invariant holds |
| WorkerObject.DomainRuleApplyWorker.WakeUp | packages/server/src/modules/domain-intelligence/apply-worker.ts:92-101 | Coalesced wake; the fields change as the model says, the invariant holds, and an accepted wake leaves the worker recovering with a drain on its way |
| WorkerObject.DomainRuleApplyWorker.SubmitWork | packages/server/src/modules/domain-intelligence/apply-worker.ts:108-117 | Admission under the current epoch; the fields change as the model says and the invariant holds |
| WorkerObject.DomainRuleApplyWorker.RequestStop | packages/server/src/modules/domain-intelligence/apply-worker.ts:143-151 | Stop and abort; the fields change as the model says and the invariant holds |
| WorkerObject.DomainRuleApplyWorker.BeginNext | packages/server/src/modules/domain-intelligence/apply-worker.ts:108-125 | The first stretch of the next task; the fields change as the model says and the invariant holds |
| WorkerObject.DomainRuleApplyWorker.TimerBoundary | packages/server/src/modules/domain-intelligence/apply-worker.ts:234-252 | The drain behind its timer boundary; the fields change as the model says and the invariant holds |
| WorkerObject.DomainRuleApplyWorker.ExecutionEnded | packages/server/src/modules/domain-intelligence/apply-worker.ts:153-190 | What an execution's outcome does to its task; the fields change as the model says and the invariant holds |
| WorkerObject.DomainRuleApplyWorker.Continuation | packages/server/src/modules/domain-intelligence/apply-worker.ts:253-260 | The continuation of a recovery or a drain; the fields change as the model says and the invariant holds |
| Provisioning.DomainRuleDeploymentProvisioner.ReserveCapabilityEpoch | packages/server/src/modules/domain-intelligence/provisioning.ts:114-117 | A fresh epoch in apply mode |
| Provisioning.DomainRuleDeploymentProvisioner.RevokeCapabilityIfCurrent | packages/server/src/modules/domain-intelligence/provisioning.ts:125-130 | Withdraws and advances the generation only for the current epoch |
| Provisioning.DomainRuleDeploymentProvisioner.PublishActivationProof | packages/server/src/modules/domain-intelligence/provisioning.ts:132-138 | Under the current epoch the generation advances, and the capability is ready and true is returned exactly for a safe count, else unavailable as provider-inactive; under any other epoch nothing changes |
| Provisioning.DomainRuleDeploymentProvisioner.BeginReconciliation | packages/server/src/modules/domain-intelligence/provisioning.ts:140-145 | Takes a fresh generation and withdraws the capability |
| Provisioning.DomainRuleDeploymentProvisioner.EndReconciliation | packages/server/src/modules/domain-intelligence/provisioning.ts:155-190 | While its generation is current the capability is ready for a safe count, unavailable for the reason otherwise; under any other generation nothing changes |
| DeploymentTheorems.StepKeeps | packages/server/src/modules/domain-intelligence/deployment-controller.ts:104-415 | Every interleaving of calls and resolutions keeps the fencing invariant |
| DeploymentTheorems.ReadyOnlyByFreshProof | packages/server/src/modules/domain-intelligence/provisioning.ts:110-191 | In every run the capability becomes ready only through a valid proof whose holder took its epoch at or after the last withdrawal |
| DeploymentTheorems.StaleHolderChangesNothing | packages/server/src/modules/domain-intelligence/deployment-controller.ts:374-415 | A holder whose epoch is not the current generation changes nothing of the capability |
| DeploymentTheorems.ActiveMeansProven | packages/server/src/modules/domain-intelligence/deployment-controller.ts:298-372 | In every run an active managed provider was proven under the current activation epoch, with the expected rule count when one was passed |
| DeploymentTheorems.StaleActivationChangesNothing | packages/server/src/modules/domain-intelligence/deployment-controller.ts:298-384 | Nothing that runs under an older activation epoch touches the provider's activity |
| DeploymentTheorems.EndVerifyingOk | packages/server/src/modules/domain-intelligence/deployment-controller.ts:343-372 | Verifying a proof keeps the invariant: publish, activate, or withdraw |
| DeploymentOutcomes.CoordinationMakesReady | packages/server/src/modules/domain-intelligence/deployment-controller.ts:194-229 | A coordinated apply that nothing interferes with ends with the capability ready and the managed provider active |
| DeploymentOutcomes.ReconciliationMakesReady | packages/server/src/modules/domain-intelligence/deployment-controller.ts:104-192 | So does a reconciliation, through its two queues, the provisioning and its own apply |
| DeploymentOutcomes.PublishesReadyIff | packages/server/src/modules/domain-intelligence/deployment-controller.ts:343-372 | In any interleaving, the end of a publishing verification makes the capability ready exactly when its holder has both newest epochs and the proof came without error or abort, with the expected and a safe count |
| DeploymentOutcomes.PublishedProofActivates | packages/server/src/modules/domain-intelligence/deployment-controller.ts:350-363 | The same proof makes the managed provider active |
| DeploymentOutcomes.UnpublishedProofActivatesIff | packages/server/src/modules/domain-intelligence/deployment-controller.ts:356-363 | A holder that does not publish activates the provider exactly under both newest epochs, and leaves the capability alone |
| DeploymentOutcomes.FailedProofWithdraws | packages/server/src/modules/domain-intelligence/deployment-controller.ts:364-371 | A failed verification, or another count than expected, takes provider and capability away from a current holder, and nothing from another |
| DeploymentOutcomes.FailedApplyWithdraws | packages/server/src/modules/domain-intelligence/deployment-controller.ts:317-345 | So does an apply without a target or that was not applied, each with its reason |
| DeploymentOutcomes.ReconciliationDecides | packages/server/src/modules/domain-intelligence/provisioning.ts:155-190 | The end of a reconciliation decides the capability by what its apply returned exactly while it holds its generation |
| DeploymentOutcomes.ThrownTransitionWithdraws | packages/server/src/modules/domain-intelligence/deployment-controller.ts:216-223 | An error of a coordinated apply withdraws the capability for its reason exactly while its transition holds the epoch |
| DeploymentCourses.PassedNeverProvisions | packages/server/src/modules/domain-intelligence/deployment-controller.ts:131-168 | In every run, a queued reconciliation that a newer generation, activation or capability epoch has passed never touches the store; before its apply it just ends, behind it it may at most apply the config without the store |
| DeploymentCourses.ReconciliationGoesOnIff | packages/server/src/modules/domain-intelligence/deployment-controller.ts:131-148 | A waiting reconciliation goes on exactly while it is the newest and not aborted, and otherwise ends without a trace |
| DeploymentCourses.ProvisionedAppliesIff | packages/server/src/modules/domain-intelligence/deployment-controller.ts:267-287 | A provisioned store is applied exactly by the reconciliation under way that still holds the capability's epoch |
| DeploymentCourses.FailedStoreIsRecovered | packages/server/src/modules/domain-intelligence/deployment-controller.ts:155-188 | A reconciliation whose store fails makes the capability unavailable for the store's reason, and applies the config without the store unless the store was in use before |
| DeploymentCourses.FailedStoreKeepsItsReason | packages/server/src/modules/domain-intelligence/deployment-controller.ts:298-310 | A coordinated apply over a failed store that was in use before changes no config and leaves the store's reason in place |
| DeploymentCourses.PlainApplyDeactivates | packages/server/src/modules/domain-intelligence/deployment-controller.ts:311-315 | An apply without the store takes the provider of a current holder away exactly when it was applied, and leaves the capability alone |
| DeploymentCourses.ErrorAfterProofWithdraws | packages/server/src/modules/domain-intelligence/deployment-controller.ts:194-229 | A coordinated apply whose proof made the capability ready, and around which an error follows, takes the capability back for its reason |
| DeploymentCourses.ProofKeepsHold | packages/server/src/modules/domain-intelligence/deployment-controller.ts:374-415 | The proof of the transition under way leaves it the holder of the capability it published |
| DeploymentCourses.CurrentApplyShares | packages/server/src/modules/domain-intelligence/deployment-controller.ts:239-255 | Applying the current config shares the epochs of a transition under way, and takes fresh ones of both kinds otherwise |
| DeploymentCourses.TransitionEnds | packages/server/src/modules/domain-intelligence/deployment-controller.ts:224-228 | A transition that ends is under way no more, and leaves another one that took its turn alone |
| Runtime.EnabledByNewest | packages/server/src/modules/domain-intelligence/runtime.ts:27-73 | In every run, when the last call enabled the runtime it came from the newest generation and nothing was stopped since |
| Runtime.WantedRuntimeIsEnabledOrRecovers | packages/server/src/modules/domain-intelligence/runtime.ts:90-206 | At rest with settings that want the runtime, it is enabled or a recovery is noted, exactly unless the newest job ended without reading the settings and no older enabling call failed late |
| Runtime.RejectedSuspensionIsForgotten | packages/server/src/modules/domain-intelligence/runtime.ts:90-102 | The failing case as a concrete run: a rejected suspension leaves the wanted runtime off and nothing retries |
| Runtime.StageKeepsInv | packages/server/src/modules/domain-intelligence/runtime.ts:90-206 | Every stretch of a job keeps what the coordinator remembers; a superseded job leaves no trace but a failed enabling call |
| RuntimeTheorems.EnablesIff | packages/server/src/modules/domain-intelligence/runtime.ts:177-206 | In every run, a step turns the runtime on if and only if it resolves the apply of the newest job, nothing was stopped, the config was applied and its activation verified by the replies so far, the settings are readable and want the runtime, and the route is ready |
| RuntimeTheorems.MemoryIsProof | packages/server/src/modules/domain-intelligence/runtime.ts:103-165 | What the coordinator remembers of the activation is what the replies of the whole run say of it |
| RuntimeTheorems.RecoveryIff | packages/server/src/modules/domain-intelligence/runtime.ts:121-206 | When the apply of the newest job resolves with readable settings, a recovery is noted exactly when the wanted runtime is not turned on; an external apply that proves nothing is forced once more |
| RuntimeTheorems.SupersededLeavesAlone | packages/server/src/modules/domain-intelligence/runtime.ts:177-206 | The apply of a job that is no longer the newest changes neither the last call nor the note |
| Runtime.DomainIntelligenceRuntimeCoordinator.FinishTransition | packages/server/src/modules/domain-intelligence/runtime.ts:177-206 | The end of a transition on the object, equal to the model whose enabling and recovery conditions `EnablesIff` and `RecoveryIff` state |
| Runtime.DomainIntelligenceRuntimeCoordinator.ExternalApplyEnded | packages/server/src/modules/domain-intelligence/runtime.ts:121-175 | The end of an external apply, with the forced re-apply |
| VpnPool.Search.HasNode | packages/server/src/modules/gateway/readiness.ts:249-263 | Terminates on every graph; true only with a path, false only when everything visited is exhausted |
| VpnPool.Search.EveryTargetHasNode | packages/server/src/modules/gateway/readiness.ts:249-269 | The check holds exactly when from every target a path through groups that do not list DIRECT leads to a known node |
| VpnPool.NoPathFrom | packages/server/src/modules/gateway/readiness.ts:249-263 | A failed search proves that there is no path |
| NodeProber.Prober.TickPulse | packages/server/src/live/prober.ts:93-130 | Probes the first stale names in rotation order, moves the cursor behind the last, and notes the attempts |
| NodeProber.Prober.ObserveSnapshot | packages/server/src/live/prober.ts:38-70 | Follows the snapshot: rotation, memory with its grace period, measurements |
| ProberTheorems.ObserveFollowsView | packages/server/src/live/prober.ts:50-53 | The rotation holds exactly the nodes in view, old ones first and in order, with the cursor in range |
| ProberTheorems.TickKeepsValid | packages/server/src/live/prober.ts:123 | A tick keeps the cursor in range and the list unchanged |
| ProberTheorems.TickIsBounded | packages/server/src/live/prober.ts:108-122 | A tick probes at most the cap, and only stale nodes of the rotation |
| ProberTheorems.BatchIsLeast | packages/server/src/live/prober.ts:108-111 | The batch is the least that sweeps the list within one interval, at least one and at most the cap |
| ProberTheorems.TakesFirstStale | packages/server/src/live/prober.ts:113-124 | A tick takes the first stale nodes from its cursor on: a stale node it leaves out is behind a full batch of them |
| ProberTheorems.MeasuredNodeIsStaleIff | packages/server/src/live/prober.ts:62-102 | A node that the snapshot shows measured is stale exactly when its measurement and its last attempt are both older than the interval |
| ProberTheorems.StaleNodeIsProbedWithinASweep | packages/server/src/live/prober.ts:93-130 | In the polling loop, over snapshots of the same nodes, a node that stays stale until picked is picked within ceil(N / b) ticks |
| ProberTheorems.SweepFitsInterval | packages/server/src/live/prober.ts:108-111 | Unless the cap binds, the pulses of one sweep fit in one check interval |
| ProberTheorems.NoEarlyRepeat | packages/server/src/live/prober.ts:93-130 | Over all runs of polls with a non-decreasing clock: no two attempts of a node lie within one check interval, if and only if interval and snapshot-to-tick delay fit in the grace period |
| ProberTheorems.AttemptsAreSpaced | packages/server/src/live/prober.ts:97-102 | The same from any rotation, with intervals and batches that may change from poll to poll |
| ProberTheorems.InViewIsNeverRepeated | packages/server/src/live/prober.ts:55-62 | A node that is in every snapshot is never probed again within its interval, whatever the interval |
| ProberTheorems.ForgottenAttemptIsRepeated | packages/server/src/live/prober.ts:55-62 | The failing family: for every longer interval, a run of three polls around an absence probes the node twice too early |
| OptimalController.ChannelController.TickOptimal | packages/server/src/modules/channels/controller.ts:270-397 | One tick: smoothing, best or target node, and the three ways to move |
| OptimalController.ChannelController.FindTarget | packages/server/src/modules/channels/controller.ts:325-339 | The best candidate other than the active one that answers on this tick, the first in view order among equals |
| OptimalController.ChannelController.Decide | packages/server/src/modules/channels/controller.ts:339-397 | Liveness failover, slow escape and proactive switch, in that order |
| OptimalTheorems.AveragesStayWithin | packages/server/src/modules/channels/controller.ts:282-295 | On every run success averages stay in [0, 1] and latency averages within the observed delays |
| OptimalTheorems.TickIsDetermined | packages/server/src/modules/channels/controller.ts:270-397 | State and view determine the decision and the next state: among equal scores the first in view order is taken |
| OptimalTheorems.MovesToAnsweringNode | packages/server/src/modules/channels/controller.ts:325-396 | Every move other than the initial pick goes to a candidate that answered on that tick and was not active |
| OptimalTheorems.InitialOnlyWithoutActive | packages/server/src/modules/channels/controller.ts:314-324 | The initial pick is made exactly when the active member is no candidate |
| OptimalTheorems.ConstantDelaysMoveAtMostOnce | packages/server/src/modules/channels/controller.ts:270-397 | After a reset constant delays lead to no move when nothing beats the active node by the margin, and to exactly one otherwise |
| OptimalTheorems.QuietStays | packages/server/src/modules/channels/controller.ts:339-396 | A node that no other beats by the margin is not left |
| OptimalDecisions.LeavesIff | packages/server/src/modules/channels/controller.ts:339-397 | A silent active node is left at once, one more than 35 percent slower than the target on its second slow tick, and otherwise exactly for a target whose score is at least ten percent better; without another answering node it stays |
| OptimalDecisions.LessReliableIsWorse | packages/server/src/modules/channels/controller.ts:297-309 | Of two nodes with one latency the less reliable scores worse, exactly while the other answers more than one time in twenty |
| OptimalDecisions.ScoreMeans | packages/server/src/modules/channels/controller.ts:297-310 | The score times the reliability is the latency; a node that never answered is never better than any |
| OptimalDecisions.SamplesApproach | packages/server/src/modules/channels/controller.ts:282-295 | Equal samples approach their value geometrically: after n of them a power of the rest of the distance is left |
| OptimalDecisions.MissesAgeSuccess | packages/server/src/modules/channels/controller.ts:290-295 | Misses age the success geometrically and leave the latency alone |
| ConfigApply.ConfigApplyStore.BeginConfigApply | packages/server/src/modules/nodes/config-apply-journal.ts:87-105 | Begins over nothing or over a pending journal, whose matching identity becomes the accepted one |
| ConfigApply.ConfigApplyStore.FinishConfigApply | packages/server/src/modules/nodes/config-apply-journal.ts:121-134 | Finishes a durable apply, or goes back to the previous journal |
| ConfigApply.ConfigApplyStore.ReadConfigApplyRecovery | packages/server/src/modules/nodes/config-apply-journal.ts:76-84 | The route of the identity the file has |
| ConfigApply.BeginsIff | packages/server/src/modules/nodes/config-apply-journal.ts:87-105 | An apply begins exactly over a file the pending journal, if any, answers for: its own path, and content it knows; it keeps that content's route and forgets the candidate |
| ConfigApply.RunKeeps | packages/server/src/modules/nodes/service.ts:344-552 | Every run of staged mutations, builds, candidates, renames, rollbacks, crashes and offline preparations stays recoverable |
| ConfigApply.RecoveryReturnsGeneratingRoute | packages/server/src/network-bootstrap.ts:110-183 | In every run recovery accepts the file and returns a route its content was generated under |
| ConfigApply.PublishedApplyFinishes | packages/server/src/modules/nodes/config-apply-journal.ts:121-134 | An apply that published its content finishes: "not durable" and "changed during activation" cannot occur |
| ConfigApply.RollbackRestores | packages/server/src/modules/nodes/service.ts:511-546 | In every run: a staging, any events that keep its attempt, and a rollback leave file, journal and route exactly as before the staging |
| Naming.DedupeNames | packages/server/src/modules/nodes/config.ts:46-63 | Each proxy keeps everything but its name, which changes to the first free suffix from 2 exactly when it is taken |
| Naming.FindFreeSuffix | packages/server/src/modules/nodes/config.ts:56-57 | The search for a free suffix terminates for every set of used names and finds the smallest |
| Naming.DedupedNamesAreUnique | packages/server/src/modules/nodes/config.ts:46-63 | New names are pairwise distinct and disjoint from the reserved names |
| Naming.NameIsKeptIffFree | packages/server/src/modules/nodes/config.ts:52-55 | A name is kept exactly when it is neither reserved nor given to an earlier proxy |
| Naming.DigitsAreInjective | packages/server/src/modules/nodes/config.ts:57 | Different numbers give different suffixes |
| Naming.GroupProxies | packages/server/src/modules/nodes/config.ts:19-38 | One entry for each name in order of first appearance, with that name's distinct profiles in order |
| Naming.EntriesFlattenToInput | packages/server/src/modules/nodes/config.ts:19-38 | Flattened, the entries are the input without its exact duplicates |
| Naming.EachNameHasOneEntry | packages/server/src/modules/nodes/config.ts:19-38 | Every proxy is in an entry, and no two entries share a name |

## Left out

- Executable proofs of the network side: probes, the resolver, the engine's REST interface, diagnostics and log redaction.
- The zod schemas apart from the decision contract, the settings bounds and the predicates of journal input that are modelled.
- File-system details: permissions, inode identity, links and fsync. Atomic rename, the lock file and leftover temporary files are kept as state.
- SQLite and Drizzle: tables are maps, a transaction is one step, and a row constraint is a predicate that is proved to hold rather than a runtime refusal. The one refusal that can happen, attempt 1,000,001, is an error of the transaction that begins the attempt.
- JournalStore.Tables.PrepareDomainRuleOperation: a stored delta keeps the order it was submitted in, where the source sorts its lists first. Deltas are compared without regard to order, and the order changes neither the file nor the ownership rows (`DeltaOrderIsImmaterial`, `OwnershipIgnoresOrder`).
- The deployment controller is modelled on values, not as an object: its methods suspend in the middle, and the step machine lets every suspended call interleave with every other. Returned apply results and error texts are not modelled.
- Order of the two coordinator queues in the deployment model: waiting calls resolve in any order, which includes the code's order.
- JournalStore.Tables.FinalizeDomainRuleWrite: all checks come before the first write, because SQLite would undo the writes of a transaction that throws.
- The identifier of an applied decision stands for its hash.
- The automatic consent revision is the preferences themselves instead of their fingerprint.
- Floating point: the varint reader is modelled on exact integers and the controller on reals. Rounding never turns an unsafe varint into a safe one.
- OptimalController.ChannelController.TickOptimal: reason texts, the decision log and the time of the last move are not modelled; no branch of this policy reads them.
- The sticky, manual and speed policies, channel packing, log replay and coverage matching, as easier members of the same kinds.
- NodeProber leaves out `fillLastKnown`, a pure overlay of the remembered delays on a view.
- Geosite file discovery and snapshot identity in `geosite.ts:319-523`.
- ConfigApply assumes that the default route changes only together with a staged apply and that rolling back a staged mutation restores it.
- Naming compares proxies by their name and the rest of their settings as one value, as deep equality does.
