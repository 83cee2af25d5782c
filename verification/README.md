# Dockyard control plane: a verified model

This project models the durable core of the AgentDesk / Dockyard scripts: the control-plane ledger with its
write-once evidence, the approval store that gates it, the evidence of dispatched worker processes and its recovery, the
canonical difficulty evidence, the registry of active executions, and agent routing.

How the model is laid out:

- `Approvals` (records, gate, writers), `ApprovalStore` (the loops and the store object), `ApprovalRuns` (all stores the
  writers can produce).
- `Ledger` (tasks, requests, the effect of the sixteen transitions), `Transition` (evidence, checks, plan, writes),
  `ControlPlane` (the service object), `History` (logs of commits), `ControlPlaneRuns`, `ControlPlaneSafety`,
  `ControlPlaneTheorems` (runs in which every call may be cut off after any file), `Replay`, `DedupeKeys`, `OwnerLoss`,
  `Deviations` (runs that depart from what is promised).
- Next to the operations stand the facts about them, in terms of stored records, literal states and written-out texts only:
  `StateGraph` and `Admission` (the control plane), `GateFacts` (approvals), `ReceiptHistory`, `RetryHistory`,
  `RegistryHistory`, `StoreHistory` (where everything in a store comes from), `LivenessFacts`, `RecoveryFacts`, `WalkFacts`,
  `ReplayFacts`, `PolicyFacts`, `RoutingFacts`, `EvidenceText`, `EventDocument`, `AcceptanceDocument`, `Calendar` (the
  texts).
- `Texts` (Python's string methods), `Events` (records of an event and the text of its file), `EventReader` (the line
  reader of event files), `EventLines`, `EventGuards`, `EventReading`, `EventRecovery`, `EventValues`, `EventTexts` (what it
  makes of a text), `EventFiles`, `EventDispatch` (what a recovery reads of all files), `GatedReplay` (what a replay reads,
  in terms of the request).
- `AcceptanceFiles` (the text of an acceptance record and its reader), `AcceptanceReading`, `AcceptanceRecords`,
  `Integrations` (what comes back, and what can be integrated).
- `Examples`: concrete systems for the deviations below.
- `DispatchReceipts`, `DispatchStore`, `RetryReceipts`, `Liveness`, `RecoveryWalk`.
- `Decimal`, `ScalarCodec`, `LineCodec`, `Difficulty`, `PolicyTable`, `EvidenceCodec`, `EvidenceCanonical`,
  `EvidenceEncoder`, `EvidenceErrors`, `EvidenceExample`, `AssessmentStore`.
- `ActiveExecution`, `Routing`, `Wrappers`.

Stores are maps from file names to records, and one atomic file replacement is one step. A call is given a budget: the
number of its file replacements that take place. Every statement about runs quantifies over all budgets, so it covers a
crash after any single write. Calls are atomic because the source makes them under one lock; the active-execution registry,
which releases its lock, is modelled section by section. Git, the clock, the lease epoch, the committed task cards and the
process table are parameters. Where the source reads its own line formats back (events, acceptance records, difficulty
evidence), the model goes through the text; what it stores as JSON is a record. Timestamps are microseconds; the stored form
is the whole second below.
`{:induction false}` marks lemmas whose body is the induction.

Where the code and its own words differ, the model follows the code:

- `write_grant` says it looks for an *active* grant, but any grant of the scope and subject blocks a new one, also after
  revocation or expiry (`SecondGrantRefused`).
- A replay is described as idempotent success. A request whose transition cleared the dispatch that its event names is
  answered as a duplicate (`RepeatedCall`), and a repeated dispatch, acceptance or integration succeeds only if the line
  reader gets the approval guard back from the text of the event: `RepeatedGatedCall` gives the exact condition, which a
  second reference with a colon (`WebAddressIsNotRepeatable`) or a dispatch id of digits (`DigitsAreNotRepeatable`) fails. A
  success may also be reported for a call that never committed (`SuccessWithoutCommit`), though not without a crash
  (`SuccessMeansCommitWithoutCrashes`).
- Dedupe keys and approvals are unique among committed transitions, not among files (`OrphanSharesKeyAndApproval`).
- Resolving a blocker is not tied to the recorded resume state. So a task can be in progress without a dispatch:
  `StrandedInTwoSteps` shows how, `ActiveHoldsDispatch` says exactly when, and `StrandedByResolution` what is left to do
  then. And a review can end in the acceptance of a commit that the attempt never submitted (`AcceptedUnsubmitted`,
  `StaleAccepted`);
  `AcceptsWhatWasSubmitted` says exactly when it does not.
- The owner-loss recovery refuses a task that has delivered in an earlier attempt (`RedispatchIsNotRecovered`). It also
  refuses a dispatch with an all-digit id (`DigitsAreNotRecovered`) and, once one stored event cannot be read, every dispatch
  (`SuperscriptStopsRecovery`), and it overlooks a submission whose reference claims another dispatch (`HiddenSubmission`).
  `RecoveryExactly` and `DeliveredIsNotRecovered` say exactly when it succeeds.
- An integration is said to be bound to what was accepted. It is bound to what the acceptance record reads as: a line break
  in a reference can make it another commit (`OtherIsIntegrated`), and a task with an all-digit dispatch id is never
  integrated (`DigitsAreNotIntegrated`). `IntegratesWhatWasAccepted` and `IntegrationExactly` give the exact conditions.
- A revocation under an id with a path separator is accepted and never read (`RevokeTakesEffect`, `UnreadRevocation`).
- A retry reservation with divergent content is said to be refused; only its digest is compared, which the caller supplies
  (`OtherContentsAnswered`).
- Repeating a retry finalization after full success raises (`RetryReceipts.WhoFinalizes`), and after an interruption the
  finalized receipt may carry a later time than the tombstone that is said to be its copy (`RetryReceipts.RepeatFinishes`).
- The decoder can fail with an untyped index error (`IndexErrorExactly`); every encoding cut off after its seventh line does
  (`TruncatedFails`, `ConcreteFailure`).

## Model

| member | source | states |
|---|---|---|
| Ledger.Mutate | skills/agentdesk/scripts/control_plane_transition.py:2824-3004 | The branch-by-branch assignments to the copied task give the field-by-field effect of each of the sixteen transitions, or nothing when a dispatch does not name the next attempt |
| StateGraph.CommitFollowsEdge | skills/agentdesk/scripts/control_plane_transition.py:91-109 | For each of the sixteen event types, the states a committed transition starts from and the state it ends in, one by one; a resolved blocker ends where its payload says, and the event says the same |
| StateGraph.CommitSets | skills/agentdesk/scripts/control_plane_transition.py:2824-3004 | For each event type, which fields of the task a committed transition sets and to what, and that all others stay as they were |
| StateGraph.EventReports | skills/agentdesk/scripts/control_plane_transition.py:3010-3120 | Task, revision, attempt, dispatch, source, references, lease epoch and time of the event of each commit, and what its type adds |
| StateGraph.MessageSays | skills/agentdesk/scripts/control_plane_transition.py:3122-3200 | A dispatch sends one message, with the key, role, model, card, base, branch and report path of the request; no other transition sends any |
| StateGraph.RescopeIsReadied | skills/agentdesk/scripts/control_plane_transition.py:106-106 | Between a rescope of a task and any later dispatch of it there is a committed specification, or a resolution of a blocker into a state from which it can become ready |
| Admission.CommitsExactly | skills/agentdesk/scripts/control_plane_transition.py:4305-4620 | A call gets to its writes exactly if its event id is new, its task, revision, state, snapshot, dispatch and attempt are the current ones, an edge of the graph leads on, an acceptance is of the delivered commit under a name that fits and reads back in order, no evidence of a half-done one is there, and a gated one has a live approval of exactly its subject |
| Admission.CommitAnswers | skills/agentdesk/scripts/control_plane_transition.py:4620-4683 | What a completed commit is answered, and what its acceptance record says, field by field |
| Admission.Refusals | skills/agentdesk/scripts/control_plane_transition.py:4305-4620 | Which error each other call with a new event id is refused with, in the order of the checks |
| Admission.CommitsOfRuns | skills/agentdesk/scripts/control_plane_transition.py:4305-4683 | In every run, cut off anywhere, each commit follows an edge of the graph from where the commits before it left the task, sets exactly the fields of its type, and reports so |
| Admission.RescopeOfRuns | skills/agentdesk/scripts/control_plane_transition.py:2362-2366 | In every run a rescoped task is specified again, or resumed where it can become ready, before it is dispatched |
| Admission.GatedOnHistory | skills/agentdesk/scripts/control_plane_transition.py:4556-4634 | Every gated commit of a run rested on approvals all of whose records, grants and revocations, were made at the HEAD it saw or at an ancestor, and they are still there |
| ControlPlane.ObtainGrant | skills/agentdesk/scripts/control_plane_transition.py:4084-4201 | A gated transition asks the gate for the subject that the request, or for an integration the front matter of the acceptance record as it is read back, determines, under the current head |
| ControlPlane.BuildSubject | skills/agentdesk/scripts/control_plane_transition.py:4084-4201 | The subject is built from the request, or from the record: its text is read, and every comparison and refusal comes in its order |
| ControlPlane.Decide | skills/agentdesk/scripts/control_plane_transition.py:4305-4620 | Every check up to the first write, in its order, comes to the plan: refuse, replay, or write event, outbox, acceptance and ledger; a gated replay goes through the text of the existing event |
| ControlPlane.Service.WriteFiles | skills/agentdesk/scripts/control_plane_transition.py:3690-3805 | The files are replaced in the fixed order until one cannot be written, and exactly that prefix is on disk |
| ControlPlane.Service.Transition | skills/agentdesk/scripts/control_plane_transition.py:4305-4683 | One transition call, cut off after any write, leaves exactly the stores and the answer of the specified execution; which calls commit, to which state and with which fields, the StateGraph and Admission rows say |
| ControlPlaneRuns.WritesLand | skills/agentdesk/scripts/control_plane_transition.py:3690-3785 | After the first n writes the event is there from the first on, outbox or acceptance from the second on, the ledger change last |
| ControlPlaneRuns.WriteIsLegit | skills/agentdesk/scripts/control_plane_transition.py:4377-4620 | A call that gets to its first write has passed every check and collides with no event, outbox or acceptance file |
| ControlPlaneRuns.ExistingEventWritesNothing | skills/agentdesk/scripts/control_plane_transition.py:4395-4497 | A call whose event id exists writes nothing, whatever it asks for |
| ControlPlaneRuns.NextGrows | skills/agentdesk/scripts/control_plane_transition.py:3690-3785 | No step, interrupted or not, overwrites or removes an event, outbox message, acceptance record or approval |
| ControlPlaneSafety.NextKeepsInv | skills/agentdesk/scripts/control_plane_transition.py:4305-4683 | Every step keeps: ledger equals the effect of the committed log, every commit was legitimate, its evidence is on disk, event ids differ, gated events are guarded |
| ControlPlaneSafety.RunKeepsInv | skills/agentdesk/scripts/control_plane_transition.py:4305-4683 | The same over whole runs of transitions and approval calls, each cut off anywhere |
| History.LedgerIsChainEnd | skills/agentdesk/scripts/control_plane_transition.py:2824-3004 | The ledger state of each task is the end of the linked chain of its own commits |
| History.ChainLinksEvents | skills/agentdesk/scripts/control_plane_transition.py:3812-3858 | Along a chain each event starts from the state the one before it reached, by a transition allowed from there |
| History.CountersExact | skills/agentdesk/scripts/control_plane_transition.py:2846-2856 | The attempt counts the committed dispatches and the revision the committed rescopes, from any start |
| History.TidyForever | skills/agentdesk/scripts/control_plane_transition.py:2846-3004 | Accepted and terminal tasks hold no dispatch, and a held dispatch belongs to the current attempt, once and for all |
| History.ActiveHoldsDispatch | skills/agentdesk/scripts/control_plane_transition.py:2860-2955 | A task is being worked on or reviewed without a dispatch exactly if its last commit is a resolution that resumed it without one (or it started that way) |
| History.StrandsExactly | skills/agentdesk/scripts/control_plane_transition.py:2942-2955 | A single commit leaves such a task exactly if it is a resolution into work or review of a task whose dispatch had been cleared |
| History.StrandedByResolution | skills/agentdesk/scripts/control_plane_transition.py:2942-2955 | After such a resolution only blocking, cancelling or superseding is possible |
| Deviations.StrandedInTwoSteps | skills/agentdesk/scripts/control_plane_transition.py:2926-2955 | Blocking work as no longer valid and resolving the blocker into the work again both commit, and leave a task in progress without a dispatch |
| History.AttemptOnce | skills/agentdesk/scripts/control_plane_transition.py:3812-3911 | Two dispatches, or two closings by acceptance, return or failure, of one task are of strictly rising attempts |
| History.AcceptsWhatWasSubmitted | skills/agentdesk/scripts/control_plane_transition.py:3452-3456 | What is accepted is the latest submission of the very same attempt if there was one; there was none only if a blocker was resolved into the review although there was none, or the task started under review |
| Deviations.AcceptedUnsubmitted | skills/agentdesk/scripts/control_plane_transition.py:2926-2955 | Blocked as still valid, resumed under review and accepted, three commits without a submission: any commit at all if no delivery is on record, otherwise the one on record from whatever attempt |
| Deviations.DeliverySurvives | skills/agentdesk/scripts/control_plane_transition.py:2858-2916 | Submission, return, requeue and the next dispatch all commit with exactly their own effects, and the new attempt starts with the commit of the old one on record |
| Deviations.StaleAccepted | skills/agentdesk/scripts/control_plane_transition.py:3452-3456 | So the commit submitted for one attempt is accepted for the next one, which submitted nothing |
| Examples.UnsubmittedExample | skills/agentdesk/scripts/control_plane_transition.py:2926-2955 | A concrete system in which any commit is accepted for work that submitted nothing |
| Examples.StaleExample | skills/agentdesk/scripts/control_plane_transition.py:3452-3456 | A concrete system in which the commit of the first attempt is accepted for the second |
| History.IntegrationAfterAcceptance | skills/agentdesk/scripts/control_plane_transition.py:2317-2327 | An integration starts from the task exactly as its own acceptance left it |
| History.TerminalIsFinal | skills/agentdesk/scripts/control_plane_transition.py:3829-3850 | After a terminal transition the task never changes again and has no further commit |
| History.GrantUsedOnce | skills/agentdesk/scripts/control_plane_transition.py:4556-4634 | No two gated commits of a legitimate log use the same grant |
| ControlPlaneTheorems.LedgerIsBackedByEvidence | skills/agentdesk/scripts/control_plane_transition.py:3690-3785 | In every reachable store, whatever was cut off, each ledger state is the end of a chain of commits whose events, outbox messages and acceptance records are on disk |
| ControlPlaneTheorems.CountersOfFresh | skills/agentdesk/scripts/control_plane_transition.py:2846-3004 | From fresh tasks the attempt is the number of committed dispatches, the revision has risen by the rescopes, and accepted or terminal tasks hold no dispatch |
| ControlPlaneTheorems.AttemptSpentOnce | skills/agentdesk/scripts/control_plane_transition.py:3812-3911 | In any run each attempt is dispatched once and closed at most once |
| ControlPlaneTheorems.ApprovalSpentOnce | skills/agentdesk/scripts/control_plane_transition.py:4556-4634 | In any run no two committed gated transitions spend the same approval, across all tasks and scopes |
| ControlPlaneTheorems.GatedEventsAreApproved | skills/agentdesk/scripts/control_plane_transition.py:4556-4620 | Every gated event on disk carries exactly one approval guard, naming a stored grant of its scope, task, revision and attempt; at each commit it was neither expired nor revoked |
| ControlPlaneTheorems.DeadApprovalNeverSpent | skills/agentdesk/scripts/control_plane_transition.py:4556-4585 | Once the gate has found an approval revoked or expired, no later call that needs it writes anything, after any run |
| ControlPlaneTheorems.NoOrphansWithoutCrashes | skills/agentdesk/scripts/control_plane_transition.py:4499-4683 | When every call completes its writes, the events and messages on disk are exactly those of the committed transitions |
| ControlPlaneTheorems.IntegratesWhatWasAccepted | skills/agentdesk/scripts/control_plane_transition.py:4133-4197 | In any run from fresh tasks an integration follows the acceptance of the same attempt and revision, is approved for the dispatch and commit that the record of that acceptance reads to name, and integrates that commit or shows equivalence; these are the accepted ones if and only if no line of the references or risks claims others |
| AcceptanceFiles.ReadFrontMatter | skills/agentdesk/scripts/control_plane_transition.py:4030-4081 | The two loops of the front-matter reader: up to the second rule, line by line with conversions, the last entry of a key wins |
| AcceptanceDocument.FrontIsWritten | skills/agentdesk/scripts/control_plane_transition.py:3458-3520 | The front matter of every acceptance record, line by line |
| AcceptanceReading.RecordReads | skills/agentdesk/scripts/control_plane_transition.py:3470-3520 | A record reads as its entries say, except where a line of its references or risks claims otherwise, up to a rule among these lines; it cannot be read exactly if an entry or such a line does not convert |
| AcceptanceRecords.WrittenExactly | skills/agentdesk/scripts/control_plane_transition.py:3563-3650 | The writer finds its own record in order exactly if everything in it converts and no line of its lists claims another schema, task, decision or reviewer role |
| AcceptanceRecords.CommitExactly | skills/agentdesk/scripts/control_plane_transition.py:4060-4081 | The accepted commit comes back exactly if no line claims another one and it is not all digits |
| AcceptanceRecords.DispatchExactly | skills/agentdesk/scripts/control_plane_transition.py:4060-4081 | The reviewed dispatch comes back exactly if no line claims another one and it is neither a number nor one of the words that are converted |
| AcceptanceRecords.UnbrokenLists | skills/agentdesk/scripts/control_plane_transition.py:3504-3514 | References and risks on one line each claim nothing, and can be read exactly if what follows their first colon converts |
| AcceptanceRecords.ForgedCommit | skills/agentdesk/scripts/control_plane_transition.py:3504-3508 | A reference with a second line accepted_commit and another commit makes the record read as the acceptance of that commit, and leaves the rest of it as written |
| Integrations.OrdinaryRecord | skills/agentdesk/scripts/control_plane_transition.py:3563-3650 | A record whose lists stand on one line each, and in which everything converts, is written and claims nothing |
| Integrations.IntegrationExactly | skills/agentdesk/scripts/control_plane_transition.py:4133-4197 | With a record that claims nothing, an integration gets to the gate exactly if the dispatch id reads as itself, the accepted commit is not all digits, and the commit is the accepted one or comes with evidence of equivalence; the gate is asked for the accepted dispatch and commit |
| Integrations.DigitsAreNotIntegrated | skills/agentdesk/scripts/control_plane_transition.py:4185-4189 | A task whose reviewed dispatch is all digits is never integrated |
| Integrations.OtherIsIntegrated | skills/agentdesk/scripts/control_plane_transition.py:4168-4183 | With the forging reference and an approval for the other commit, that commit is integrated without evidence of equivalence |
| Integrations.AcceptedIsRefused | skills/agentdesk/scripts/control_plane_transition.py:4168-4183 | And the commit that was accepted is refused |
| Examples.ForgedExample | skills/agentdesk/scripts/control_plane_transition.py:4168-4183 | A concrete task whose accepted commit is the head, with that record and approval, is integrated with another commit |
| ControlPlaneTheorems.OutdatedChangesNothing | skills/agentdesk/scripts/control_plane_transition.py:3812-3911 | A caller whose head, revision, state, dispatch or attempt is outdated changes nothing, interrupted or not |
| Replay.ReplayMatches | skills/agentdesk/scripts/control_plane_transition.py:2657-2782 | A call is answered from an existing event only if that event and its message say exactly what the call would write |
| Replay.RepeatedCall | skills/agentdesk/scripts/control_plane_transition.py:2657-2782 | Repeating a committed call in the same second and epoch writes nothing, and gets the same answer if and only if the transition cleared no dispatch its event names unbound and, if gated, the text of its event gives back the approval guard |
| Replay.WhoIsRepeatable | skills/agentdesk/scripts/control_plane_transition.py:3049-3068 | Bound ungated requests are always repeatable, clearing ones only if there was nothing to clear, gated ones when the text of the event gives back the guard |
| Replay.ReplayPlanned | skills/agentdesk/scripts/control_plane_transition.py:4415-4497 | What a repetition is answered in each case: the replayed outcome, a schema error or an untyped error for a text that cannot be read, or a duplicate |
| GatedReplay.RepeatedGatedCall | skills/agentdesk/scripts/control_plane_transition.py:4415-4497 | Repeating a committed dispatch, acceptance or integration gets the same answer if and only if the text of its event is recoverable; it is if the texts of the call fit (no own guard, no reference read as an entry, no all-digit dispatch id, ids and path that need no quotes, and so on), and, with references on one line each, only then |
| GatedReplay.OrdinaryTextsFit | skills/agentdesk/scripts/control_plane_transition.py:1889-1904 | Requests with ordinary ids, no guards of their own and no colon in a reference after the first do fit |
| GatedReplay.LegibleMeans | skills/agentdesk/scripts/control_plane_transition.py:3010-3120 | The condition on the text of the committed event for references on one line is this condition on the request, the task and the grant |
| GatedReplay.WebAddressIsNotRepeatable | skills/agentdesk/scripts/control_plane_transition.py:1872-1878 | The second reference https://x/y makes the repetition of any committed gated call fail |
| GatedReplay.DigitsAreNotRepeatable | skills/agentdesk/scripts/control_plane_transition.py:4004-4027 | A dispatch id of digits only makes the repetition of a committed dispatch fail |
| Examples.WebAddressExample | skills/agentdesk/scripts/control_plane_transition.py:1872-1878 | A concrete dispatch with such a reference commits and is refused when repeated at once |
| Examples.DigitsExample | skills/agentdesk/scripts/control_plane_transition.py:4004-4027 | A concrete dispatch with the id 123 commits and is refused when repeated at once |
| EventReader.ParseMapping | skills/agentdesk/scripts/control_plane_transition.py:3923-4001 | The line loop of the reader of event files, with its coercions, its guards and the untyped errors of number conversion |
| EventDocument.EventIsWritten | skills/agentdesk/scripts/control_plane_transition.py:1840-1907 | The text of every event: all of its entries, once each in alphabetical order, with their keys, words, quotes, references and guards written out |
| EventDocument.QuotesExactly | skills/agentdesk/scripts/control_plane_transition.py:1889-1907 | Which texts are quoted |
| Calendar.DateExactly | skills/agentdesk/scripts/control_plane_transition.py:638-640 | The date of a day is that of the calendar, leap years included |
| Calendar.TimeExactly | skills/agentdesk/scripts/control_plane_transition.py:638-640 | The printed time of an instant is its date and time of day, to the second |
| EventLines.CoerceEmitted | skills/agentdesk/scripts/control_plane_transition.py:4004-4027 | A printed text is read as a number if it is all digits, if it can be read at all, and as text in all other cases; quotes are removed, escapes are not |
| EventLines.SpuriousLine | skills/agentdesk/scripts/control_plane_transition.py:3943-3962 | A line that reads as an entry of no known key spoils the document for good |
| EventGuards.ReadGuards | skills/agentdesk/scripts/control_plane_transition.py:3964-3999 | A lone approval guard is read as it was printed, up to quotes; several guards are read as one whose time still has its quotes |
| EventReading.ReadAllKeys | skills/agentdesk/scripts/control_plane_transition.py:1881-1899 | Reading the text of an event gives the value of each of its keys and one guard, unless some value cannot be converted |
| EventRecovery.SchemaExactly | skills/agentdesk/scripts/control_plane_transition.py:2027-2140 | What was read meets the schema exactly if the dispatch id was read as text and the event id as an event id |
| EventRecovery.QuietExactly | skills/agentdesk/scripts/control_plane_transition.py:1868-1878 | References on one line each add no entry to the document exactly if none after the first has a colon |
| EventRecovery.RecoveredExactly | skills/agentdesk/scripts/control_plane_transition.py:4208-4297 | The approval guard is recovered from every legible event; with references on one line each, from no other |
| EventTexts.ReadWhole | skills/agentdesk/scripts/control_plane_transition.py:3923-4001 | The text of a gated event with any references: what is read for every key, whether a key is unknown, and which guards the references open before that of the event |
| EventTexts.RecoverableExactly | skills/agentdesk/scripts/control_plane_transition.py:4208-4297 | The approval guard comes back from the text exactly if it is the only guard, everything converts, what the text says meets the schema, the references open only complete guards of other names, and the id and the path need no quotes |
| ReplayFacts.RecoversExactly | skills/agentdesk/scripts/control_plane_transition.py:4208-4297 | From any text at all an approval is taken exactly if the text can be read, has the keys of its event type and no others with values of their kinds, and its only approval guard is of that scope, has passed, and names approval, time and path in their forms |
| ReplayFacts.SchemaExactly | skills/agentdesk/scripts/control_plane_transition.py:2027-2140 | The schema of an existing event, key by key |
| EventValues.ReadSays | skills/agentdesk/scripts/control_plane_transition.py:3943-3962 | What an event file says of each key: lines of the references, tenth in order, override the keys before them and are overridden by the keys after them; reading fails exactly if a value or such a line does not convert |
| EventFiles.FileIsUnified | skills/agentdesk/scripts/control_plane_transition.py:5290-5296 | Reading the file as text amounts to line feeds for all line ends in the references |
| EventDispatch.FileReads | skills/agentdesk/scripts/control_plane_transition.py:5290-5302 | An event file whose references claim nothing is read exactly if its texts and numbers convert |
| EventDispatch.AboutExactly | skills/agentdesk/scripts/control_plane_transition.py:5303-5310 | Such a file names a task, revision, attempt and dispatch exactly if its record does, with a dispatch id that reads back as this one |
| EventDispatch.KeptExactly | skills/agentdesk/scripts/control_plane_transition.py:4004-4027 | A text reads back as itself exactly if it is not all digits and has no quote or backslash to escape |
| EventDispatch.ReceiptIdKept | skills/agentdesk/scripts/dispatch_supervisor_evidence.py:147-147 | An id that a receipt allows reads back as itself exactly if it is not all digits |
| EventDispatch.OneLineIsUnspoiled | skills/agentdesk/scripts/control_plane_transition.py:1868-1878 | References on one line each claim nothing |
| EventDispatch.ClaimingReference | skills/agentdesk/scripts/control_plane_transition.py:3943-3962 | A reference whose second line is dispatch_id: zzz makes its event read back under that dispatch |
| Replay.SuccessWithoutCommit | skills/agentdesk/scripts/control_plane_transition.py:2657-2782 | An answer of success does not imply a commit: a concrete crash and a second call make a repetition of the cut-off call succeed |
| Replay.SuccessMeansCommitWithoutCrashes | skills/agentdesk/scripts/control_plane_transition.py:2657-2782 | In runs without crashes an answer of success does imply a commit |
| Replay.OrphanSharesKeyAndApproval | skills/agentdesk/scripts/control_plane_transition.py:4377-4413 | A dispatch cut off before the ledger and issued again under new names leaves two messages with one dedupe key and two events with one approval |
| DedupeKeys.KeyInjective | skills/agentdesk/scripts/control_plane_transition.py:2788-2796 | Different dispatch identities are printed as different keys, whatever characters dispatch ids contain |
| DedupeKeys.CommittedKeysDiffer | skills/agentdesk/scripts/control_plane_transition.py:3128-3141 | No two committed dispatches carry the same printed key, across all tasks and runs, for task ids without a slash |
| OwnerLoss.RecoveryIsAStep | skills/agentdesk/scripts/control_plane_transition.py:5114-5365 | An owner-loss recovery is a control-plane transition under the freshly read head or nothing at all |
| OwnerLoss.RecoveryMeans | skills/agentdesk/scripts/control_plane_transition.py:5224-5353 | If a recovery changes anything, the ledger, receipt and liveness checks held, all event files could be read, and what was read of them passed the lifecycle check |
| OwnerLoss.RecoveryIsSafe | skills/agentdesk/scripts/control_plane_transition.py:5252-5343 | After a recovery that changed anything, neither creator, supervisor, worker nor its process group ever runs again, and no event file read as a delivery of the attempt; if references claim nothing and the dispatch id reads back as itself, no event was one |
| OwnerLoss.RecoveryCommits | skills/agentdesk/scripts/control_plane_transition.py:5234-5353 | When the checks on what is read hold and the event id names no file, a bound request without a guard of its own commits the failure: nothing else can stop it |
| OwnerLoss.RecoveryDecided | skills/agentdesk/scripts/control_plane_transition.py:5224-5353 | For a task that is not ready a bound recovery succeeds if and only if these checks hold and the event id names no file |
| OwnerLoss.EventsExactly | skills/agentdesk/scripts/control_plane_transition.py:5303-5337 | When the records of the events are as they should be, convert and claim nothing, the files are exactly if the dispatch id reads back as itself |
| OwnerLoss.DeliveredIsNotRecovered | skills/agentdesk/scripts/control_plane_transition.py:5281-5343 | Likewise by the history of the task: exactly if nothing was submitted, accepted or returned since the last failure or rescope, accepted since the last rescope, or ever integrated, every stored event converts, and the dispatch id reads back as itself |
| OwnerLoss.RecoveryExactly | skills/agentdesk/scripts/control_plane_transition.py:5281-5343 | When the records of the events and everything else fit, a recovery succeeds exactly if the ledger records no delivery, report, accepted or integrated commit, every stored event converts, and the dispatch id reads back as itself; otherwise it is refused unchanged, with a schema error exactly if some event does not convert |
| RecoveryFacts.RecoveredWas | skills/agentdesk/scripts/control_plane_transition.py:5114-5365 | A recovery that changes anything reports the failure of a dispatch that the ledger has under way, with a receipt of that identity and generation in an early phase, no tombstone and nothing delivered |
| RecoveryFacts.RecoveredExactly | skills/agentdesk/scripts/control_plane_transition.py:5114-5365 | While the processes hold still and the events are legible it succeeds exactly if, besides, the process table shows nobody who ever ran it, and the events say that it was dispatched, acknowledged if in progress, and no more |
| OwnerLoss.RedispatchIsNotRecovered | skills/agentdesk/scripts/control_plane_transition.py:5325-5343 | After submission, return, requeue and another dispatch, all committed, every recovery of the new owner is refused |
| OwnerLoss.DigitsAreNotRecovered | skills/agentdesk/scripts/control_plane_transition.py:5303-5310 | A dispatch with the id 123 is never recovered, although all records fit |
| OwnerLoss.SuperscriptStopsRecovery | skills/agentdesk/scripts/control_plane_transition.py:5290-5302 | One event of any task with a superscript two as its source message stops the recovery of every dispatch with a schema error |
| OwnerLoss.HiddenSubmission | skills/agentdesk/scripts/control_plane_transition.py:5319-5331 | A submission with the claiming reference is on file and changes nothing about which recoveries pass |
| OwnerLoss.ReadFiles | skills/agentdesk/scripts/control_plane_transition.py:5281-5302 | All event files are read, in any order, or the first unreadable one ends it |
| OwnerLoss.CheckAgain | skills/agentdesk/scripts/control_plane_transition.py:5234-5343 | The second check as it runs, in its order, with the errors of each part |
| Examples.RedispatchExample | skills/agentdesk/scripts/control_plane_transition.py:5325-5343 | A concrete system in which that refusal happens |
| Examples.RecoveredExample | skills/agentdesk/scripts/control_plane_transition.py:5114-5365 | A concrete dispatch with an ordinary id is recovered |
| Examples.NumberedExample | skills/agentdesk/scripts/control_plane_transition.py:5303-5310 | The same dispatch under the id 123 is not |
| Examples.SuperscriptExample | skills/agentdesk/scripts/control_plane_transition.py:5290-5302 | Nor is the first one when its event names that source |
| Examples.HiddenExample | skills/agentdesk/scripts/control_plane_transition.py:5319-5331 | A concrete dispatch is recovered although the event of its submission is on file |
| OwnerLoss.ApplyOwnerLoss | skills/agentdesk/scripts/control_plane_transition.py:5114-5365 | The call as it runs, under one lock, with the loop over the event files, has exactly the specified effect and answer |
| Approvals.FloorSecond | skills/agentdesk/scripts/approval_gate.py:163-165 | Stored times are the whole second at or before the instant |
| Approvals.Listing | skills/agentdesk/scripts/approval_gate.py:1564-1571 | A directory listing yields every entry once, in some order |
| ApprovalStore.IndexByApproval | skills/agentdesk/scripts/approval_gate.py:1585-1668 | The loading loop indexes the records by approval id and refuses a repeated one |
| ApprovalStore.CollectNew | skills/agentdesk/scripts/approval_gate.py:1670-1688 | The event-id pass accepts exactly the lists without a repetition and without an id already seen |
| ApprovalStore.IndexIsLoad | skills/agentdesk/scripts/approval_gate.py:1585-1690 | Whatever the order of the directory, loading succeeds on exactly the stores without a repeated approval or event id, with the same evidence |
| ApprovalStore.LoadEvidence | skills/agentdesk/scripts/approval_gate.py:1537-1690 | The loader as it runs computes that load for every listing order |
| ApprovalStore.Classify | skills/agentdesk/scripts/approval_gate.py:712-740 | The classification loop finds exactly the active and exactly the revoked grants; revoked takes priority |
| ApprovalStore.Match | skills/agentdesk/scripts/approval_gate.py:699-800 | In whatever order grants are listed, the verdict is the one determined by the set of evidence |
| ApprovalStore.CheckFiles | skills/agentdesk/scripts/approval_gate.py:631-800 | The check as it runs: head, load, ancestry of every grant and every revocation, match |
| GateFacts.JudgesExactly | skills/agentdesk/scripts/approval_gate.py:646-700 | On a sound store the gate answers with a snapshot conflict exactly if the caller does not know HEAD or some stored record, grant or revocation, was made neither at HEAD nor at an ancestor, and judges otherwise |
| GateFacts.FoundExactly | skills/agentdesk/scripts/approval_gate.py:700-800 | With a grant of exactly the scope and subject on record it passes with that grant, unless a revocation of it is past, or else its expiry has come |
| GateFacts.NotFoundExactly | skills/agentdesk/scripts/approval_gate.py:700-800 | Without one it says whether the subject is approved in another scope, or the scope for another subject of the task |
| GateFacts.PassesOnHistory | skills/agentdesk/scripts/approval_gate.py:676-696 | Whatever the store, what passes rests on a stored grant of exactly this scope and subject, neither revoked nor expired, while every record was made at HEAD or an ancestor |
| ApprovalStore.RequireGrant | skills/agentdesk/scripts/approval_gate.py:802-846 | A requirement returns the matched grant or the error its verdict stands for |
| ApprovalStore.Store.WriteGrant | skills/agentdesk/scripts/approval_gate.py:1744-1969 | A grant is refused, or exactly its record is added: to the files that the loader reads if its id is a file name, elsewhere otherwise |
| GateFacts.GrantExactly | skills/agentdesk/scripts/approval_gate.py:1744-1969 | A grant is accepted exactly if its arguments fit its scope, the caller knows HEAD, it expires after its own time if at all, its ids are new and nothing was ever granted for that scope and subject; which error it is refused with otherwise, and what is stored |
| GateFacts.AcceptAfterDispatch | skills/agentdesk/scripts/approval_gate.py:1744-1969 | In particular an acceptance can be approved after the dispatch of the same subject was |
| ApprovalStore.Store.WriteRevoke | skills/agentdesk/scripts/approval_gate.py:1976-2130 | A revocation is refused, or exactly its record is added, to the files that the loader reads or elsewhere |
| GateFacts.RevokeExactly | skills/agentdesk/scripts/approval_gate.py:1976-2130 | A revocation is accepted exactly if the caller knows HEAD, the approval was granted and not revoked before, and its id is new; it is stored with the task of the grant |
| ApprovalRuns.ApplyKeepsSound | skills/agentdesk/scripts/approval_gate.py:1927-1955 | Both writers keep: distinct ids, every revocation has its grant, at most one grant for a scope and subject; and change no file |
| ApprovalRuns.RunKeepsSound | skills/agentdesk/scripts/approval_gate.py:1905-2130 | The same over every sequence of grants and revocations |
| ApprovalRuns.JudgeExact | skills/agentdesk/scripts/approval_gate.py:706-770 | With the grant in the store the verdict is read off that grant and its revocation alone |
| ApprovalRuns.NeverAmbiguous | skills/agentdesk/scripts/approval_gate.py:743-754 | On every store the two writers can produce, the gate never reports ambiguity or invalid evidence |
| ApprovalRuns.DeadStaysDead | skills/agentdesk/scripts/approval_gate.py:706-770 | Once the answer is revoked or expired, no sequence of grants and revocations makes the scope and subject pass again at that or a later time |
| ApprovalRuns.SecondGrantRefused | skills/agentdesk/scripts/approval_gate.py:1948-1955 | A scope and subject once granted are never granted again, even after revocation or expiry |
| ApprovalRuns.GrantPasses | skills/agentdesk/scripts/approval_gate.py:1905-1969 | A fresh grant passes the gate at exactly the times before it expires, under any head that its evidence precedes; under an id that is no file name it is never seen |
| ApprovalRuns.RevokeTakesEffect | skills/agentdesk/scripts/approval_gate.py:2057-2130 | A revocation takes effect at its own instant, although it is stored in whole seconds, and for good, if and only if its id is a file name |
| Examples.UnreadRevocation | skills/agentdesk/scripts/approval_gate.py:1521-1535 | A concrete revocation under the id EVT-a/b is accepted, and the approval still passes |
| ApprovalRuns.PassedMeans | skills/agentdesk/scripts/approval_gate.py:802-846 | A passed requirement names a stored exact grant, unexpired, with every revocation of it in the future |
| DispatchReceipts.NextKeeps | skills/agentdesk/scripts/dispatch_supervisor_evidence.py:1033-1291 | Every call, cut off after any write, keeps receipt and tombstone in agreement, advances at most one phase, and changes nothing recorded |
| DispatchReceipts.RunKeeps | skills/agentdesk/scripts/dispatch_supervisor_evidence.py:341-391 | Over any run receipts only move forward, identities and generations never change, tombstones are never rewritten |
| DispatchReceipts.WhoFinalizes | skills/agentdesk/scripts/dispatch_supervisor_evidence.py:1215-1291 | A finalization succeeds exactly when flags, generation, identity and, after an interruption, the content agree with a finalizing or finalized receipt |
| DispatchReceipts.RepeatFinishes | skills/agentdesk/scripts/dispatch_supervisor_evidence.py:1234-1291 | A finalization interrupted after its tombstone is finished by repeating it at any later time: same tombstone, receipt finalized |
| DispatchReceipts.FilesAgree | skills/agentdesk/scripts/dispatch_supervisor_evidence.py:1174-1291 | Over whole runs a tombstone stands for a finalizing or finalized receipt of its identity and generation, and a finalized receipt has its tombstone |
| DispatchStore.EvidenceStore.ReserveReceipt | skills/agentdesk/scripts/dispatch_supervisor_evidence.py:1047-1089 | A reservation writes the first receipt of a dispatch, or refuses when there is one |
| DispatchStore.EvidenceStore.AdvanceReceipt | skills/agentdesk/scripts/dispatch_supervisor_evidence.py:1092-1165 | An advance under the generation of the receipt and from the phase before stores the receipt with the supervisor, or the worker and group, that the call names; any other changes nothing |
| ReceiptHistory.ReserveExactly | skills/agentdesk/scripts/dispatch_supervisor_evidence.py:1047-1090 | A reservation stores its identity, lease epoch, holder, generation, boot and creator as the first receipt of a dispatch, or is refused because there is one |
| ReceiptHistory.AdvanceExactly | skills/agentdesk/scripts/dispatch_supervisor_evidence.py:1092-1172 | An advance from the phase before, under the generation of the receipt, stores the next phase with the supervisor, or the worker and group, that the call names; any other is refused, fenced off or out of phase |
| ReceiptHistory.StoredWasAsked | skills/agentdesk/scripts/dispatch_supervisor_evidence.py:1047-1260 | Over whole runs from an empty store the supervisor of a stored receipt is that of a call that reported it ready, worker and group are those of a call that reported the worker started, the rest is from a reservation of that dispatch, all under its generation, and a tombstone says what a finalization said |
| DispatchStore.EvidenceStore.WriteFinalizerTombstone | skills/agentdesk/scripts/dispatch_supervisor_evidence.py:1174-1291 | Tombstone first, receipt second, with every refusal and every interruption |
| ReceiptHistory.FinalizeExactly | skills/agentdesk/scripts/dispatch_supervisor_evidence.py:1174-1260 | When a finalization is accepted, what it writes, and which error it is refused with otherwise |
| DispatchStore.Supervisor.Run | skills/agentdesk/scripts/dispatch_supervisor_runner.py:113-208 | Frames follow the durable phases they report; the worker is fed only after its start is durable; the result follows FINALIZING; and the receipt names the supervisor, worker and group that ran |
| RetryReceipts.RunKeeps | skills/agentdesk/scripts/dispatch_supervisor_evidence.py:2392-2602 | Over any run of retry calls the pair of files agrees, phases rise, tombstones stay, and every stored retry is the next attempt, at most the third |
| RetryReceipts.WhoFinalizes | skills/agentdesk/scripts/dispatch_supervisor_evidence.py:2358-2366 | A retry is finalized exactly while it is finalizing under the caller's generation; repeating it after full success is refused |
| RetryReceipts.RepeatFinishes | skills/agentdesk/scripts/dispatch_supervisor_evidence.py:2562-2602 | An interrupted retry finalization is finished by repeating it; the tombstone stays, only the receipt's time may differ |
| RetryReceipts.RetryStore.ReserveRetry | skills/agentdesk/scripts/dispatch_supervisor_evidence.py:2392-2468 | A reservation is written once; an identical one returns what is stored, a divergent one is refused without a write |
| RetryReceipts.RetryStore.AdvanceRetry | skills/agentdesk/scripts/dispatch_supervisor_evidence.py:2471-2542 | A retry advances one phase under its own generation |
| RetryReceipts.RetryStore.FinalizeRetry | skills/agentdesk/scripts/dispatch_supervisor_evidence.py:2545-2602 | Retry tombstone first, receipt second, with every refusal and interruption |
| RetryHistory.ReserveExactly | skills/agentdesk/scripts/dispatch_supervisor_evidence.py:2392-2465 | A reservation of a next attempt, the third at most, is stored if there is none for its dispatch; otherwise nothing is written, and it gets what is stored if digest and generation are the same and nothing has happened to it, or which error |
| RetryHistory.OtherContentsAnswered | skills/agentdesk/scripts/dispatch_supervisor_evidence.py:2447-2462 | The comparison is of digests: a reservation of another retry under the digest of the stored one gets the stored one |
| RetryHistory.AdvanceExactly | skills/agentdesk/scripts/dispatch_supervisor_evidence.py:2471-2540 | When a retry advances, what is stored with which supervisor and worker, and which error it is refused with otherwise |
| RetryHistory.FinalizeExactly | skills/agentdesk/scripts/dispatch_supervisor_evidence.py:2545-2610 | The same for its finalization, tombstone first |
| RetryHistory.StoredWasAsked | skills/agentdesk/scripts/dispatch_supervisor_evidence.py:2392-2610 | Over whole runs from an empty store every part of a stored retry receipt or tombstone was named by a call for that dispatch under its generation |
| Liveness.ScanGroup | skills/agentdesk/scripts/dispatch_supervisor_evidence.py:2112-2164 | The scan sees a member exactly when some readable, unended entry is of the group |
| Liveness.ProbeIsSound | skills/agentdesk/scripts/dispatch_supervisor_evidence.py:2167-2223 | A dead answer rests on a look at which the recorded incarnation was not running |
| Liveness.ProbeTreeIsSound | skills/agentdesk/scripts/dispatch_supervisor_evidence.py:2112-2223 | A dead answer about a subject with a tree rests on a look at which its group was empty |
| Liveness.DeadIsSound | skills/agentdesk/scripts/dispatch_supervisor_evidence.py:1951-2033 | DEAD is sound on a system that moves on between looks: from the answer on neither supervisor nor worker nor its process group runs |
| Liveness.JobIsSound | skills/agentdesk/scripts/dispatch_supervisor_evidence.py:2036-2109 | The same for the job path, with the job seen empty or gone |
| Liveness.SteadyAnswers | skills/agentdesk/scripts/dispatch_supervisor_evidence.py:2167-2223 | On a system that holds still the answer is exactly determined; unreadable, closed, reused and other-boot processes are UNKNOWN |
| LivenessFacts.DispatchExactly | skills/agentdesk/scripts/dispatch_supervisor_evidence.py:1951-2033 | On a POSIX system that holds still a dispatch is alive exactly if the process table shows its supervisor or its worker as recorded and not ended, dead exactly if both are gone and every readable entry of the group has ended, and unknown otherwise |
| LivenessFacts.JobDispatchExactly | skills/agentdesk/scripts/dispatch_supervisor_evidence.py:2036-2110 | On Windows alive exactly if the supervisor is, or the job has members; dead exactly if supervisor and worker are gone and the job is empty or does not exist; unknown otherwise |
| LivenessFacts.ProbedAgain | skills/agentdesk/scripts/dispatch_supervisor_evidence.py:1951-2033 | A dispatch whose supervisor could not be told is probed once more from the start, with the same exact answers if the system holds still from then on |
| ActiveExecution.NextKeepsInv | skills/agentdesk/scripts/dockyard_active_execution.py:197-272 | Every critical section of register, complete and cancel keeps serials apart and entries in step with pending cancellations |
| ActiveExecution.EmptyInv | skills/agentdesk/scripts/dockyard_active_execution.py:193-195 | The empty registry meets the invariant |
| ActiveExecution.OneWinner | skills/agentdesk/scripts/dockyard_active_execution.py:233-272 | Under every interleaving an entry is being cancelled exactly when one and only one cancellation of that registration object is between its sections |
| ActiveExecution.StaleFinisherHarmless | skills/agentdesk/scripts/dockyard_active_execution.py:259-271 | A finisher whose registration was completed or replaced alters no entry, ever after |
| ActiveExecution.OwnFinisher | skills/agentdesk/scripts/dockyard_active_execution.py:252-272 | A finisher whose registration is there removes exactly that entry, or makes exactly it active again |
| ActiveExecution.Registry.RegisterIdentity | skills/agentdesk/scripts/dockyard_active_execution.py:197-215 | Registration adds an entry, repeats an identical one, refuses a divergent one |
| ActiveExecution.Registry.CompleteDispatch | skills/agentdesk/scripts/dockyard_active_execution.py:223-231 | Completion removes the entry of that generation, or nothing |
| ActiveExecution.Registry.BeginCancel | skills/agentdesk/scripts/dockyard_active_execution.py:233-253 | The first section of a cancellation wins the entry, if it is of the task, revision, attempt and generation that the command names, or says why not, and hands out the object |
| ActiveExecution.Registry.FailCancel | skills/agentdesk/scripts/dockyard_active_execution.py:254-266 | After a failed callback the very object becomes active again, and no other |
| ActiveExecution.Registry.FinishCancel | skills/agentdesk/scripts/dockyard_active_execution.py:267-272 | After a successful callback the entry goes if it is the very object |
| RegistryHistory.RegisterExactly | skills/agentdesk/scripts/dockyard_active_execution.py:197-215 | A registration is new, the repetition of an identical one, or divergent, and only a new one changes anything |
| RegistryHistory.CompleteExactly | skills/agentdesk/scripts/dockyard_active_execution.py:223-231 | A completion under the generation of the entry removes it, and no other does anything |
| RegistryHistory.BeginExactly | skills/agentdesk/scripts/dockyard_active_execution.py:233-260 | A ticket is issued exactly if the entry of the dispatch of the command is there, has its task, revision, attempt and generation, and is not being cancelled; otherwise, why not |
| RegistryHistory.WhoRemoves | skills/agentdesk/scripts/dockyard_active_execution.py:223-272 | Under every interleaving an entry disappears only by a completion under its generation, or by the successful end of a cancellation of that registration whose command named its task, revision, attempt, dispatch and generation |
| RecoveryWalk.WalkBack | skills/agentdesk/scripts/dockyard_owner_loss_recovery.py:568-596 | The walk over retry receipts ends after one or two, because attempts fall, at the first dispatch with a plan of the task and revision, or where no receipt leads on |
| RecoveryWalk.SourcePlan | skills/agentdesk/scripts/dockyard_owner_loss_recovery.py:540-600 | A plan is found exactly if the dispatch has one plan or, for a started retry under the same processes, if the first dispatch with a plan, one or two receipts back, has one; it is of the same task and revision and as many attempts back |
| WalkFacts.TracesExactly | skills/agentdesk/scripts/dockyard_owner_loss_recovery.py:540-690 | It finds one exactly if the receipt of the dispatch repeats the attempt before and that one has one plan of the same task and revision, or has none and its own receipt leads to one that has |
| RecoveryWalk.ReturnedLands | skills/agentdesk/scripts/dockyard_composition.py:258-325 | The recursion over redispatches lands on a finalized handoff and plan of the same task and revision, exactly as many redispatches back as attempts passed |
| WalkFacts.ReturnedExactly | skills/agentdesk/scripts/dockyard_composition.py:258-325 | A handoff is found exactly if a trail of redispatches leads to it, each of the reviewed dispatch and generation, from a finalized failure of the attempt before, under the same admission and worktree, and it is the finalized admission that the request names |
| Routing.SelectIsWinner | skills/agentdesk/scripts/agent_capability_registry.py:198-236 | The selection is the one winner among the set of agents, forced, preferred or first in rank, distance and id |
| Routing.OrderIrrelevant | skills/agentdesk/scripts/agent_capability_registry.py:198-243 | Routing does not depend on the order in which agents are declared |
| Routing.LosersIrrelevant | skills/agentdesk/scripts/agent_capability_registry.py:198-243 | Removing an agent that was not selected changes nothing |
| RoutingFacts.RouteExactly | skills/agentdesk/scripts/agent_capability_registry.py:168-243 | A task has a route exactly if an agent is chosen: forced, or preferred, or first by provider in the order of its difficulty, distance of the difficulties and id, and in each case enabled, allowed and able; the route carries that agent, provider, model and tier, the difficulty, and the smaller of the two limits |
| RoutingFacts.RankExactly | skills/agentdesk/scripts/agent_capability_registry.py:47-52 | Reasonix, Claude, Codex for basic tasks; Claude, Codex, Reasonix for standard ones; Codex, Claude, Reasonix for the others; any other provider last |
| RoutingFacts.UnavailableExactly | skills/agentdesk/scripts/agent_capability_registry.py:184-215 | There is no route exactly if no agent suits, or the forced one is missing or does not suit |
| Difficulty.MaximumDifficulty | skills/agentdesk/scripts/difficulty_assessor.py:215-220 | The loop finds the largest difficulty |
| Difficulty.ValidatedDimensionResults | skills/agentdesk/scripts/difficulty_assessor.py:180-205 | The loop checks one key for each dimension, in order, against the table |
| Difficulty.AssessmentRespectsPolicy | skills/agentdesk/scripts/difficulty_assessor.py:231-311 | An accepted selection never undercuts a hard floor, and only an approved downward override selects below the recommendation |
| Difficulty.RecommendedAttained | skills/agentdesk/scripts/difficulty_assessor.py:231-311 | The recommendation is the largest of the dimension difficulties and the minimum the largest of the hard floors |
| PolicyFacts.KeysExactly | skills/agentdesk/scripts/difficulty_assessor.py:103-206 | Under the shipped policy seven keys are accepted exactly if each is a key of its dimension, and each gives the result of its row |
| PolicyFacts.AssessExactly | skills/agentdesk/scripts/difficulty_assessor.py:231-311 | Every assessment under the shipped policy: the minimum is read off the six hard floors by name, the recommendation is the highest level of the keys, and which selections, reasons and approvals pass or fail with which error |
| PolicyFacts.NothingBelowExpert | skills/agentdesk/scripts/difficulty_assessor.py:103-135 | With data corruption, a security boundary, a breaking migration, recovery across processes or an irreversible rollback among the keys the only assessment selects expert, whatever is approved |
| ScalarCodec.UnescapeLoop | skills/agentdesk/scripts/difficulty_assessment_evidence.py:243-266 | The index loop over a quoted token computes its unescaping |
| ScalarCodec.ParseQuotedScalar | skills/agentdesk/scripts/difficulty_assessment_evidence.py:243-266 | The quoted-token parser with its final comparison |
| ScalarCodec.UnescapeEscape | skills/agentdesk/scripts/difficulty_assessment_evidence.py:117-120 | Unescaping undoes the two replacement passes of the printer |
| ScalarCodec.EscapeUnescape | skills/agentdesk/scripts/difficulty_assessment_evidence.py:243-266 | Whatever unescapes was escaped canonically |
| ScalarCodec.CanonicalCheckIsRedundant | skills/agentdesk/scripts/difficulty_assessment_evidence.py:262-266 | The quoting comparison at the end of the token parser can never fail |
| ScalarCodec.ParsePrintScalar | skills/agentdesk/scripts/difficulty_assessment_evidence.py:123-134 | Reading a printed scalar gives it back |
| ScalarCodec.PrintParseScalar | skills/agentdesk/scripts/difficulty_assessment_evidence.py:269-283 | Printing a read scalar gives its token back |
| Decimal.ParsePrint | skills/agentdesk/scripts/difficulty_assessment_evidence.py:123-134 | Decimal integers survive printing and reading, at any size |
| Decimal.PrintParse | skills/agentdesk/scripts/difficulty_assessment_evidence.py:269-283 | An accepted numeral is the one that would be printed |
| LineCodec.ReadLines | skills/agentdesk/scripts/difficulty_assessment_evidence.py:300-367 | The cursor loop over the lines reads one scalar for each slot, or stops with the first error |
| LineCodec.ParsePrintLines | skills/agentdesk/scripts/difficulty_assessment_evidence.py:203-240 | Reading printed lines gives the scalars back |
| LineCodec.PrintParseLines | skills/agentdesk/scripts/difficulty_assessment_evidence.py:300-367 | Printing what was read gives the lines back |
| EvidenceEncoder.EncodeEvidence | skills/agentdesk/scripts/difficulty_assessment_evidence.py:203-240 | The encoder as it runs, a growing list of lines, computes the encoding, whose bytes DocumentIs writes out, or stops with its first error |
| EvidenceText.DocumentIs | skills/agentdesk/scripts/difficulty_assessment_evidence.py:203-240 | The bytes of every encoding: which keys in which order, and which token on each of the 41 lines |
| EvidenceText.EncodesExactly | skills/agentdesk/scripts/difficulty_assessment_evidence.py:98-135 | Evidence is encoded exactly if it is what the policy recomputes, its texts are not empty and free of control characters, and its revision has at most 4300 digits |
| EvidenceText.TextRefused | skills/agentdesk/scripts/difficulty_assessment_evidence.py:300-325 | Which error a text is refused with for a byte order mark, a carriage return, a tab, a null character, or its last line feed |
| EvidenceText.LeastIsWritten | skills/agentdesk/scripts/difficulty_assessment_evidence.py:203-240 | The least assessment ASM-1 of TC-1 is written as this text, and this text is read as that assessment |
| EvidenceText.DigitsAre | skills/agentdesk/scripts/difficulty_assessment_evidence.py:123-135 | A printed number has its decimal digits, the units last |
| EvidenceCodec.DecodeEvidence | skills/agentdesk/scripts/difficulty_assessment_evidence.py:478-486 | The decoder as it runs: text checks, cursor loop, rebuilding, final comparison |
| EvidenceCanonical.ReadIsCanonical | skills/agentdesk/scripts/difficulty_assessment_evidence.py:300-475 | Any text that parser and rebuilding accept is already the encoding of the result |
| EvidenceCanonical.ReadEncode | skills/agentdesk/scripts/difficulty_assessment_evidence.py:203-240 | Reading an encoding gives the evidence back, for every value the encoder accepts |
| EvidenceCanonical.FinalComparisonIsRedundant | skills/agentdesk/scripts/difficulty_assessment_evidence.py:478-486 | The final re-encode comparison can never fail |
| EvidenceCanonical.DecodeInvertsEncode | skills/agentdesk/scripts/difficulty_assessment_evidence.py:478-486 | The decoder accepts a text as some evidence if and only if the encoder produces that text for it |
| EvidenceCanonical.EncodeInjective | skills/agentdesk/scripts/difficulty_assessment_evidence.py:203-240 | No two pieces of evidence share an encoding |
| EvidenceErrors.IndexErrorExactly | skills/agentdesk/scripts/difficulty_assessment_evidence.py:321-330 | Decoding runs past the last line exactly when the text stops right before the list header after seven well-formed lines |
| EvidenceErrors.TruncatedFails | skills/agentdesk/scripts/difficulty_assessment_evidence.py:321-330 | Every encoding cut off after its seventh line fails that way |
| EvidenceExample.LeastEncodes | skills/agentdesk/scripts/difficulty_assessment_evidence.py:203-240 | Under the shipped policy the least assessment of any identity encodes, reads back, and fails that way when cut off |
| EvidenceExample.ConcreteFailure | skills/agentdesk/scripts/difficulty_assessment_evidence.py:321-330 | The same for ASM-1 of TC-1, revision 1 |
| AssessmentStore.Store.Scan | skills/agentdesk/scripts/difficulty_assessment_store.py:240-274 | The scan accepts the store exactly when every file decodes and its identity is its place |
| AssessmentStore.Store.Write | skills/agentdesk/scripts/difficulty_assessment_store.py:389-439 | A write succeeds exactly when nothing stands against it, adds exactly the encoding at the evidence's own place, and otherwise changes nothing |
| StoreHistory.WriteExactly | skills/agentdesk/scripts/difficulty_assessment_store.py:326-440 | Evidence is written exactly if it encodes, HEAD is where the caller believes it is, it was made at HEAD or an ancestor, every stored file is the encoding of evidence that belongs there, and no other file has its assessment id |
| StoreHistory.StoredWasAsked | skills/agentdesk/scripts/difficulty_assessment_store.py:389-440 | Over any run from an empty store every file is the encoding of evidence that a request brought and that was made at the HEAD of that request or an ancestor |
| AssessmentStore.Store.Read | skills/agentdesk/scripts/difficulty_assessment_store.py:441-466 | A read returns evidence exactly if its identity is valid, the file at its place is there and is the encoding of that evidence, and the evidence belongs at that place |
| AssessmentStore.ReadMeans | skills/agentdesk/scripts/difficulty_assessment_store.py:441-466 | The same for every store and every evidence, from the inversion of encoder and decoder |
| AssessmentStore.RunKeeps | skills/agentdesk/scripts/difficulty_assessment_store.py:389-439 | Over any writes each file decodes to its place, no assessment id occurs twice, and no file ever changes |
| AssessmentStore.ReadAfterWrite | skills/agentdesk/scripts/difficulty_assessment_store.py:389-466 | Evidence once written is read back unchanged after any later writes |

## Left out

- Text of outbox messages, and of the ledger, the approvals and the receipts, which are JSON: they are records. A replay compares events and messages as records, where the
  code compares their bytes; acceptance records it compares as texts, which need not tell all records apart.
- AcceptanceReading.RecordReads: is about records whose entries stand on one line each; a dispatch id, card type, role or
  reviewer with a line separator in it is left to the reader itself (`AcceptanceFiles.ReadRecord`).
- Payload digests and content digests: a digest stands for what it digests, and in the text of an event for its form.
- EventReader.ParseMapping: a heading of guards with an inline `inputs` entry, to which later lines of the guard cannot be
  added, and a recovered time in another spelling than the stored one are not modelled; both can only be smuggled in through
  a line break in a reference. Times of a caller's guards have no white space around them.
- The group scan of the process table is one look, as if the system held still from its first entry to its last.
- Event ids and message ids of transitions with path separators, which the transition service refuses; of approval records,
  the place where one with a separator lands.
- The worker lease of the lifecycle transitions and the identity checks of the lease holder.
- The list-level stamp of the ledger file, and the BOARD and STATUS views, which count only as two further writes.
- fsync, temporary files, links and reparse points, directory creation, and the lock files themselves; the lock file of the
  evidence store survives process death, so an interruption is modelled as a write that fails.
- UTF-8: texts are sequences of characters.
- Regex and whitespace rules on identifiers and free text outside the codec, the assessment store and the assessor; for the
  texts of events and acceptance records they are hypotheses (`GatedReplay.Spelled`, `EventReading.SpelledEvent`,
  `AcceptanceRecords.SpelledRecord`, and `EventFiles.ReturnsOnlyInReferences` for carriage returns).
- Aliasing of the copied task mapping: tasks are values, and `Mutate` works on a local copy.
- A cancellation whose callback is ended by something other than an ordinary exception leaves its entry cancelling.
- The six-phase enumeration of retries has two phases that are never stored; they do not occur.
- The bindings of the recovered plan to the canonical outbox and model selection, after `SourcePlan` has found it.
- RetryReceipts.RetryStore.ReserveRetry: reservations are unique for each next dispatch, as the code has it, not for each
  failed attempt and generation, as its description has it.
- AssessmentStore.Store.Write: when several stored files are bad, which of the two error kinds is reported depends on the
  order of the scan and is left open.
- Server, web application, pairing, planning, scheduling stores, provider adapters and subprocess handling.
