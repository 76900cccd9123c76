# handoff-a2a: a verified model

This project models the parts of handoff-a2a that have to be right when several
processes, crashes and lost messages meet, and proves what they promise. A planner
writes a plan into HANDOFF.md, a short-lived client approves it and submits runs, a
loopback server launches one worker per run, and the file comes back with the
worker's notes and a Status.

Four groups of modules, each standing on the ones named before it:

- **HANDOFF.md as text** — `Text` (lines, `splitlines`), `Handoff` (structure, sections,
  the Status field, the plan and its fingerprint), `StatusWrites`, `Acceptance` (the
  server's check of a delivery), `Delivery` (what a worker may do is accepted),
  `NewlineStyle` (the same for files with `\r\n`), `Qa` (writing QA Feedback), `QaWrites` (the same with a Status to set),
  `Archive` (the archive file and its reader).
- **The execution protocol** — `Contracts` (coding requests and their hash), `Store` (the
  durable claims, as a class), `Dispatch` (submissions, acknowledgements, launches and
  restarts as a step relation), `SpawnGate` (launch thread, finalizers and lock releases
  of one runtime as a step relation), `Startup` (startup reconciliation, as a class).
- **The client workflow** — `Workflow` (receipts, rounds, reservations and every command as
  the list of file writes it performs, with a class that performs them), `Rounds`
  (invariants over all scripts of commands, each cut after any write), `Reconciliation`
  (crash convergence), `Closing` (archiving under crashes), `Custody` (which code each worker starts from), `Selection` (model
  switches under two locks, as a step relation, with a class for the switch itself),
  `QueueHistory` (what becomes of queued selections over whole runs).
- **Two self-contained algorithms** — `SetupJournal` (the rollback journal of `handoff init`)
  and `PermissionDenied` (the search of a possibly cyclic exception graph).

`dafny verify dfyconfig.toml` checks everything.

## What is assumed

- A hash stands for the text it hashes, so equal hashes mean equal texts.
- Fresh UUIDs are fresh: execution, task and workflow ids are not drawn twice, and
  submissions carry no task id chosen by the caller.
- Every execution row has a task row. The store inserts both together and the model
  never deletes either; `Dispatch.ReplyInv` is where this matters.
- Process probes are honest in one direction: a worker reported gone is gone, and a stop
  that reports success leaves no process. A live worker may be reported for a dead one.
- A terminal A2A task does not change any more, and reconciling commands run one at a
  time, because the outstanding pointer is not keyed by execution.
- Each file write is atomic; a crash falls between two writes.
- Where a lemma says `Plain`, only `\n` and `\r\n` end lines.

## Where the code falls short of its promise

Each of these is a proved statement with a concrete case, and beside it stands the
exact condition under which the promise holds.

- An empty Status value takes the next line for its value, so that the first Status write
  changes the approved plan text: `StatusWrites.EmptyStatusSwallowsBranch`; exactly when is
  `StatusWrites.StatusWriteKeepsPlan`.
- A heading behind an unusual line break in the Status value is lost with the first Status
  write: `QaWrites.StatusWriteLosesHeading`; exactly when is `QaWrites.StatusKeepsStructure`.
- The permitted edit of a `\r\n` file is accepted with the note on spacing although nothing
  changed, because the submitted text is parsed with its `\r` and the delivered one without:
  `NewlineStyle.CrlfDeliveryIsNoted`; exactly when is `NewlineStyle.PermittedEditExactly`.
- A bare `## ` line in the QA Feedback of a `\r\n` file ends the section only until the file
  is rewritten with `\n`, and the same delivery is judged differently:
  `NewlineStyle.BareHeadingIsJudgedDifferently`; exactly when is
  `NewlineStyle.JudgedLikeItsLfFormExactly`.
- Replacing QA text under a heading at the very end of the file glues the text to the
  heading, and the guard of `handoff qa` refuses the result: `Qa.UnterminatedHeadingIsLost`;
  exactly when is `QaWrites.WriteKeepsStructureExactly`.
- A line that looks like an archive header hides the archived task, and a duplicate is no
  longer refused: `Archive.HeaderLineHidesTask`; exactly when is `Archive.ArchiveRoundTripExactly`.
  An archive cut right behind its append then appends the task twice
  (`Closing.HeaderLineArchivesTwice`); without such a line never (`Closing.ArchivedOnce`).
- A worker is launched for an execution that a cancel or a shutdown had already settled:
  `Dispatch.EarlyCancelStillLaunches`, `Dispatch.ShutdownStillLaunches`; exactly when is
  `Dispatch.LaunchAfterSettlementExactly`.
- The lock release looks at `lock_acquired` before it waits and not after, so a second
  release can remove another runtime's lock: `SpawnGate.StaleReleaseSteals`; exactly which
  steps do is `SpawnGate.StealsExactly`, and releases that do not overlap never do
  (`SpawnGate.SoleReleaseNeverSteals`). Looking again before acting would repair it
  (`SpawnGate.RecheckedNeverSteals`, about that changed release).
- A shutdown or an exception between the result row and the `_finalized` flag turns a completed
  row into a failed one: `SpawnGate.ShutdownOverwritesCompleted`; exactly when a completed row
  stays is `SpawnGate.CompletedStaysExactly`.
- A crash between the reservation and the outstanding pointer leaves a reservation nothing ever
  releases: `Rounds.LeakedReservationBlocks`; exactly which crash is `Rounds.CrashLeaksExactly`.
- A crash between the two writes of a rejection leaves a run outstanding that is neither reserved
  nor consumed: `Rounds.TornRejection`; exactly which attempts do that is `Rounds.UnaccountedStep`.
- A watcher that looked before a hold was set dispatches under it, because preflight does not
  look at the hold: `Rounds.StaleWatcherDispatches`; exactly when preflight lets it is
  `Reconciliation.HeldRunIsReady`.
- A crash after the Status was restored loses the note that names the discarded Status; exactly
  when is `Reconciliation.NoteLostExactly`.
- An approval cut before its Status write is never completed by approving again, and one cut
  after it may be followed by another: `Reconciliation.ApprovalCutIsFinal`; exactly when approving
  again ends where one approval would have is `Reconciliation.ApprovalConvergesExactly`.
- Code that changes between preflight and the request is launched although it is not the
  baseline; exactly when is `Custody.EveryLaunchStartsFromItsBaseline`.
- A queued selection can take effect twice: `QueueHistory.RequestTakesEffectTwice`; only with two
  crashed publications, and what they are, is `QueueHistory.TakesEffectTwiceOnly`; exactly when the
  next process publishes it again is `QueueHistory.RepeatedExactly`.
- A failed queued switch is written down without a lock and can overwrite a newer request:
  `Selection.LateMarkLosesRequest`; exactly when is `QueueHistory.MarkLosesExactly`.
- Rollback loses a file named like the temporary sibling of a written file, leaves parents that
  `write_json` made, and loses a recorded file that was taken for a temporary sibling and then
  written again: `SetupJournal.LeftoverTmpIsLost`, `SetupJournal.MissingParentStays`,
  `SetupJournal.RewrittenTmpIsLost`; exactly when is `SetupJournal.StepUndoneExactly`.

## Model

| member | source | states |
|---|---|---|
| Handoff.StructureMeansShape | src/handoff_a2a/workspace.py:83-124 | the structure check finds no problem exactly when the three headings stand once each, in order, with no other `## ` line in Current Task |
| Handoff.StatusReadExactly | src/handoff_a2a/workspace.py:67-69 | the Status read is the trimmed value behind the first mark, the next line that is not blank where nothing stands behind it, and nothing without a mark |
| Handoff.AmbiguousExactly | src/handoff_a2a/workspace.py:127-136 | a text is ambiguous exactly if the Current Task or the QA Feedback heading stands in two of its lines |
| StatusWrites.ReadBack | src/handoff_a2a/workspace.py:67-69 | reading Status after a write gives the written value if and only if a Status line is there and ends without other text after a `\r` |
| StatusWrites.StatusWriteKeepsPlan | src/handoff_a2a/workspace.py:152-186 | a Status write leaves the plan text alone if and only if the old Status line swallowed no plan line |
| StatusWrites.StatusWriteKeepsQa | src/handoff_a2a/workspace.py:181-186 | a Status write above QA Feedback leaves that section alone |
| StatusWrites.StatusWritesKeepPlan | src/handoff_a2a/workflow.py:221-223 | over any sequence of Status writes the plan text stays and the last status written is the one read |
| StatusWrites.EmptyStatusSwallowsBranch | src/handoff_a2a/workspace.py:24 | with an empty Status the Branch line drops out of the plan text until the first write |
| Acceptance.FingerprintsAgree | src/handoff_a2a/workspace.py:163-173 | normalised fingerprints agree exactly when plan and QA part each do: the joint text cannot trade lines between them |
| Acceptance.JudgeAccepts | src/handoff_a2a/workspace.py:655-672 | a sound document is accepted exactly on READY FOR QA with equal normalised fingerprints, and the note marks a difference in spacing |
| Acceptance.ComparedBySignificantLines | src/handoff_a2a/workspace.py:283-299 | the comparison ignores a line exactly if it is blank or `---` with blanks behind it, and holds exactly if the other lines agree one by one, in order, up to trailing blanks |
| Acceptance.AcceptedExactly | src/handoff_a2a/workspace.py:636-672 | soundness: a delivery is accepted exactly when it is well formed, reads READY FOR QA, and every line of Current Task (but for Status) and QA Feedback that is neither blank nor a rule is the submitted one, in order, up to trailing blanks |
| Acceptance.AcceptedKeepsSections | src/handoff_a2a/workspace.py:139-173 | in terms of the files: after an accepted delivery the lines between the Current Task heading and the next heading, but for Status, blanks and rules, and those of QA Feedback, are the submitted ones in order |
| Delivery.PermittedEditIsAccepted | src/handoff_a2a/workspace.py:636-672 | completeness for a document with `\n` endings: setting Status and rewriting Execution Notes is accepted with no note and an unchanged fingerprint and plan, if and only if the submitted Status swallowed no plan line |
| Delivery.DeliveredShape | src/handoff_a2a/workspace.py:92-124 | the permitted edit keeps the three headings where they belong |
| NewlineStyle.PermittedEditExactly | src/handoff_a2a/workspace.py:593-672 | completeness in either newline style: the permitted edit is accepted with no note if and only if no `\r` stands in an owned part, no bare `## ` line in QA Feedback, and the Status swallowed no plan line; where it swallowed none, the plan stays, a bare heading alone refuses the edit, and a `\r` alone sets the note |
| NewlineStyle.CrlfDeliveryIsNoted | src/handoff_a2a/workspace.py:593-672 | a `\r\n` document every permitted edit of which is accepted with the note |
| NewlineStyle.JudgedLikeItsLfFormExactly | src/handoff_a2a/workspace.py:636-672 | a well-formed `\r\n` document is judged like its `\n` form -- accepted alike, for the same reason -- whatever is delivered, if and only if no bare `## ` line stands in its QA Feedback |
| NewlineStyle.JudgedIdenticallyExactly | src/handoff_a2a/workspace.py:636-672 | the note agrees as well, whatever is delivered, if and only if also no `\r` stands in an owned part |
| NewlineStyle.BareHeadingIsJudgedDifferently | src/handoff_a2a/workspace.py:26 | a well-formed `\r\n` file and a delivery that is refused for it and accepted for its `\n` form |
| QaWrites.WriteKeepsBytes | src/handoff_a2a/workspace.py:206-234 | with or without a Status to set, every byte up to the QA body is kept but the first Status value, append keeps the old body, and new text uses only the heading's line ending; with no Status line above, the first one of the QA text is set |
| QaWrites.LastWriterWins | src/handoff_a2a/workspace.py:226-234 | a later replace gives the same document whatever text and Status an earlier replace wrote |
| QaWrites.AppendedBelowBlank | src/handoff_a2a/workspace.py:218-226 | between the old QA text and appended text stands one empty line, unless the old text ends with one |
| QaWrites.RefusedExactly | src/handoff_a2a/workspace.py:206-217 | a QA write is refused, with a problem named, exactly if not one line is the QA heading |
| Qa.PayloadLines | src/handoff_a2a/workspace.py:197-203 | the payload has exactly the lines of the given text, in order, with one empty line more only after an unusual final line break |
| QaWrites.WriteKeepsStructureExactly | src/handoff_a2a/workspace.py:206-234 | for QA text without a required heading line, a QA write keeps a document well formed exactly if the text does not run into the heading line and the Status value replaced hides no required heading, as one in the QA text never does |
| QaWrites.WriteKeepsPlanExactly | src/handoff_a2a/integration.py:1477-1498 | a QA write leaves the plan text alone exactly if it sets no Status or the old Status line swallowed no plan line |
| QaWrites.StatusKeepsStructure | src/handoff_a2a/workspace.py:181-186 | a Status write keeps a document well formed exactly if the old value holds no required heading behind an unusual line break |
| QaWrites.StatusWriteLosesHeading | src/handoff_a2a/workspace.py:181-186 | a well-formed document whose Execution Notes heading the first Status write removes |
| Qa.UnterminatedHeadingIsLost | src/handoff_a2a/workspace.py:213-226 | replacing under an unterminated QA heading destroys the heading |
| Qa.StatusSetInHead | src/handoff_a2a/workspace.py:231-234 | setting Status changes its first value and nothing of the new QA text |
| Archive.ArchiveRoundTripExactly | src/handoff_a2a/workflow.py:296-314 | the reader recovers exactly the archived plan, header and entry number if and only if no archived line looks like a header |
| Archive.ReArchiveRefusedExactly | src/handoff_a2a/workflow.py:317-328 | an immediate re-archive is refused exactly when the plan of the file is the archived one |
| Archive.RefusedAfterStatus | src/handoff_a2a/workflow.py:317-328 | after a Status write, in either newline style, it is refused exactly if the Status line had swallowed no plan line |
| Archive.RefusedAfterQa | src/handoff_a2a/workflow.py:317-328 | likewise after a QA write, and always if that sets no Status |
| Archive.RefusedAfterDelivery | src/handoff_a2a/workflow.py:317-328 | likewise after a delivery that rewrote Execution Notes |
| Archive.HeaderLineHidesTask | src/handoff_a2a/workflow.py:300-314 | a header-like line below the task heading makes the reader find nothing, and nothing is refused |
| Closing.ArchivesExactly | src/handoff_a2a/workflow.py:331-401 | an archive is written exactly if nothing is outstanding, the document is sound, not the one archived last and of the approved plan, and Status is APPROVED or, to supersede, the rounds are used up with none reserved; the receipt is closed accordingly, and a refused archive writes nothing |
| Closing.SupersededIsExhausted | src/handoff_a2a/workflow.py:356-365 | over every script of cut commands a superseded receipt has used up its rounds and holds no reservation |
| Closing.ArchivedOnce | src/handoff_a2a/workflow.py:331-401 | an archive cut after any write and run again leaves the task in the archive once, as its next entry, and the receipt gone unless the cut fell right behind the append |
| Closing.HeaderLineArchivesTwice | src/handoff_a2a/workflow.py:317-328 | with a header-like line below the task, that cut and a second run append it twice |
| Contracts.ParseOfDict | src/handoff_a2a/contracts.py:118-168 | a request comes back from its dictionary form exactly when it is valid |
| Contracts.ParsedIsValid | src/handoff_a2a/contracts.py:136-168 | validation produces nothing but valid requests, of payloads that name the profile |
| Contracts.ReceivedIsSent | src/handoff_a2a/client.py:360-373 | a valid request survives the message transport, which turns integers into doubles |
| Contracts.RetransmissionIsTheSame | src/handoff_a2a/client.py:551-580 | however often it is saved, sent and parsed again it is the same request |
| Contracts.HashTellsRequestsApart | src/handoff_a2a/contracts.py:41-45 | two requests have the same canonical hash exactly when they are equal |
| Store.SqliteState.Claim | src/handoff_a2a/store.py:100-156 | a claim is made once with its task, returned unchanged to the same request, and refused to a different one |
| Store.SqliteState.TryDispatch | src/handoff_a2a/store.py:190-199 | exactly a claimed row is taken over, once, and nothing else changes |
| Store.SqliteState.PersistTaskOutcome | src/handoff_a2a/server.py:112-137 | a terminal task is never overwritten |
| Store.SqliteState.ListNonterminal | src/handoff_a2a/store.py:174-180 | every row that is not terminal is listed, once |
| Dispatch.OnMessageSend | src/handoff_a2a/server.py:1098-1126 | run alone, a request is refused if its id belongs to another one, passed on exactly when its claim is open, and answered from the store otherwise |
| Dispatch.StepInv | src/handoff_a2a/server.py:1098-1126 | every step of calls, runtimes, cancels, restarts and a lossy, duplicating network keeps the dispatch invariant |
| Dispatch.ReplyInv | src/handoff_a2a/server.py:1122-1126 | a call that lost the race never dispatches, because its row has a task |
| Dispatch.AtMostOneLaunch | src/handoff_a2a/server.py:1098-1126 | over every run no execution is dispatched twice or launches two workers, and what is launched is the request first claimed |
| Dispatch.ChangedRequestNeverLaunches | src/handoff_a2a/store.py:117-122 | a request refused as changed is never launched |
| Dispatch.AcksAgree | src/handoff_a2a/client.py:425-432 | every acknowledgement of an execution, and its run record, carries one task id |
| Dispatch.AckIsRecorded | src/handoff_a2a/client.py:425-432 | from the first acknowledgement that arrives on, the run record carries its task id, whatever happens after |
| Dispatch.SavedRequestNeverConflicts | src/handoff_a2a/client.py:551-580 | retransmitting a saved request never conflicts, if nobody else uses its id |
| Dispatch.LaunchAfterSettlementExactly | src/handoff_a2a/server.py:755-812 | a worker launches for an execution already settled exactly when a cancel came before its runtime was registered, or a shutdown reconciled before its launch |
| Dispatch.EarlyCancelStillLaunches | src/handoff_a2a/server.py:774-789 | a run in which the cancelled execution launches all the same |
| Dispatch.ShutdownStillLaunches | src/handoff_a2a/server.py:755-762 | a run in which an execution that a shutdown put into recovery launches all the same |
| SpawnGate.StepKeeps | src/handoff_a2a/server.py:414-571 | every step of launch thread, coroutine, finalizers and releases keeps the gate invariant |
| SpawnGate.FinalizedIsQuiet | src/handoff_a2a/server.py:448-571 | once finalize has returned anything but recovery, or the lock was given back, no worker is alive then or after any further steps, and none is launched |
| SpawnGate.LiveWorkerKeepsLock | src/handoff_a2a/server.py:461-471 | a live worker, also one whose stop was not confirmed, keeps the lock |
| SpawnGate.FinalizeReturns | src/handoff_a2a/server.py:472-577 | over every run a finalizer returns recovery exactly if the stop was not confirmed, then marks the row so and keeps the lock; otherwise it returns the kind it was asked for, with no worker left, that kind in the row unless the coroutine wrote over it, and the lock given back unless a probe still reports the group |
| SpawnGate.LiveWorkerRow | src/handoff_a2a/server.py:472-577 | while a worker is alive its row says running or recovery required, or failed if the exception handler wrote that; never canceled, completed or rejected |
| SpawnGate.RecoveryIsMarked | src/handoff_a2a/server.py:478-506 | whenever finalize answers recovery, also to later callers, the row says so unless the exception handler wrote over it |
| SpawnGate.PublishedOutcomeIsRow | src/handoff_a2a/server.py:1042-1078 | the outcome that is published is the one in the row unless a finalizer wrote over it |
| SpawnGate.StealsExactly | src/handoff_a2a/server.py:461-471 | a step removes another runtime's lock exactly when it acts on a lock this runtime gave back before and another one has taken |
| SpawnGate.SoleReleaseNeverSteals | src/handoff_a2a/server.py:461-471 | a run in which at most one release at a time is between its look and its act removes no other runtime's lock |
| SpawnGate.StaleReleaseSteals | src/handoff_a2a/server.py:461-471 | as the code stands, an interleaving removes another runtime's lock |
| SpawnGate.SealedRowStays | src/handoff_a2a/server.py:473-481 | once the outcome is published, no finalizer is at work and no exception handler is under way, the row is final |
| SpawnGate.CompletedStaysExactly | src/handoff_a2a/server.py:846-860 | over every run a completed row stays exactly as long as no finalizer settles or gives up and no exception handler writes; none does once the outcome is published, unless it had begun before |
| SpawnGate.ShutdownOverwritesCompleted | src/handoff_a2a/server.py:1034-1078 | before that, a shutdown can turn a completed row into a failed one |
| Startup.Server.ReconcileStartup | src/handoff_a2a/server.py:640-675 | the pass settles every row, task and the lock as specified, and is a restart to the dispatch protocol |
| Startup.Server.ReconcileClaim | src/handoff_a2a/server.py:677-711 | one row: failed if interrupted, recovery otherwise, with the lock removed only for its owner; a row whose worker is still alive goes to recovery and the lock stays |
| Startup.Server.ReleaseLockIfOwner | src/handoff_a2a/workspace.py:423-440 | only a lock whose owner.json names the execution is removed |
| Startup.RowSettled | src/handoff_a2a/server.py:677-753 | no row stays claimed or running; a row is failed exactly if its worker was seen gone or stopped, or it was claimed and never had one, and failing it went through, and is marked for recovery otherwise; a task agrees with its terminal row; terminal rows and tasks are left alone |
| Startup.LiveWorkerIsKept | src/handoff_a2a/server.py:677-711 | with honest probes, a row whose worker is alive after the pass is marked for recovery, its task asks for input, and its lock stays |
| Startup.LockGivenUpExactly | src/handoff_a2a/workspace.py:423-440 | the pass gives the lock up exactly when owner.json names a row it fails |
| Startup.SecondPassChangesNothing | src/handoff_a2a/server.py:640-650 | a second pass in an unchanged world changes no row, no task and no lock |
| Startup.PassIsRestart | src/handoff_a2a/server.py:652-675 | after the pass every terminal row has a terminal task and no row is claimed or running |
| Reconciliation.ApprovesExactly | src/handoff_a2a/workflow.py:104-153 | an approval saves a receipt exactly if Status may be approved, the plan is unambiguous, and, where a receipt is open, the plan is another one, nothing is outstanding and the tree is clean if a baseline would move |
| Reconciliation.FirstApproval | src/handoff_a2a/workflow.py:154-190 | a first approval makes a receipt with nothing used, reserved or held, whose parent and baseline are those of the receipt superseded last |
| Reconciliation.ApprovalKeepsRounds | src/handoff_a2a/workflow.py:104-218 | a re-approval keeps id, rounds, reservation and hold, needs a changed plan and no outstanding run, and moves the baseline to a clean tree only |
| Reconciliation.ApprovedIsReadyExactly | src/handoff_a2a/integration.py:272-411 | after an approval preflight passes exactly if the Status line had swallowed no plan line, nothing is outstanding, a round is left and the code fits |
| Workflow.Repo.Approve | src/handoff_a2a/workflow.py:104-223 | an approval performs exactly the listed writes |
| Workflow.Repo.ReserveRound | src/handoff_a2a/workflow.py:233-248 | a round is reserved exactly when none is reserved and one is left |
| Workflow.Repo.ConsumeRound | src/handoff_a2a/workflow.py:258-267 | consuming is idempotent per execution and frees its reservation |
| Workflow.Repo.PrepareRequest | src/handoff_a2a/integration.py:645-710 | a dispatch performs exactly the listed writes, with the code read once by preflight and once for the request |
| Reconciliation.DispatchesExactly | src/handoff_a2a/integration.py:272-411 | a dispatch writes exactly if nothing is outstanding, an open receipt approves the plan, Status is READY FOR EXECUTION or CHANGES REQUESTED, a round is left, and the code is the baseline or clean; the run then carries the Status and code it was read with |
| Workflow.Repo.ReconcileRun | src/handoff_a2a/integration.py:761-896 | a reconciliation performs exactly the listed writes, which come to what the next rows say |
| Reconciliation.CompletedDelivery | src/handoff_a2a/integration.py:854-879 | a completed run whose worker has stopped is charged; if its result names it and left the plan alone, nothing is outstanding, Status reads READY FOR QA exactly if there is a Status line, its code is the new baseline and nothing can be dispatched; otherwise pointer and text stay |
| Reconciliation.UnsuccessfulRun | src/handoff_a2a/integration.py:880-896 | a failed or canceled run whose worker has stopped is settled as what its task says, charged once, holds dispatch, and notes a Status the worker wrote |
| Reconciliation.RejectedRun | src/handoff_a2a/integration.py:842-845 | a rejected run gives its reservation back and costs nothing |
| Reconciliation.UnfinishedRun | src/handoff_a2a/integration.py:761-853 | a run that needs recovery, is not over or is not said to have stopped stays outstanding with the text as it is, is charged once its worker was seen started, and holds dispatch exactly for recovery |
| Reconciliation.SubmittedStatusRestored | src/handoff_a2a/integration.py:732-758 | whatever cut commands come between, a run found failed or canceled leaves the Status it was dispatched with, exactly if there is a Status line |
| Workflow.Repo.ArchiveCurrent | src/handoff_a2a/workflow.py:331-401 | an archive is refused as the listed checks say, a duplicate among them, and otherwise performs exactly the listed writes, the append to the archive file between closing and dropping the receipt |
| Rounds.CutInv | src/handoff_a2a/workflow.py:233-267 | every command, cut after any write, keeps the accounting invariant |
| Rounds.RoundsAccounted | src/handoff_a2a/workflow.py:233-267 | over every script `rounds_used` counts the distinct consumed ids, the reserved id is not consumed, used plus reserved stays within the limit, and the outstanding run is reserved or consumed all along if and only if no rejection of an uncharged run was cut between its two writes |
| Rounds.UnaccountedStep | src/handoff_a2a/integration.py:842-845 | from any reachable state, one more attempt leaves the outstanding run neither reserved nor consumed exactly if it cuts such a rejection |
| Rounds.TornRejection | src/handoff_a2a/integration.py:842-845 | a dispatch and a cut rejection that do |
| Rounds.ChargedExactly | src/handoff_a2a/integration.py:842-896 | completed, failed and canceled runs are charged exactly once, rejected ones only if seen started before |
| Rounds.CrashLeaksExactly | src/handoff_a2a/integration.py:688-705 | a dispatch cut after any number of writes leaves a reservation with no run outstanding exactly if it was cut between the two |
| Rounds.LeakedReservationBlocks | src/handoff_a2a/workflow.py:239-248 | no command sequence ever dispatches under such a receipt again |
| Rounds.HeldUntilAsked | src/handoff_a2a/integration.py:1355-1426 | once held, no watch ticks, resumes, polls, cancels, re-approvals, archives or edits dispatch under that receipt; only an explicit execute does |
| Rounds.StaleWatcherDispatches | src/handoff_a2a/integration.py:924-931 | a watcher that looked too early dispatches under the hold and clears it whenever preflight passes |
| Reconciliation.ReconcileConverges | src/handoff_a2a/integration.py:761-896 | cut after any write and run again, a reconciliation ends like one uninterrupted run, but for a note |
| Reconciliation.ReconcileConvergesLater | src/handoff_a2a/integration.py:761-896 | so it does when the second run finds other code, lifecycle marks or a lock given back: only the note and a baseline already saved can differ |
| Reconciliation.NoteLostExactly | src/handoff_a2a/integration.py:876-888 | exactly when that note is lost |
| Reconciliation.ClearedOnlyWhenStopped | src/handoff_a2a/integration.py:513-539 | the outstanding pointer is cleared only when the worker's stop is confirmed |
| Reconciliation.ClearedOnlyWhenDead | src/handoff_a2a/integration.py:513-539 | at any cut the outstanding pointer goes only when the worker is dead, its task over and no recovery needed |
| Reconciliation.UnsuccessfulDelivery | src/handoff_a2a/integration.py:744-758 | after a failed or canceled delivery dispatch is held and Status is the submitted one, never READY FOR QA or APPROVED |
| Reconciliation.FailedRunStaysHeld | src/handoff_a2a/integration.py:849-895 | from the reconciliation of a failed or canceled run on, nothing but an explicit execute puts another run under its receipt outstanding |
| Reconciliation.HeldRunIsReady | src/handoff_a2a/integration.py:272-411 | preflight of a held failed run passes exactly on plan, baseline and rounds |
| Reconciliation.ApprovalCutIsFinal | src/handoff_a2a/workflow.py:132-135 | a second approval never completes one cut before its Status write |
| Reconciliation.ApprovalConvergesExactly | src/handoff_a2a/workflow.py:104-223 | approving again after a cut ends where one approval would have exactly if, cut before the Status write, there is no Status to change, and, cut after it, the Status line had swallowed no plan text or a changed plan may not be approved |
| Custody.StepKeeps | src/handoff_a2a/workflow.py:154-218 | every command cut anywhere keeps each receipt's baseline equal to the last one recorded for it |
| Custody.EveryRunStartsFromItsBaseline | src/handoff_a2a/integration.py:317-336 | over every run, from any set of closed receipts, each dispatch passed preflight on the code recorded last for its receipt or inherited from its parent, or on a clean tree if none was |
| Custody.EveryLaunchStartsFromItsBaseline | src/handoff_a2a/workspace.py:593-634 | each launched worker starts on the baseline its dispatch was checked against, or on that clean tree, if and only if the code did not change between preflight and request |
| Selection.StepKeeps | src/handoff_a2a/selection.py:143-211 | every step of executes, switches, queueing, crashes and lock removal keeps the selection invariant |
| Selection.ReachableRun | src/handoff_a2a/integration.py:932-967 | from reservation to reconciliation server.json does not change and has the identity verified for the run |
| Selection.ServerHistory | src/handoff_a2a/selection.py:143-188 | each published switch raises the generation by one, each failed start restores exactly, and a queued request is not published twice in a row |
| QueueHistory.TakesEffectTwiceOnly | src/handoff_a2a/selection.py:368-418 | over every run a queued request that took effect is published again only if the process behind the first publication crashed before it removed the request, and so did that of an explicit switch in between |
| QueueHistory.RequestTakesEffectTwice | src/handoff_a2a/selection.py:190-211 | a run in which one request takes effect twice |
| QueueHistory.RepeatedExactly | src/handoff_a2a/selection.py:368-418 | in every run a request that took effect and is still queued is published again by the next process that takes it up exactly if the last switch that took effect is an explicit one to another choice by a process that crashed; otherwise it is only removed |
| QueueHistory.LeavesExactly | src/handoff_a2a/selection.py:368-418 | a queued request leaves the file exactly by its own application or failure, an explicit switch, a newer request, a cancel, damage, or a late failure mark of an older request |
| QueueHistory.MarkLosesExactly | src/handoff_a2a/selection.py:403-407 | a failure mark finds its own request queued exactly if the file did not change since it was read, and loses another one exactly if that was queued since |
| QueueHistory.ReservesOnlyAfterClear | src/handoff_a2a/integration.py:910-921 | in every run a process that reserves has, since it began, seen a moment with nothing queued, failed or unreadable |
| QueueHistory.PublishesOnlyAfterIdle | src/handoff_a2a/selection.py:143-188 | in every run a process that publishes has, since it began, held both locks with no run outstanding or executing and the service stopped or verified |
| QueueHistory.SwitchedServiceRuns | src/handoff_a2a/selection.py:163-188 | a successful switch leaves server.json, the running service and the wanted selection agreeing |
| QueueHistory.FailedSwitchIsMarked | src/handoff_a2a/selection.py:403-409 | a process whose queued switch fails, and that ends without crashing, has marked the request failed |
| QueueHistory.AppliedSwitchIsRemoved | src/handoff_a2a/selection.py:398-402 | a process whose selection is published or there already, and that ends without crashing, has removed the pending file |
| Selection.ManagedFiles.SwitchLocked | src/handoff_a2a/selection.py:143-188 | server.json is the candidate of the next generation, or exactly what it was; every outcome, and what runs after it, has its exact condition |
| Selection.ManagedFiles.ApplyPending | src/handoff_a2a/selection.py:368-418 | every outcome has its exact condition: a queued request is applied if and only if nothing is unresolved, it is valid, and it is selected already or the switch goes through; dispatch proceeds only with the queue empty, at a cost of one generation at most |
| Selection.LateMarkLosesRequest | src/handoff_a2a/selection.py:403-407 | a late failure mark overwrites a newer request |
| SetupJournal.SetupUndone | src/handoff_a2a/setup.py:292-338 | after any sequence of safe journaled steps, failed ones included, rollback restores the starting tree exactly |
| SetupJournal.StepUndoneExactly | src/handoff_a2a/setup.py:300-338 | from any state the journal accounts for, one more step of any kind can be rolled back if and only if it is safe: it treats the temporary sibling as journaled, makes no unjournaled directory, and touches no recorded file that is gone |
| SetupJournal.LeftoverTmpIsLost | src/handoff_a2a/setup.py:320-324 | a file named like the temporary sibling is lost |
| SetupJournal.MissingParentStays | src/handoff_a2a/client.py:172-177 | a missing parent directory stays behind |
| SetupJournal.RewrittenTmpIsLost | src/handoff_a2a/setup.py:309-324 | a recorded file taken for a temporary sibling and then written again is lost |
| SetupJournal.WriteTextWrites | src/handoff_a2a/setup.py:316-324 | a text or JSON write puts exactly this file in place and leaves no temporary sibling |
| SetupJournal.CopyTreePlants | src/handoff_a2a/setup.py:292-324 | a copied tree is there node by node and nothing beside it changes |
| SetupJournal.Journal.Mkdir | src/handoff_a2a/setup.py:300-307 | exactly the missing directories are made and recorded, topmost first |
| SetupJournal.Journal.BeforeWrite | src/handoff_a2a/setup.py:309-314 | the first sight of a file is recorded: its bytes, or that it was not there |
| SetupJournal.Journal.WriteText | src/handoff_a2a/setup.py:320-324 | a journaled write is one step of the specification |
| SetupJournal.Journal.WriteJson | src/handoff_a2a/setup.py:316-318 | likewise, with its parents made |
| SetupJournal.Journal.Rollback | src/handoff_a2a/setup.py:326-338 | the three loops compute the undone tree |
| PermissionDenied.PermissionDenied | src/handoff_a2a/processes.py:69-89 | the search terminates on any exception graph and is true exactly when a permission error is reachable through causes, unsuppressed contexts or nested exceptions |

## Left out

- HTTP, JSON-RPC, protobuf and the event queue of the A2A SDK: delivery is a set of messages that may be lost or repeated, and one `execute` call follows each dispatch.
- git, `ps`, signals, sockets and SQLite itself: oracles, maps and parameters; `code_fingerprint` is an opaque value.
- Signal escalation in `stop_owned` and `wait_owned`: a confirmed stop is one step.
- The Branch and Execution Notes fields of a parsed document, branch checks of preflight, and the wording of diffs and messages.
- The clock: stamps in receipts, headers and records; an archive header is any one line that starts like one.
- Line separators other than `\n` and `\r\n` in the acceptance and archive results, which ask for `Plain` texts; `Qa` and `QaWrites` treat all of them, but for the plan text.
- Symbolic links and file modes in `SetupJournal`.
- The merge of a nested journal when the planner skill is installed.
- A receipt with `max_rounds` 0, which the configuration refuses, keeps it on re-approval.
- Provider discovery, planner and skill files, reporting, argument parsing and display.
- Two reconciliations of one run at the same time: the outstanding pointer is not keyed by execution.
- Contracts.HashTellsRequestsApart: SHA-256 over canonical JSON is taken as injective, so the dictionary stands for its hash.
- Contracts.ReceivedIsSent: numbers that are no doubles are represented by what the nearest double is, given as a parameter.
- Dispatch.EarlyCancelStillLaunches: how the SDK orders a cancel against the start of an execution is not visible; the model allows any order.
- Qa.StatusSetInHead: stated for a Status line above the QA heading that ends with `\n`.
- QaWrites.WriteKeepsBytes: with a Status to set, stated for a Status line on a `\n`-line above the QA heading, or for none in a head that ends with `\n`, as is LastWriterWins; a QA heading that ends with a lone `\r` or with the file, below no such line, is not covered.
- NewlineStyle.JudgedLikeItsLfFormExactly: asks that the Current Task heading carries no trailing blanks, as do JudgedIdenticallyExactly and PermittedEditExactly.
- Custody.EveryLaunchStartsFromItsBaseline: the server's other checks at launch -- branch, HEAD and HANDOFF bytes -- are not in the way of a launch here.
- Archive.ReArchiveRefusedExactly: files are read as text, so that no `\r` occurs in what is archived.
- Selection.ReachableRun: `handoff server start` and `stop` are single steps, and the port is not modelled.
