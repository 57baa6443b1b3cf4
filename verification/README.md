# Verified model of the nanobot agent runtime

nanobot is a tool-calling agent runtime: chat channels put messages on a bus, an
agent loop routes them to per-session tasks, each task runs a bounded loop of model
requests and tool work over a message transcript, and replies go back through an
outbound dispatcher. This project models the protocols and transcript
transformations at its core and proves what they guarantee.

* **Transcript pairing** (`Transcript`, `Pairing`, `Insertion`, `Governing`,
  `Requests`, `Governor`). Providers reject a transcript in which a tool result has no
  earlier call, a call has no result, or an id has two. `Pairing` gives the two repairs as
  functions and says exactly when they change something; `Insertion` proves that the
  source's in-place insertion at a running offset is the recursive back-fill;
  `Governing` follows the repaired transcript through budgeting, in-flight
  compaction and snipping; `Requests` says what a request holds of the transcript it was
  made from, row by row; `Governor` is the same pipeline over mutable rows, which
  never changes a row it was given.
* **The run** (`Serving`, `Growth`, `Injecting`, `ToolBatches`, `LengthRecovery`,
  `RunSteps`, `RunAnswers`, `RunLog`, `Runner`, `RunReports`, `RunBounds`,
  `RunFindings`). One agent run, with its malformed-call retries, tool batches, length recovery, injections, goal continuations
  and the closing request, over an arbitrary model, arbitrary tools and an arbitrary
  injection callback. `RunSteps` is the run as a function; the object in `Runner`
  computes it step by step and logs every request, loop head, injection, checkpoint and
  point of cancellation; `RunAnswers` says which result stands under which call and whose
  words every appended row has, `RunLog` says what those logs guarantee, `RunReports` what a run
  reports, and `RunBounds` how long it can be.
* **Session log** (`SessionLog`). Saving a turn row by row, and restoring the
  checkpoint of an interrupted one.
* **Runtime context** (`RuntimeContext`). Append, detach, reattach, the
  public view, and merging of injected user rows.
* **Outbound streaming** (`Outbound`, `Streaming`). The coalescing dispatcher against
  a plain first-in first-out one, and the stream segments of a turn.
* **Session dispatch** (`Dispatch`, `Routing`, `AgentLoop`). A step system whose steps
  interleave freely, which session a message is ever found in, and the object whose
  methods are the steps.
* **Memory log and consolidation** (`MemoryLog`, `Consolidation`). Cursor allocation,
  history compaction, Dream batches, and archiving a growing transcript in chunks.
* `Seqs` and `Texts` hold the shared facts about sequences and strings.

A transcript row is `System | User | Assistant(calls) | Tool(callId)`. Token
estimators, the model, tools, hooks, prompt wording and content normalization are
function parameters, so every statement holds for all of them.

## What turned out not to hold

* *Repair without distinct ids.* The pairing of a repaired transcript needs distinct
  call ids: an id declared twice and never answered gets two results
  (`Pairing.TwiceDeclaredIsFilledTwice`). `Pairing.RepairPairsIff` gives the exact
  condition, and the same condition decides whether repairing twice is repairing once.
* *Stripping placeholders.* Placeholder rows are looked for before nameless calls are
  removed. The two stages leave one exactly when a placeholder row came with calls of
  which none has a name (`Requests.NoteIsLeftIff`).
* *Saving behind an orphan.* When the session already holds an orphan result, saving
  row by row drops a later, proper result of that id, which the batch repair keeps
  (`SessionLog.OrphanBlocksLaterResult`). The two agree on every turn exactly when the
  drop keeps a result of each id that has one in the session
  (`SessionLog.SavingIsBatchRepairIff`); a merely doubled result does no harm.
* *Length recovery.* The saved part of a truncated response that is only whitespace
  repeats that whitespace (`LengthRecovery.RestoreIsExactIff`): outer whitespace is restored
  exactly when the text is empty or not blank.
* *The closing request.* The loop's comment says that a governance failure must stop
  the run rather than send an ungoverned copy, but the request after the last
  iteration sends the bare transcript. `RunFindings.ClosingRequestIsUngoverned` runs two
  iterations with a positive budget, after which a result that was recorded as compacted
  is sent in full. Whenever normalization leaves short texts short, the closing request
  shows the recorded ids compacted exactly when none is recorded
  (`RunLog.TerminalShowsIff`, and `Runner.AgentRun.RunCore` for every run): each
  recorded id still has its large result in the transcript. Nor is it repaired. With
  distinct usable ids it is paired exactly when the transcript was that the run was started
  with (`RunLog.TerminalIsPairedIff`), while every governed request is paired;
  `RunFindings.BrokenStartIsSentOn` starts from a history with an orphan result.
* *A proper end reports completion.* The stop reason and the error are set by a fatal tool
  error, a model error and a blank reply, and stay when the run goes on because a follow-up
  was waiting. `RunFindings.FailureOutlivesReply` ends in a proper reply and reports the
  tool error of before; what it answers is not the last row of its transcript either. A run
  reports completion exactly when it ends in a proper reply and never went on behind such a
  failure (`RunReports.CompletedIff`); in general it reports its last failure
  (`RunReports.RunReportsLastFailure`).
* *Nothing is lost by a cancellation.* Each checkpoint replaces the one before, so a run
  that is cancelled behind two groups of tool calls leaves only the second in the session
  (`RunFindings.CancelLosesFirstGroup`). All that the run appended is kept exactly when it
  appended nothing but the rows of the checkpoint that was stored last
  (`RunLog.CancelKeepsAllIff`), or nothing at all.
* *Restoring behind saved rows.* A result that was shortened or filtered when it was saved
  is not recognized, and its whole group is appended a second time
  (`SessionLog.LongResultIsRestoredTwice`). However much of a group with fresh ids had been
  saved, restoring keeps the history paired exactly when saving left those rows as they
  are, or none was saved (`SessionLog.RestoredGroupIsPaired`, `RunLog.CheckpointsRestore`).
* *Stopping loses nothing.* /stop discards what waits for the session's registered turn
  after it has cancelled the session's tasks, but it does not know a turn that an automation
  dispatched directly. It discards messages exactly when such a turn is registered with
  some waiting (`Dispatch.StopDropsIff`), a run loses none exactly when no /stop in it
  meets one (`Dispatch.RunDropsNothingIff`), and `Dispatch.StopDropsFollowUp` reaches it.
* *Saving what was injected.* A follow-up that is drained after a model error or a blank
  reply has no row of the run before it. When nothing was appended yet it is folded into
  the last row the run was started with, and when the save boundary lies behind that row
  no saved row has its text (`RunFindings.FoldedFollowUpIsLost`). Injected rows stay out
  of the rows in front of the boundary exactly when they do not meet a mergeable last
  row there (`Injecting.LandsIff`); over a run, exactly when the boundary leaves that
  row in or the rows the run was started with are unchanged (`RunLog.InjectedIsSavedIff`).
* *Restoring a repeated reply.* The checkpoint of a final reply that equals the last row
  of the session is taken for a row that was already saved, and is swallowed
  (`SessionLog.RepeatedReplyIsSwallowed`). Restoring completes the group exactly when its
  saved rows are the group's own, or none was saved and the session does not end in a start
  of the group (`SessionLog.RestoreCompletesGroup`).
* *Stranded automation turns.* A deferred automation turn can be left with nobody to
  publish it: when the last unfinished task of its session is cancelled while it
  awaits `delivery.idle()`, publishing the next deferred turn is skipped.
  `Dispatch.CancelledAnnouncementStrands` reaches such a state, and a run strands
  nothing exactly when none of its steps is such a cancellation
  (`Dispatch.RunStrandsIff`, `Dispatch.StrandedIff`).
* *Continuations.* A turn that reaches its iteration limit puts its continuation into
  its own pending queue and waits for room. Along any steps but its own draining or
  ending, and /stop for a direct turn, it can do so exactly while the queue is not full,
  and a full queue stays as it is (`Dispatch.ContinuationWaitsIff`). A running turn with a full queue is reachable
  (`Dispatch.FullQueueIsReachable`), and then waits until it is cancelled.
* *Detaching text context.* Context appended to text is found again exactly when its
  joined text is not empty (`RuntimeContext.DetachAfterAppend`); normalized blocks
  always satisfy that.

## Model

| member | source | states |
|---|---|---|
| `Pairing.DropIsIdentityIff` | nanobot/agent/context_governance.py:237-261 | dropping orphans changes nothing exactly when every result follows its call and no id has two results |
| `Pairing.DropLeavesNoOrphan` | nanobot/agent/context_governance.py:237-261 | what is kept is always grounded in an earlier call and answered at most once |
| `Pairing.DropKeepsAnAnswer` | nanobot/agent/context_governance.py:243-256 | an id declared before one of its results keeps a result |
| `Pairing.DropExtendsClean` | nanobot/agent/context_governance.py:237-261 | rows appended to a clean transcript never change what is kept of it |
| `Pairing.BackfillIsIdentityIff` | nanobot/agent/context_governance.py:264-306 | back-filling changes nothing exactly when every declared id has a result |
| `Pairing.BackfillAnswersAll` | nanobot/agent/context_governance.py:264-306 | afterwards every declared id has a result, and no result is lost |
| `Pairing.BackfillOnlyInserts` | nanobot/agent/context_governance.py:289-306 | deleting the inserted rows gives the input back |
| `Pairing.BackfillStandsIn` | nanobot/agent/context_governance.py:289-306 | every inserted row has the note, and the id and name of a call of the transcript |
| `Pairing.FillCounts` | nanobot/agent/context_governance.py:285-306 | no declaration changes; an unanswered id gets one row per declaration |
| `Pairing.RepairPairsIff` | nanobot/agent/context_governance.py:76-90 | drop then back-fill always grounds and answers every call; results stay single exactly when every id declared twice keeps one of its rows |
| `Pairing.RepairPairsDistinct` | nanobot/agent/context_governance.py:76-90 | for distinct call ids the repaired transcript is perfectly paired |
| `Pairing.RepairIdempotentIff` | nanobot/agent/context_governance.py:76-90 | repairing twice is repairing once exactly when the first repair leaves no id with two results |
| `Pairing.RepairKeepsPaired` | nanobot/agent/context_governance.py:76-90 | both repairs are the identity on a perfectly paired transcript |
| `Pairing.TwiceDeclaredIsFilledTwice` | nanobot/agent/context_governance.py:285-306 | a concrete transcript with a repeated id that is given two results |
| `Insertion.InsertionIsBackfill` | nanobot/agent/context_governance.py:285-306 | filling the gaps one by one at the running offset is the recursive back-fill |
| `Insertion.InsertForRow` | nanobot/agent/context_governance.py:291-305 | the insertions for one assistant row land behind its run of results, in call order |
| `Governing.CompactLoopIsMinimal` | nanobot/agent/context_governance.py:357-380 | the compaction loop stops at the first point where all candidates are compacted, the target is met, or the budget holds with only the newest left |
| `Governing.CandidatesAreFresh` | nanobot/agent/context_governance.py:488-508 | with one result per id, candidate ids are new and distinct, so each is compacted once |
| `Governing.CandidatesAreValid` | nanobot/agent/context_governance.py:488-508 | candidates are exactly the large, unrecorded, in-flight results of compactable tools |
| `Governing.CompactOverflowShows` | nanobot/agent/context_governance.py:329-388 | only contents change, recorded ids only grow, and every recorded id is shown compacted |
| `Governing.CompactedIsNoCandidate` | nanobot/agent/context_governance.py:437-445 | a compacted result is too short to be a candidate again |
| `Governing.SnipStartIsTight` | nanobot/agent/context_governance.py:424-433 | the kept suffix fits the budget or is one row, and one more row would not fit |
| `Governing.LegalStartIsLeast` | nanobot/utils/helpers.py:464-482 | the legal start is the least start whose tail has no result without its call |
| `Governing.SnipShape` | nanobot/agent/context_governance.py:390-435 | snipping keeps the system rows and a suffix of the rest, or everything |
| `Governing.SnippedNeedsNoBackfill` | nanobot/agent/context_governance.py:390-457 | cutting a paired transcript never separates a result from its call: the second back-fill inserts nothing |
| `Governing.PreparedIsPaired` | nanobot/agent/context_governance.py:76-90 | for distinct ids the prepared request is perfectly paired, recorded ids grow, and each recorded id is shown compacted |
| `Governing.PreparedKeepsSystems` | nanobot/agent/context_governance.py:76-90 | no stage loses, changes or reorders a system row, whatever the transcript |
| `Governing.RepairedIsPaired` | nanobot/agent/context_governance.py:76-86 | stripping placeholders and nameless calls leaves the repair its guarantee |
| `Requests.StripMalformedSifts` | nanobot/agent/context_governance.py:204-226 | a row disappears exactly when it had calls, none of them named, and no content; every other row stays, in order, and of an assistant row exactly the nameless calls are gone |
| `Requests.StripPlaceholdersSifts` | nanobot/agent/context_governance.py:157-175 | exactly the assistant rows without calls whose stripped text is the placeholder disappear; the others stay unchanged, in order |
| `Requests.NoteIsLeftIff` | nanobot/agent/context_governance.py:81-82 | a placeholder is left exactly when one came with calls of which none has a name |
| `Requests.PreparedCallsAreNamed` | nanobot/agent/context_governance.py:76-90 | no request has a nameless call; each of its assistant rows is one of the transcript with its content and its named calls |
| `Requests.PreparedKeepsTurns` | nanobot/agent/context_governance.py:76-90 | the rows of a request that are no results are those the stripping left, in order, or the system rows and a tail of the others |
| `Requests.PreparedResultsAre` | nanobot/agent/context_governance.py:76-90 | each result of a request is one of the transcript, normalized, or shows its compaction text, or stands for a missing one |
| `Requests.SnipKeeps` | nanobot/agent/context_governance.py:390-457 | over the budget, as many of the last other rows are kept as fit beside the system rows, from the first user row among them on, or else from the last one there is, and from the legal start of that |
| `Governor.StripPlaceholderAssistantMessages` | nanobot/agent/context_governance.py:139-175 | exactly the placeholder rows are gone, in a list that shares the other rows |
| `Governor.StripMalformedToolCalls` | nanobot/agent/context_governance.py:177-230 | the copy-on-write loop leaves no nameless call; only they and the rows that lose all they have are gone |
| `Governor.DropOrphanToolResults` | nanobot/agent/context_governance.py:232-261 | the loop with its two id sets is the drop |
| `Governor.BackfillMissingToolResults` | nanobot/agent/context_governance.py:263-306 | the in-place insertions give the recursive back-fill |
| `Governor.CollectGaps` | nanobot/agent/context_governance.py:268-287 | the declared calls with their row indices, and the answered ids |
| `Governor.ApplyToolResultBudget` | nanobot/agent/context_governance.py:308-327 | each result is normalized, in copies only |
| `Governor.ApplyRecordedCompactions` | nanobot/agent/context_governance.py:466-486 | recorded ids show their compaction text, in copies only |
| `Governor.InflightCompactionCandidates` | nanobot/agent/context_governance.py:488-508 | the candidates, oldest first |
| `Governor.CompactInflightOverflow` | nanobot/agent/context_governance.py:329-388 | the stage and the growing id set, as specified |
| `Governor.CompactCandidates` | nanobot/agent/context_governance.py:357-380 | the loop over candidates, in copies only |
| `Governor.FindLegalMessageStart` | nanobot/utils/helpers.py:464-482 | the loop computes the legal start |
| `Governor.SnipHistory` | nanobot/agent/context_governance.py:390-435 | the snipped transcript |
| `Governor.LegalHistoryTail` | nanobot/agent/context_governance.py:447-464 | first user row of the kept part, else last user row, else the kept part, from its legal start |
| `Governor.PrepareForModel` | nanobot/agent/context_governance.py:76-90 | the whole preparation, without a nameless call; the caller's rows are never changed in place |
| `Serving.ServedKeepsPaired` | nanobot/agent/runner.py:515-588 | rows in which every assistant row is followed at once by its results in call order keep a paired transcript paired |
| `Serving.GroupKeepsPaired` | nanobot/agent/runner.py:515-588 | one group of a call row and its results keeps it paired |
| `Serving.PlainRowKeepsPaired` | nanobot/agent/runner.py:1626-1645 | a row without calls and results neither helps nor harms pairing |
| `Serving.PairedBeforeServed` | nanobot/agent/runner.py:515-588 | what is paired with served rows behind it was paired before |
| `Growth.GrowInject` | nanobot/agent/runner.py:163-238 | injecting user rows appends rows or rewrites the last one |
| `Growth.GrowFinal` | nanobot/agent/runner.py:1626-1639 | the closing row appends or rewrites the last reply, and the transcript then ends with that text |
| `Growth.GrowPlaceholder` | nanobot/agent/runner.py:1641-1645 | after a model error the transcript ends in a reply without calls |
| `Growth.GrownIsPairedIff` | nanobot/agent/runner.py:443-848 | a transcript grown with usable distinct ids is paired exactly when it was at the start |
| `Growth.EarlierIsPairedIff` | nanobot/agent/runner.py:472-486 | the same at every earlier point of the run |
| `Growth.ExtendsKeepsDistinct` | nanobot/agent/runner.py:163-238 | ids distinct at the end were distinct all along |
| `ToolBatches.PartitionToolBatches` | nanobot/agent/runner.py:1647-1670 | batches concatenate back to the calls, are single calls or maximal runs of concurrency-safe ones |
| `Runner.AgentRun.ExecuteTools` | nanobot/agent/runner.py:1359-1408 | one outcome per call, in call order, whatever the batches |
| `RunAnswers.RunAnswersItsCalls` | nanobot/agent/runner.py:511-607 | in the transcript of every run, result k behind a call row that it appended is the normalized result of the tool run made for call k of that row, the tool runs counted through all call rows; call rows hold what the model said; every other appended row is a user row, a reply of the model or a closing text |
| `RunAnswers.GroupAnswersWith` | nanobot/agent/runner.py:557-570 | the rows of one group, by the tool runs they come from |
| `RunAnswers.FatalIsFirst` | nanobot/agent/runner.py:1400-1408 | the fatal error is that of the first call, in call order, that had one |
| `RunAnswers.OnlyThirdIsTakenRaw` | nanobot/agent/runner.py:1061-1102 | no response is taken with a nameless call, but for the one to the last request, made without tools |
| `RunAnswers.TakenAreFirst` | nanobot/agent/runner.py:338-359 | what is injected are the first three of the items that are user rows or other objects with content, in order |
| `RunAnswers.WaitingAre` | nanobot/agent/runner.py:240-299 | waiting items are injected for five cycles; a goal continuation exactly when there are none and an allowed reply meets an active goal |
| `RunAnswers.ClosingWordsAre` | nanobot/agent/runner.py:1195-1241 | the closing text is the model's exactly when the call was made, did not fail, and brought text without an error and without calls; else the fallback |
| `Runner.AgentRun.AppendToolGroup` | nanobot/agent/runner.py:520-570 | the assistant row and behind it, for each call in order, the normalized result of its own tool run; the checkpoint before has all calls pending |
| `Runner.AgentRun.ToolTurn` | nanobot/agent/runner.py:511-607 | the group stays as appended; a fatal tool error ends the transcript with its text unless a follow-up waits; otherwise recovery restarts |
| `Runner.AgentRun.RequestModel` | nanobot/agent/runner.py:1059-1102 | at most three provider calls, each on the governed request plus user prompts |
| `Runner.AgentRun.Govern` | nanobot/agent/runner.py:478-482 | the next request and its recorded ids; the transcript is untouched |
| `Runner.AgentRun.DrainInjections` | nanobot/agent/runner.py:311-359 | the first three usable items, in order |
| `Runner.AgentRun.TryDrainInjections` | nanobot/agent/runner.py:240-299 | at most five cycles; the reply and then the injected rows are appended; goal continuations do not count |
| `Runner.AgentRun.Recover` | nanobot/agent/runner.py:675-699 | a truncated response is kept and a continuation is asked for, at most three times |
| `Runner.AgentRun.Settle` | nanobot/agent/runner.py:675-829 | which reply continues, which branch ends the run and with what answer, what the run then reports, and how the transcript ends: the state and outcome of the settled reply |
| `Runner.AgentRun.Iterate` | nanobot/agent/runner.py:472-829 | one governed request of the present transcript; state and outcome are those of one iteration of the run as a function |
| `Runner.AgentRun.CloseAtMaxIterations` | nanobot/agent/runner.py:828-859 | waiting follow-ups are taken in, at most one closing call is made, and the result is the closing or fallback text behind the recovered parts |
| `Runner.AgentRun.AskTerminal` | nanobot/agent/runner.py:1195-1241 | the closing call sends the bare transcript and exactly one prompt; a failure, an error or tool calls give no text |
| `Runner.AgentRun.RunCore` | nanobot/agent/runner.py:419-873 | the final state and the result, with the reason and error that were set last, are the run as a function; at each loop head and at return only the last row was ever replaced and appended rows are served; at most 15 injected rows and 3 parts; the closing call is made exactly at max iterations with finalization on, and shows recorded ids compacted exactly when there are none; every call row that was appended has the results of its own calls behind it |
| `RunReports.RunReportsLastFailure` | nanobot/agent/runner.py:426-861 | a run reports that it ran out of iterations, or else its last failure, and always the error of its last failure |
| `RunReports.CompletedIff` | nanobot/agent/runner.py:426-861 | a run reports completion exactly when it ends in a proper reply and never went on behind a fatal tool error, a model error or a blank reply |
| `RunFindings.FailureOutlivesReply` | nanobot/agent/runner.py:571-591 | a run that ends in a proper reply and reports the tool error of before |
| `RunBounds.RunBoundsHold` | nanobot/agent/runner.py:419-873 | at most 4 * max_iterations provider calls, the closing one included (one if there are no iterations); the transcript ends in a reply, which is the answer unless the run ends on a model error or behind truncated parts |
| `RunBounds.BoundIsAttained` | nanobot/agent/runner.py:472-829 | for every number of iterations some model and goal state use all of them |
| `RunBounds.IteratedBounds` | nanobot/agent/runner.py:472-829 | an iteration makes at most four provider calls, three without an earlier empty response; when it ends the run the transcript ends in a reply |
| `RunBounds.SettledBounds` | nanobot/agent/runner.py:675-829 | a settled reply makes no further call; a truncated one is recovered at most three times in a row, and a reply that ends the run closes the transcript as its kind demands |
| `RunLog.HeadsArePairedIff` | nanobot/agent/runner.py:472-486 | with usable distinct ids, both repairs are the identity at each loop head and at return exactly when the run was started with a paired transcript |
| `RunLog.ExchangesArePaired` | nanobot/agent/runner.py:478-508 | every provider call of an iteration sends a paired transcript, even from a broken start |
| `RunLog.TerminalIsPairedIff` | nanobot/agent/runner.py:1195-1213 | the closing call is paired exactly when the run was started with a paired transcript |
| `RunFindings.BrokenStartIsSentOn` | nanobot/agent/runner.py:1195-1213 | a run from a history with an orphan result: the governed request is paired, the closing one is not |
| `RunLog.TerminalShowsIff` | nanobot/agent/runner.py:1195-1213 | when normalization leaves short texts short, the closing request shows the recorded ids compacted exactly when none is recorded |
| `RunFindings.ClosingRequestIsUngoverned` | nanobot/agent/runner.py:1195-1213 | a run with a positive budget whose closing request sends a recorded result in full, for every large result |
| `Governing.RecordedHasLongRow` | nanobot/agent/context_governance.py:329-388 | an id is recorded only while the transcript itself has a large result of it |
| `RunLog.RequestsArePaired` | nanobot/agent/runner.py:460-482 | over a run recorded ids only grow, and every later governed request shows them compacted |
| `RunLog.PrepareRecords` | nanobot/agent/context_governance.py:329-388 | whatever the transcript, preparing only adds usable ids to the record |
| `LengthRecovery.RestoreIsExactIff` | nanobot/agent/runner.py:79-87 | restoring outer whitespace gives the text back exactly when it is empty or not blank |
| `LengthRecovery.RecoveredAnswerIsWhole` | nanobot/agent/runner.py:817-823 | a recovered answer is all that the model wrote, in order, stripped at its ends |
| `RunLog.RunIsSavedWhole` | nanobot/agent/loop.py:2009-2097 | of the rows a run appended all but the empty ones are saved, in order and as what is persisted of each, and every call of the saved session is answered |
| `RunLog.InjectedIsSavedIff` | nanobot/session/turn_continuation.py:184-202 | every injected row is among the rows behind the save boundary exactly when the boundary leaves the last initial row in or the initial rows are unchanged |
| `RunFindings.FoldedFollowUpIsLost` | nanobot/agent/runner.py:723-755 | a run whose follow-up is folded into its last initial row, and whose saved rows do not show it, for all texts |
| `Injecting.LandsIff` | nanobot/agent/runner.py:163-238 | injected rows stay out of the first n rows exactly when they do not meet a mergeable n-th row at the end; a fold always makes that row heavier |
| `Injecting.MergeIsHeavier` | nanobot/agent/runner.py:163-238 | folding a row with content in adds text or blocks, so a fold always shows |
| `RunLog.CheckpointsRestore` | nanobot/agent/runner.py:526-607 | every checkpoint of a run, restored behind a paired history with fresh usable ids after any part of its group was saved, keeps the history paired, with one result for each call, exactly when saving left those rows as they are or saved none |
| `RunLog.CancelKeepsAllIff` | nanobot/agent/loop.py:2134-2137 | a cancellation keeps all that the run appended exactly when that is nothing but the rows of the last checkpoint, or nothing |
| `RunFindings.CancelLosesFirstGroup` | nanobot/agent/loop.py:2134-2137 | a run cancelled behind its second group of calls, of which the session keeps only that group |
| `SessionLog.SavingIsBatchRepairIff` | nanobot/agent/loop.py:2009-2097 | saving row by row keeps on every turn exactly the results that the batch repair keeps, if and only if the drop keeps a result of each id the session has one of |
| `SessionLog.SavingIsBatchRepair` | nanobot/agent/loop.py:2009-2097 | so it does on an orphan-free session, which stays in front |
| `SessionLog.SavedIsCleanIff` | nanobot/agent/loop.py:2009-2097 | the saved session is a fixed point of the drop exactly when it was one before |
| `SessionLog.OrphanBlocksLaterResult` | nanobot/agent/loop.py:2030-2065 | a concrete session whose orphan costs a later proper result |
| `SessionLog.ServedTurnIsSavedWhole` | nanobot/agent/loop.py:2009-2097 | of a turn of the runner with fresh ids all rows but the empty ones are saved, in order, and every call is answered |
| `SessionLog.SavesInOrder` | nanobot/agent/loop.py:2030-2097 | of any turn, a row that is no result is skipped exactly when it is an assistant row without content and calls or a user row of blocks that are all filtered away, and a result exactly when its call is not declared before it or it is not the first of its id; what is saved comes in turn order, unchanged but for filtered blocks and shortened results |
| `SessionLog.SavedRowKeepsIds` | nanobot/agent/loop.py:2036-2080 | shortening and filtering of contents keep all ids |
| `SessionLog.RestoreIsLeast` | nanobot/agent/loop.py:2183-2225 | restored history ends with the whole group, one interrupted result for each pending call, nothing shorter could be appended, and restoring again adds nothing |
| `SessionLog.OverlapUpTo` | nanobot/agent/loop.py:2208-2222 | the longest overlap of session end and group start |
| `SessionLog.RestoreCompletesGroup` | nanobot/agent/loop.py:2208-2225 | whatever part of the group had been saved, restoring completes exactly the group, if and only if the saved rows are its own, or none was saved and the session does not end in a start of the group |
| `SessionLog.RepeatedReplyIsSwallowed` | nanobot/agent/loop.py:2208-2225 | the checkpoint of a final reply equal to the last row of the session adds nothing |
| `SessionLog.RestoredGroupIsPaired` | nanobot/agent/loop.py:2161-2225 | restoring a group with fresh ids keeps a paired history paired, with one result for each call, if and only if the saved rows are the group's own or none was saved; else the group comes twice |
| `SessionLog.LongResultIsRestoredTwice` | nanobot/agent/loop.py:2066-2071 | a result shortened when it was saved makes restoring append its group a second time |
| `SessionLog.GroupPrefixIsSaved` | nanobot/agent/loop.py:2009-2097 | saving keeps every row of a part of such a group |
| `SessionLog.Session.SaveTurn` | nanobot/agent/loop.py:2009-2097 | the loop with its two id sets skips and saves exactly those rows, in order |
| `SessionLog.Session.RestoreRuntimeCheckpoint` | nanobot/agent/loop.py:2161-2257 | the descending search finds the longest overlap, and the checkpoint is consumed |
| `SessionLog.Session.RestorePendingUserTurn` | nanobot/agent/loop.py:2259-2278 | an open user turn is closed by an error row, which keeps pairing |
| `RuntimeContext.DetachAfterAppend` | nanobot/runtime_context.py:120-181 | detaching after appending gives back the visible content and all of the context in order: always for blocks, for text, joined, exactly when the joined context is not empty |
| `RuntimeContext.NormalizedBlocksDetach` | nanobot/runtime_context.py:78-96 | normalized context blocks always detach |
| `RuntimeContext.DetachAfterReattach` | nanobot/runtime_context.py:148-212 | the same after reattaching; several text blocks come back as one |
| `RuntimeContext.PublicIsDetached` | nanobot/runtime_context.py:215-240 | the public view removes exactly what detaching removes |
| `RuntimeContext.MergeCommutesWithView` | nanobot/agent/runner.py:163-238 | merging two user rows merges what the user sees and keeps both contexts in order |
| `RuntimeContext.FoldShowsAll` | nanobot/agent/runner.py:163-238 | folding any number of rows shows the fold of what each showed |
| `RuntimeContext.FoldKeepsContext` | nanobot/agent/runner.py:163-238 | and keeps all context blocks in order, up to the joining of neighbouring texts |
| `RuntimeContext.InjectIsFold` | nanobot/agent/runner.py:163-238 | injection into a mergeable user row is that fold |
| `Outbound.MergeMeansBoth` | nanobot/channels/manager.py:884-900 | two messages of one stream mean the same apart and merged |
| `Outbound.ChannelManager.CoalesceStreamDeltas` | nanobot/channels/manager.py:843-906 | the merged message means the run it was made from; at most one further message is taken, and nothing is reordered |
| `Outbound.ChannelManager.ShouldSuppressOutbound` | nanobot/channels/manager.py:655-675 | a message is suppressed exactly when the last one that was sent to or as its source message, in that chat, has the same fingerprint |
| `Outbound.ChannelManager.Deliver` | nanobot/channels/manager.py:697-754 | a message is sent exactly when its channel is known, wants its kind, and it does not repeat what was last said to its source message |
| `Outbound.FifoSendsIff` | nanobot/channels/manager.py:655-754 | of any messages exactly those are sent, in queue order |
| `Outbound.DispatchSendsIff` | nanobot/channels/manager.py:677-760 | and the channels get exactly those of them that are no part of a stream, in queue order, whatever was merged |
| `Outbound.ChannelManager.DispatchOne` | nanobot/channels/manager.py:686-755 | what the channels got means what plain dispatch of the consumed messages sends; at most one message waits, and it precedes the queue |
| `Outbound.ChannelManager.DispatchOutbound` | nanobot/channels/manager.py:677-760 | each round with something waiting gets at least one message done; after enough quiet rounds all that arrived is done and means what plain dispatch of it sends |
| `Outbound.MergedMeansRun` | nanobot/channels/manager.py:843-906 | handling a merged run is handling it message by message |
| `Outbound.FifoKeepsStreams` | nanobot/channels/manager.py:677-755 | plain dispatch delivers every stream of a known channel in full |
| `Outbound.DispatchKeepsStreams` | nanobot/channels/manager.py:677-906 | so does the coalescing dispatcher |
| `Streaming.StreamIdInjective` | nanobot/agent/turn_delivery.py:278-280 | segments never share an id |
| `Streaming.PublishedSorted` | nanobot/agent/turn_delivery.py:282-313 | publishing adds to the current segment only; a final end moves on |
| `Streaming.TurnDelivery.PublishStream` | nanobot/agent/turn_delivery.py:282-291 | one delta of the current segment is published |
| `Streaming.TurnDelivery.PublishStreamEnd` | nanobot/agent/turn_delivery.py:293-313 | one end with its flags is published, and one that is not merged closes the segment for good |
| `Streaming.TurnDelivery.AbortStream` | nanobot/agent/turn_delivery.py:315-318 | an open segment gets one final end; afterwards every segment that was spoken in is past |
| `Streaming.EndToEnd` | nanobot/agent/turn_delivery.py:278-318 | whatever was merged or interleaved, the channel gets for each segment its text, and one final end if it is past |
| `Dispatch.RoutedStays` | nanobot/agent/loop.py:828-832 | rerouting keeps a message's session, id and kind |
| `Routing.RoutedBelongs` | nanobot/agent/loop.py:828-832 | a message goes to the session it names, or else, exactly when sessions are unified, to the common one, or else to its home |
| `Routing.ReachableIsRouted` | nanobot/agent/loop.py:1188-1263 | in every reachable state each message in a task, its queue, its injected rows or a deferred queue arrived for that very session and names it |
| `Routing.QueuesKeepOrder` | nanobot/agent/automation_turns.py:16-30 | the bus and every deferred queue are taken from at the head and added to at the end; what leaves a deferred queue joins the bus |
| `Routing.OnlyInItsSession` | nanobot/agent/loop.py:1188-1263 | so a message that arrived once is in no task and no deferred queue of another session |
| `Dispatch.StepConserves` | nanobot/agent/loop.py:1202-1254 | no step loses or duplicates a message |
| `Dispatch.ConsumeKeeps` | nanobot/agent/loop.py:1202-1254 | routing, with its full-queue fallback, keeps every message in exactly one place |
| `Dispatch.PublishKeeps` | nanobot/agent/automation_turns.py:16-30 | publishing the next deferred turn keeps every message |
| `Dispatch.ReachableIsSafe` | nanobot/agent/loop.py:1153-1373 | in every reachable state: one lock holder per session, registered queues belong to running turns, queues are bounded, every message is in exactly one place or was dropped by the stop command |
| `Dispatch.OnePlaceEach` | nanobot/agent/loop.py:1202-1254 | in every reachable state a message that arrived once is in exactly one place, or was dropped by the stop command |
| `Dispatch.MutualExclusion` | nanobot/agent/loop.py:1264-1274 | in every reachable state at most one task of a session is between taking the lock and finishing |
| `Dispatch.LocksStep` | nanobot/agent/loop.py:2345-2351 | every step keeps that, though idle locks expire |
| `Dispatch.RegistryStep` | nanobot/agent/loop.py:1271-1274 | every step keeps the registry to the running turn's own queue |
| `Dispatch.EndTurnUnregistersOwn` | nanobot/agent/loop.py:1344-1352 | a turn that ends finds its own queue registered, or none when it is a direct one, and leaves none |
| `Dispatch.ReachableUnmixed` | nanobot/agent/automation_turns.py:33-107 | no automation turn is mixed into a live one, in any reachable state |
| `Dispatch.FollowUpsKeepOrder` | nanobot/agent/loop.py:997-1002 | follow-ups of a running turn are taken in the order in which they were routed, unless the stop command drops those of a direct turn |
| `Dispatch.ContinuationWaitsIff` | nanobot/session/turn_continuation.py:107-142 | along any steps but the turn's own draining or ending, and the stop command for a direct turn, its continuation can be queued exactly while its queue is not full, and a full queue stays as it is |
| `Dispatch.FullQueueIsReachable` | nanobot/session/turn_continuation.py:107-142 | a reachable turn whose queue is full and that then never queues its continuation |
| `Dispatch.RunningTurnStays` | nanobot/agent/loop.py:1202-1254 | what others do leaves a running turn running and its queue no shorter |
| `Dispatch.StopDropsIff` | nanobot/command/builtin.py:202-216 | the stop command discards messages exactly when a direct turn of the session is registered with some waiting |
| `Dispatch.RunDropsNothingIff` | nanobot/command/builtin.py:202-216 | a run loses no message exactly when no stop command in it meets such a turn |
| `Dispatch.StopDropsFollowUp` | nanobot/command/builtin.py:202-216 | a reachable stop command that discards a message while the direct turn goes on |
| `AgentLoop.AgentLoop.StopSession` | nanobot/command/builtin.py:202-216 | the registered queue is popped and emptied: the stop step, and how many messages it discards |
| `Dispatch.StrandedIff` | nanobot/agent/loop.py:1367-1373 | a step keeps every deferred turn awaited exactly when it is not the cancellation of the last task's announcement |
| `Dispatch.RunStrandsIff` | nanobot/agent/automation_turns.py:90-107 | along a run no deferred turn is ever stranded exactly when no step is such a cancellation |
| `Dispatch.CancelledAnnouncementStrands` | nanobot/agent/loop.py:1367-1373 | a reachable state with a stranded turn |
| `AgentLoop.AgentLoop.ConsumeInbound` | nanobot/agent/loop.py:1188-1254 | one round of the consumer is the routing step, and puts no message where it is not meant for |
| `AgentLoop.AgentLoop.PublishInbound` | nanobot/bus/queue.py:19-21 | an arriving message joins the end of the bus |
| `AgentLoop.AgentLoop.DeferIfActive` | nanobot/agent/automation_turns.py:90-107 | an automation turn is put aside exactly when its session is active |
| `AgentLoop.AgentLoop.DrainPending` | nanobot/agent/loop.py:997-1002 | the oldest follow-ups move into the turn, at most the limit |
| `AgentLoop.AgentLoop.GetSessionLock` | nanobot/agent/loop.py:2345-2351 | the session's lock, or a new one when it has expired |
| `AgentLoop.AgentLoop.PublishNextDeferredTurn` | nanobot/agent/automation_turns.py:16-30 | the first deferred turn goes to the bus, and an emptied queue is removed |
| `AgentLoop.AgentLoop.CleanUp` | nanobot/agent/loop.py:1342-1369 | unregister, drain, announce, publish: a run of protocol steps, after which the bus holds the leftovers and the next deferred turn |
| `Dispatch.FollowConcat` | nanobot/agent/loop.py:1259-1373 | what an operation makes of a reachable state is reachable |
| `MemoryLog.CompactionKeepsPending` | nanobot/agent/memory.py:452-480 | compaction keeps a suffix of length max(limit, entries from the first pending one) and every pending entry, whatever is in the file |
| `MemoryLog.NextIsFresh` | nanobot/agent/memory.py:400-416 | fast path and full scan agree: one more than the largest cursor ever written |
| `MemoryLog.UnprocessedSifts` | nanobot/agent/memory.py:418-420 | of any file, exactly the readable entries behind the cursor, in file order |
| `MemoryLog.UnprocessedTail` | nanobot/agent/memory.py:418-420 | the unprocessed entries are those behind the cursor |
| `MemoryLog.MemoryStore.NextCursor` | nanobot/agent/memory.py:400-416 | one more than the number of entries ever written, with the counter lost or behind and the tail unreadable |
| `MemoryLog.MemoryStore.AppendHistory` | nanobot/agent/memory.py:327-341 | a fresh cursor, also after a crash between the two writes |
| `MemoryLog.MemoryStore.CompactHistory` | nanobot/agent/memory.py:452-480 | the loop computes the compacted log |
| `MemoryLog.MemoryStore.BuildDreamPrompt` | nanobot/agent/memory.py:592-618 | the oldest unseen entries, as many as allowed, with the cursor of the last; none exactly when all were seen |
| `MemoryLog.MemoryStore.SetLastDreamCursor` | nanobot/agent/memory.py:553-554 | the batch is completed |
| `MemoryLog.MemoryStore.Run` | nanobot/agent/memory.py:327-618 | over any operations, each entry ever written is in exactly one completed batch or pending in the file, in order |
| `Consolidation.PickConsolidationBoundary` | nanobot/agent/memory.py:856-876 | the first user row that removes enough, else the last one, else none |
| `Consolidation.ServedCut` | nanobot/agent/memory.py:868-876 | a cut at a user row splits no group of calls and results |
| `Consolidation.TokenCutKeepsGroups` | nanobot/agent/memory.py:856-876 | so a token cut separates no row from the results behind it, whatever the transcript, and leaves both sides of a served one served |
| `Consolidation.VisibleIsOrphanFree` | nanobot/agent/memory.py:888-922 | behind a replay cut no visible result lacks its call |
| `Consolidation.ReplayCutStarts` | nanobot/agent/memory.py:888-922 | the window of the last rows starts at its first user row, or else at the last one before it, each with a delivery right before it; the cut is the legal start of that, and there is none when it cuts nothing |
| `Consolidation.ReplayOverflowBoundary` | nanobot/agent/memory.py:888-922 | a replay cut makes progress and stays inside the transcript |
| `Consolidation.Consolidator.ArchiveUpTo` | nanobot/agent/memory.py:1010-1076 | one chunk, one history entry, which has the summary, or the raw text of the chunk when there is none; progress only through the captured rows |
| `Consolidation.Consolidator.ConsolidateReplayOverflow` | nanobot/agent/memory.py:924-952 | one chunk up to the replay cut, or nothing |
| `Consolidation.Consolidator.TokenRound` | nanobot/agent/memory.py:1129-1178 | a round archives up to the token boundary, nothing exactly when there is no user row to cut at, and lets the rounds go on exactly when a summary was made |
| `Consolidation.Consolidator.MaybeConsolidateByTokens` | nanobot/agent/memory.py:1078-1186 | it stops because the prompt fits or cannot be estimated, no user row is left, the last summary failed, or all five rounds are used; the index never falls |
| `Consolidation.Consolidator.CompactIdleSession` | nanobot/agent/memory.py:1188-1252 | the session is read again as it was stored and its whole tail archived; rows appended meanwhile stay |
| `Consolidation.Consolidator.Run` | nanobot/agent/memory.py:856-1252 | over any mix with rows appended, saved and reread meanwhile, the chunks tile the transcript up to the index, and each has its summary or raw text in its own history entry |

## Left out

- Provider transport, streaming callbacks, timeouts, usage accounting and hooks: the model response is an arbitrary input of each step; the retries inside one provider call are not counted.
- Reasoning fields, timestamps, latencies and other row metadata: a row is what the checkpoint comparison sees of role, content, ids, name and calls.
- Message ids that are not strings: the empty id stands for a missing one, and the positional id handed to the result store for a missing one is part of the content parameter.
- Unicode whitespace: blank text and stripping know the ASCII whitespace characters only.
- Governing.CompactTarget: computes 85 percent in integers, rounded down, without the rounding of the source's float product.
- Whether the final prompt fits the budget: back-filled rows and the fallback to the last user row may exceed it.
- Runner.AgentRun.DrainInjections: failures of the injection callback, and the wait for running sub-agents, are only the case of no or later items.
- Provider conversation state: only that a checkpoint of a stateful response prepares the transcript once more.
- The order among deferred turns: a turn deferred again goes to the tail.
- The number of turns the concurrency gate admits: entering the gate may be delayed arbitrarily.
- Failures while a waiting message is converted for injection, tasks cancelled before their first step, direct processing that shares the session lock, and new-session commands.
- Automation waiters and their results: only the routing and deferral of automation turns is modelled, which are assumed to be no commands.
- Send retries and backoff, and how one message is sent to a channel.
- Foreign writers of the history file: the compaction theorem covers them, the cursor theorems do not.
- The loss of the Dream cursor file, and the cursor advance while Dream is disabled.
- The prompt and the wording of summaries, summaries kept in session metadata, and session file trimming.
