# AetherCore backend: a verified model

A Dafny 4.11 model of the parts of the AetherCore backend that keep hard state, with proofs about every
interleaving or every input.  Check it with `dafny verify dfyconfig.toml`.

Each module has the same shape.  A datatype holds the state, functions say what one step does to it, and,
where the backend changes objects in place, a class carries the fields and its methods are proved against
those functions.  A step is one block under a lock, one database transaction, or one stretch of code
between two awaits.  The main results are lemmas over all legal sequences of steps.  Every lemma carries
`{:induction false}`: proofs by induction are written out.

| Module | What it models |
|---|---|
| `Lifecycle` | drain lease, nested admission through a context variable, work keys held by tasks |
| `RestartControl` | any number of restart guards against one service; late, lost and stray requests |
| `RunSlots` | start, two-phase resume and close of agent runs; the run table as a guard across processes |
| `RunFeed` | commit, fan-out, subscription and replay of a run's events |
| `LiveView` | the live view of a run as a fold of its events |
| `RunDriver` | the driver coroutine of a run and what it leaves in the run row |
| `RunContext` | the active run and the last stopped run of a session |
| `ToolHistory` | tool calls and results over sequences of runs: recovery, repair, id checks |
| `VisibleReply` | which message of a run is visible, and the transcript beside it |
| `TurnLoop` | retry budget, turn, continuation and stall limits |
| `SkillStore`, `SkillInstall` | content-addressed packages with collection; install with rollback |
| `Checkpoints` | generation-stamped checkpoints of a session and their two stores |
| `AuditIndex` | the audit transcript index as a derived table; paging |
| `Backfill` | the crash-restartable identity repair |
| `Sampling` | layered sampling parameters, their sources, and the summary shown to users |
| `Publishing` | the extension store's optimistic concurrency |
| `DurableIo` | background writes that are finished although their caller is cancelled |

## Where the code does less than it promises

Each of these is proved by a concrete input or run, next to the exact condition under which the promise holds.

- `resume_waiting_agent_run` also returns the row when its update did not apply (backend/app/services/store.py:2556-2569),
  so a second answer to the same question is let through at backend/app/services/agent_run_service.py:224-226 and later
  fails the row of the live run (`RunSlots.SecondResumerFailsLiveRun`).  The second locked block of a resume does not look
  at the row again (`RunSlots.GuardedUnlessSlip` lists every step that does this; `RunSlots.OrderlyCallersKeepTheGuard`
  says what callers have to keep to).
- Events committed by `fail_agent_run`, `cancel_orphan_agent_run` or a publish that raises after its commit are never fanned
  out; a subscriber misses exactly those (`RunFeed.OutsideEventIsMissed`, `RunFeed.DeliveryIsGapFree`).
- A batch refused for repetition stays stored as a completed, uncommitted response.  Recovery brings its calls back.  If their ids
  are taken by then, two calls share one result (`ToolHistory.StalledCallComesBack`; `ToolHistory.OneResultPerCallExactly` says
  when).  Recovery also appends the refused response as a visible message behind the final answer, which then disappears
  from the transcript (`VisibleReply.RecoveredReplyHidesAnswer`).
- An aborted event that carries text puts it in place of what the deltas built, which may lack its end
  (`LiveView.AbortReplacesText`, `LiveView.AbortMustBeFaithful`).
- A plain asyncio task that outlives its operation can be refused during a drain (`Lifecycle.PlainTaskCanBeRefused`).
- A waiting run whose terminal publish raises after its commit gets a second completed event (`RunDriver.WaitingRunEndsTwice`,
  `RunDriver.CompletedOnce`).  A cancellation that reaches the driver while it settles a stopped run, writes the session or
  cancels subagents leaves the row as active as it was, without a terminal event (`RunDriver.CutDriveLeavesRow`).
- A crash while a package is being removed leaves a directory that later references take for the whole package
  (`SkillStore.HalfRemovedPackageIsReused`).
- Two skills with one directory name defeat the rollback of an installation (`SkillInstall.FirstOfTwoStays`,
  `SkillInstall.RollbackRestoresExactly`).
- The key of the audit index does not see a message that is taken back and put back unchanged.  A builder that reads in between
  leaves an index without the message under the current key (`AuditIndex.TakenBackMessageIsMissing`).  What writers do is safe
  for every builder exactly if no key returns (`AuditIndex.SafeExactlyIfNoneReturns`).
- A crash inside the write of a backup makes every later repair of that session fail (`Backfill.HalfWrittenBackupBlocks`,
  `Backfill.RepairFailsExactly`).
- The base version of a first publication is unchecked, so the chain of base versions can become a circle
  (`Publishing.FirstBaseCanBeReused`).

## Model

| member | source | states |
|---|---|---|
| `Lifecycle.LifecycleService.IsDraining` | backend/app/services/lifecycle_service.py:51-55 | reading the drain state drops an owner whose lease has run out, and nothing else |
| `Lifecycle.LifecycleService.AcquireKey` | backend/app/services/lifecycle_service.py:57-62 | admission rule: no drain, own key live, or continuation while any work is live; a refusal changes only the expired owner |
| `Lifecycle.LifecycleService.Drain` | backend/app/services/lifecycle_service.py:95-100 | a live lease of another owner refuses; otherwise the lease is renewed for 30 seconds |
| `Lifecycle.LifecycleService.CancelDrainOf` | backend/app/services/lifecycle_service.py:102-105 | only the owner, or anyone once no lease is live, clears the drain |
| `Lifecycle.LifecycleService.TakeSnapshot` | backend/app/services/lifecycle_service.py:107-116 | drained means a live lease and an empty work map |
| `Lifecycle.Operation.Enter` | backend/app/services/lifecycle_service.py:26-28 | an admitted operation becomes the current key and remembers the one before it |
| `Lifecycle.Operation.Leave` | backend/app/services/lifecycle_service.py:30-33 | leaving restores the earlier current key and releases the own one |
| `Lifecycle.RunsKeepInvariant` | backend/app/services/lifecycle_service.py:20-93 | over all runs each live key is held by exactly one open operation or task, and younger keys have sponsors |
| `Lifecycle.AdmittedWorkIsNeverRefused` | backend/app/services/lifecycle_service.py:57-93 | in any reachable state, an operation or `create_task` made inside admitted work is admitted |
| `Lifecycle.PlainTaskCanBeRefused` | backend/app/services/lifecycle_service.py:57-62 | a run in which a plain task from admitted work is refused |
| `Lifecycle.SponsorsAreLive` | backend/app/services/lifecycle_service.py:57-62 | in every reachable drain, a new key has a live sponsor: the caller's own key, else any for a continuation; whoever is refused has neither |
| `Lifecycle.LiveKeysDescendFromBeforeTheDrain` | backend/app/services/lifecycle_service.py:57-93 | every key live during a drain goes back to one admitted before the drain began |
| `Lifecycle.NoWorkLeftBehind` | backend/app/services/lifecycle_service.py:30-33 | when all operations are closed and tasks done, the work map is empty |
| `Lifecycle.AllEnterWithoutDrain` | backend/app/services/lifecycle_service.py:57-62 | in every reachable state without a live lease each operation and each created task is admitted under a new key |
| `Lifecycle.EndsReleaseTheirKey` | backend/app/services/lifecycle_service.py:30-33 | closing an operation releases its own live key, the end of a created task the task's, and no other |
| `Lifecycle.DrainIsGranted` | backend/app/services/lifecycle_service.py:95-116 | a drain nobody else holds is granted for exactly 30 seconds, is drained exactly while no work is left, keeps outside work out as long, and lets it in when over or cancelled |
| `Lifecycle.LeaseIsExclusive` | backend/app/services/lifecycle_service.py:95-105 | while a lease lives nobody else can take it over or cancel it |
| `RestartControl.RestartGuard` | process_control.py:87-124 | the loop yields true exactly if a reply is ready and drained and all before it were ready, busy and in time; one that is neither ends it with one DELETE |
| `RestartControl.RestartService` | process_control.py:124-137 | all it does, in order: the polls; stop if admitted; start if the stop succeeds; and last, once, on every path and after raises, the DELETE |
| `RestartControl.PlayKeepsSafe` | backend/app/services/lifecycle_service.py:57-105 | over all runs of guards and service, a lease that a guard relies on is in force and no work is live |
| `RestartControl.AdmittedGuardSeesNoWork` | process_control.py:96-103 | from a drained reply to the end of its lease the work map is empty and every step keeps it so |
| `RestartControl.OneGuardAtATime` | backend/app/services/lifecycle_service.py:95-100 | two guards never both rely on a live lease |
| `RestartControl.LoserCannotCancelWinner` | process_control.py:114-130 | the DELETE of a guard that lost changes nothing while the winner's lease is live |
| `RestartControl.PollIsAnswered` | process_control.py:94-103 | a guard that polls while nobody else holds a lease gets one for 30 seconds, and is let in exactly if there is no work |
| `RestartControl.LeavingEndsTheDrain` | process_control.py:118-130 | once an admitted guard has left and its DELETE is handled, work is admitted |
| `RestartControl.GivingUpEndsTheDrain` | process_control.py:110-130 | so does a guard that gives up, at whatever point |
| `RestartControl.StrayPollsRunOut` | backend/app/services/lifecycle_service.py:51-100 | a poll handled after its guard has gone keeps work out for exactly the 30 seconds of a lease |
| `RunSlots.Store.GetActive` | backend/app/services/store.py:2393-2422 | finds an active run of the session if and only if there is one |
| `RunSlots.Store.Resume` | backend/app/services/store.py:2556-2569 | compare-and-set from waiting to running; returns the row in either case |
| `RunSlots.Store.Close` | backend/app/services/store.py:2571-2616 | an active row is closed, any other left alone |
| `RunSlots.AgentRunService.BeginStart` | backend/app/services/agent_run_service.py:136-160 | a start claims the session exactly if the maps hold no live run of it and the table no running or waiting row, and then adds the running row and nothing else |
| `RunSlots.AgentRunService.FinishStart` | backend/app/services/agent_run_service.py:178-201 | registers the run, or fails its row when the session could not be written |
| `RunSlots.AgentRunService.ClaimResume` | backend/app/services/agent_run_service.py:221-226 | first locked block of a resume |
| `RunSlots.AgentRunService.RegisterResume` | backend/app/services/agent_run_service.py:283-306 | second locked block: registers, or fails the row if the session is taken |
| `RunSlots.AgentRunService.CloseRun` | backend/app/services/agent_run_service.py:683-690 | removes the run, and the session's entry only if it is this run's |
| `RunSlots.StepKeepsInverse` | backend/app/services/agent_run_service.py:197-201 | every step keeps the two maps exact inverses |
| `RunSlots.StepKeepsOneActiveRow` | backend/app/services/agent_run_service.py:140-160 | every step keeps at most one active row per session |
| `RunSlots.OneDriverPerSession` | backend/app/services/agent_run_service.py:122-307 | over all interleavings a session has at most one live driver |
| `RunSlots.StartsFromIdle` | backend/app/services/agent_run_service.py:136-201 | in every idle session a start leaves a driver registered and its row running, or, if the session cannot be written, a failed row and the session as idle as before |
| `RunSlots.ResumesFromWaiting` | backend/app/services/agent_run_service.py:220-307 | an answer leaves a driver registered for the waiting run and its row running |
| `RunSlots.FailedResumesClose` | backend/app/services/agent_run_service.py:250-300 | a resume that fails, at whatever point, closes the row and leaves lock and session free |
| `RunSlots.RunsEnd` | backend/app/services/agent_run_service.py:667-690 | a driver that settles and closes leaves its status in the row, and the session idle unless the run waits |
| `RunSlots.OrphansEnd` | backend/app/services/store.py:2424-2554 | an active run without a driver can be cancelled, a question timed out, and the session is idle then |
| `RunSlots.GuardedUnlessSlip` | backend/app/services/agent_run_service.py:178-306 | live drivers stay recorded as running through a step if and only if it is none of the listed ones |
| `RunSlots.GuardedThroughout` | backend/app/services/agent_run_service.py:122-307 | over runs without such a step the table shows every live driver as running |
| `RunSlots.OrderlyCallersKeepTheGuard` | backend/app/services/agent_run_service.py:220-307 | with one resumer per question, and no orphan cancelled while it is about to be registered, every run of the system keeps live drivers recorded as running, and a claimed resume whose writes go through registers its driver |
| `RunSlots.SecondResumerFailsLiveRun` | backend/app/services/store.py:2556-2569 | a run of two resumers that ends with a live driver whose row says failed |
| `RunFeed.EventQueue.CloseAfterOverflow` | backend/app/services/agent_run_service.py:700-705 | a full queue loses its oldest item to the sentinel |
| `RunFeed.LiveRun.Register` | backend/app/services/agent_run_service.py:352-357 | a queue joins the subscribers |
| `RunFeed.LiveRun.FanOut` | backend/app/services/agent_run_service.py:649-665 | the event goes to the history and to every queue with room; full queues are closed and lose their registration |
| `RunFeed.LiveRun.SendClose` | backend/app/services/agent_run_service.py:688-698 | every queue still registered gets the sentinel |
| `RunFeed.StreamEvents` | backend/app/api/routes/agent.py:437-457 | a client gives out a prefix of the replay and what its cursor has not passed: all of it, or up to and including the first completed event |
| `RunFeed.StreamUnseen` | backend/app/api/routes/agent.py:305-325 | the client with a set of seen numbers does the same with the unseen ones |
| `RunFeed.ClientsAgreeExactly` | backend/app/api/routes/agent.py:305-325 | both clients emit the same if and only if no queued event lies at or before the cursor |
| `RunFeed.RunsKeepInvariant` | backend/app/services/agent_run_service.py:342-371 | over all interleavings queues hold log events in order and all that were due |
| `RunFeed.ClientsSeeExactly` | backend/app/services/agent_run_service.py:609-665 | replay and queue merge to exactly the events the replay covered or that were fanned out, in order, none twice |
| `RunFeed.DeliveryIsGapFree` | backend/app/services/agent_run_service.py:342-371 | the merge is the whole log after the cursor if and only if nothing was committed without fan-out since the replay |
| `RunFeed.StreamsEndWithTheRun` | backend/app/api/routes/agent.py:437-457 | what such a client gives out is the log after its cursor, up to and including the first completed event |
| `RunFeed.UndisturbedClientsGetAll` | backend/app/services/agent_run_service.py:609-665 | in a live run that nobody disturbs, and that has no more events than a queue holds, every client that subscribed at any point gets everything after its cursor |
| `RunFeed.QueuesAgree` | backend/app/services/agent_run_service.py:658-705 | the subscribers of the state machine hold what the queue objects hold, overflow included |
| `RunFeed.OutsideEventIsMissed` | backend/app/services/store.py:2571-2616 | a run failed from outside whose last event a live client never gets |
| `RunFeed.ClosedClientsHaveTheRest` | backend/app/services/agent_run_service.py:683-698 | a client that was sent the sentinel has everything fanned out up to then |
| `LiveView.ActiveView.FindOrCreate` | backend/app/services/agent_run_service.py:841-853 | the last block of the kind and part, or a new one at the end |
| `LiveView.ActiveView.ApplyEvent` | backend/app/services/agent_run_service.py:721-813 | the in-place edits of one event are the fold step |
| `LiveView.ContentIsTheDeltas` | backend/app/services/agent_run_service.py:742-748 | each part has one block, and its content is the concatenation of its deltas |
| `LiveView.AbortMustBeFaithful` | backend/app/services/agent_run_service.py:798-806 | an abort keeps that true if and only if its text is empty or equals every streaming block |
| `LiveView.AbortReplacesText` | backend/app/services/agent_run_service.py:804-805 | an abort that does not: its text has a piece whose delta was never published |
| `LiveView.LiveOutputIsTheTail` | backend/app/services/agent_run_service.py:756-785 | for all event lists, ids used twice included: the live output of a tool is the last 4000 characters of all it printed |
| `LiveView.PartsShowTheirStatus` | backend/app/services/agent_run_service.py:745-755 | each content block is streaming, done, incomplete or aborted as the last event about its part says |
| `LiveView.ToolsShowTheirFate` | backend/app/services/agent_run_service.py:756-806 | the block of each tool shows that it is at work, its output and whether it was aborted, or that the run was stopped |
| `LiveView.FlagsFollowTheRun` | backend/app/services/agent_run_service.py:727-728 | the view streams until the run is completed |
| `LiveView.StepKeepsCurrent` | backend/app/services/agent_run_service.py:632-647 | every step of publishing keeps the view at the fold of its drive's events up to last_seq |
| `LiveView.ViewIsTheFoldOfTheLog` | backend/app/services/agent_run_service.py:617-647 | at all times view plus later published events equals a full replay |
| `LiveView.PublishedEventsAreShown` | backend/app/services/agent_run_service.py:609-665 | a view opened while nothing is in flight starts empty and shows whatever is published from then on |
| `LiveView.OutsideEventsAreNotShown` | backend/app/services/store.py:2571-2616 | what is committed past the publish, or whose publish fails after its commit, is in the log and not in the view |
| `RunDriver.Stream` | backend/app/services/agent_run_service.py:500-515 | completed events are held back, the last one wins, and every other event that was seen is published, in order |
| `RunDriver.FirstFailureEnds` | backend/app/services/agent_run_service.py:500-545 | the stream is seen to its end if every publish goes through; the first that does not ends it, and how it fails is how the stream ends |
| `RunDriver.Finalize` | backend/app/services/agent_run_service.py:561-569 | a fault in settling the history skips the rest of it and nothing else |
| `RunDriver.DriveRun` | backend/app/services/agent_run_service.py:487-595 | on every path: preparation that publishes the engine's events, recovery and settled snapshots in order, then finish_run, the write, one terminal publish and the closing of the run, or what a cancellation inside the finally block leaves of that, down to the wait for the service lock |
| `RunDriver.TerminalPublishIsLast` | backend/app/services/agent_run_service.py:570-595 | such a trace has one terminal publish, it is the last publish, and it comes after finish_run and the write |
| `RunDriver.StatusStays` | backend/app/services/agent_run_service.py:667-681 | no event before the terminal one changes the stored status |
| `RunDriver.RowLeftActive` | backend/app/services/agent_run_service.py:581-590 | exactly when a drive leaves its row active |
| `RunDriver.CompletedOnce` | backend/app/services/store.py:2571-2616 | exactly how many completed events a drive adds to the log |
| `RunDriver.FaultsFailTheRun` | backend/app/services/agent_run_service.py:516-585 | a fault in settling a stopped run or in writing the session fails the run; what a cancellation or exception does to the terminal event |
| `RunDriver.OutcomeIsStored` | backend/app/services/agent_run_service.py:487-595 | undisturbed, a drive leaves its row with the status of the engine's last completed event, or of the cancellation or exception that ended it, and its log ends with the one completed event |
| `RunDriver.WaitingRunEndsTwice` | backend/app/services/agent_run_service.py:581-590 | a waiting run that is failed on top of its stored terminal event |
| `RunDriver.CutDriveLeavesRow` | backend/app/services/agent_run_service.py:549-595 | such a cancellation before the terminal publish closes the run and leaves its row as active as it was, with no completed event |
| `RunContext.AgentSession.Begin` | backend/app/services/session_types.py:105-108 | a fresh context replaces the active one |
| `RunContext.AgentSession.Finish` | backend/app/services/session_types.py:116-119 | only the run that is active is ended |
| `RunContext.AgentSession.SetPartialContent` | backend/app/services/session_types.py:143-146 | only the run that is active gets the text |
| `RunContext.AgentSession.Abort` | backend/app/services/session_types.py:121-134 | the active run is marked stopped and copied |
| `RunContext.AgentSession.PartialContent` | backend/app/services/session_types.py:148-154 | the active run's text, else that of the last stopped run |
| `RunContext.AbortSticks` | backend/app/services/session_types.py:139-141 | a stopped, displaced or finished run stays stopped until it is begun again |
| `RunContext.StaleLoopsAreHarmless` | backend/app/services/session_types.py:110-119 | calls of overtaken loops do not touch the current run |
| `RunContext.PartialSurvives` | backend/app/services/session_types.py:121-154 | once a stopped run is over, its text is readable exactly while the last stop was of this run, as of that stop; requests that find no run stop none |
| `RunContext.RunReadsItsText` | backend/app/services/session_types.py:105-154 | from its begin to its end a run reads the text it set last, and is stopped exactly from the first request on |
| `RunContext.EndedRunsAreStopped` | backend/app/services/session_types.py:116-141 | a run that is finished or displaced counts as stopped |
| `ToolHistory.Session.CloseCalls` | backend/app/runtime/engine.py:417-429 | the loop over messages and calls inserts a result behind each unanswered call |
| `ToolHistory.RepairKeepsOldMessages` | backend/app/runtime/engine.py:419-429 | without the new results a repaired history is the old one, in order |
| `ToolHistory.RepairClosesEveryCall` | backend/app/runtime/engine.py:416-429 | no call is left without a result |
| `ToolHistory.RepairIsIdempotent` | backend/app/runtime/engine.py:412-429 | repairing twice is repairing once |
| `ToolHistory.RepairPairsExactly` | backend/app/runtime/engine.py:417-429 | calls and results pair up after a repair if and only if each answered call had its own result |
| `ToolHistory.RepairAnswersInPlace` | backend/app/runtime/engine.py:417-429 | each new result stands behind the message that made the call: directly behind it come the results of its open calls, in their order, and there is no other new result |
| `ToolHistory.ResultsFollowCalls` | backend/app/runtime/engine.py:412-1511 | over all sequences of runs, whatever ids are reused, each result stands behind a message that made its call |
| `ToolHistory.DedupeBatch` | backend/app/runtime/engine.py:1159-1172 | the first call with each id stays, renamed if history has the id, marked if a later one conflicts |
| `ToolHistory.BatchComesDownTo` | backend/app/runtime/engine.py:1159-1172 | what is kept are the first calls with each id, all of them and in order, renamed exactly if history has the id, marked exactly if a later call has it for something else |
| `ToolHistory.KeptIdsAreNew` | backend/app/runtime/engine.py:1159-1172 | the kept ids are distinct and new to the history |
| `ToolHistory.RoundIsRecorded` | backend/app/runtime/engine.py:1262-1511 | a round whose batch is not refused records the response with all its calls, then their results in order, and goes on |
| `ToolHistory.AnswerIsRecorded` | backend/app/runtime/engine.py:1590-1692 | an answer without calls becomes the last message and the run can end |
| `ToolHistory.RecoverAttempts` | backend/app/services/context/history_store.py:425-476 | recoverable stored responses that no message holds are appended in order |
| `ToolHistory.RecoveryConservesCalls` | backend/app/services/context/history_store.py:425-476 | recovery neither loses nor doubles a call |
| `ToolHistory.StoredResponseComesBack` | backend/app/services/context/history_store.py:425-476 | a stored response that no message holds is in the messages once the next run has begun, exactly unless it was rejected or holds nothing |
| `ToolHistory.SavedIdsStayDistinct` | backend/app/runtime/engine.py:1173-1176 | storing a response keeps all ids distinct if and only if it reuses none of a stored, unrecorded one |
| `ToolHistory.StepKeepsInvariant` | backend/app/runtime/engine.py:1027-1511 | every other step keeps results within calls and all ids distinct, wherever a run stops |
| `ToolHistory.StallsAfterLimit` | backend/app/runtime/engine.py:1243-1260 | a batch is refused exactly when it has been executed `limit` times in a row |
| `ToolHistory.BeginAnswersExactly` | backend/app/services/context/history_store.py:425-476 | at the start of a run each recorded call has one result if and only if recovery brings back no call whose id is taken |
| `ToolHistory.OneResultPerCallExactly` | backend/app/runtime/engine.py:1159-1511 | over all sequences of runs, at each model request every recorded call has one result if and only if no recovery so far brought back a call whose id was taken |
| `ToolHistory.NoReuseNoClash` | backend/app/runtime/engine.py:1159-1176 | responses that reuse no id of a stored response never lead to such a recovery |
| `ToolHistory.OneResultPerCall` | backend/app/runtime/engine.py:1262-1511 | over all sequences of runs without such a reuse, at each model request every recorded call has exactly one result |
| `ToolHistory.StalledCallComesBack` | backend/app/runtime/engine.py:1243-1260 | a run, from an empty session, in which a batch is executed, refused when it repeats and brought back by recovery, so that two calls share a result |
| `VisibleReply.Session.PersistRound` | backend/app/runtime/engine.py:121-139 | earlier visible replies of the run are hidden and leave the transcript; the new one is added |
| `VisibleReply.Session.ProjectAborted` | backend/app/services/agent_run_service.py:832-839 | all replies of the run are hidden and the projection is added |
| `VisibleReply.Session.BuildTranscript` | backend/app/services/transcript_service.py:145-165 | the two passes list visible messages, of each run only the last reply |
| `VisibleReply.BuiltLists` | backend/app/services/transcript_service.py:145-165 | a rebuilt transcript lists, in order and once each, exactly what users said and were asked, replies without a run and the last visible reply of each run |
| `VisibleReply.BuiltKeepsInvariant` | backend/app/services/transcript_service.py:145-165 | a rebuilt transcript lists at most one reply per run, and only visible ones |
| `VisibleReply.OneItemPerRun` | backend/app/runtime/engine.py:121-139 | through any steps the transcript never lists two replies of one run |
| `VisibleReply.NoMessageIsLost` | backend/app/runtime/engine.py:121-139 | over all steps each message brought is in its place and unchanged, except that it may have been hidden |
| `VisibleReply.RoundTakesOver` | backend/app/runtime/engine.py:121-139 | a visible reply becomes the last message and the last item; the earlier ones of its run are hidden and unlisted, all else stays |
| `VisibleReply.SayingIsListed` | backend/app/services/transcript_service.py:120-165 | what a user says is added and listed last, a hidden round is added and not listed |
| `VisibleReply.OneVisibleUnlessDoubled` | backend/app/services/context/history_store.py:452-475 | a step keeps one visible reply per run if and only if it does not recover a response of a run that has one |
| `VisibleReply.OneVisibleReplyPerRun` | backend/app/runtime/engine.py:121-129 | over all such sequences a run has at most one visible message |
| `VisibleReply.LastReplyIsListed` | backend/app/services/transcript_service.py:147-164 | a settled transcript lists a reply if and only if it is the last visible one and can be shown |
| `VisibleReply.RecoveredReplyHidesAnswer` | backend/app/services/agent_run_service.py:561-567 | a response recovered behind the answer takes its place, or leaves the run without a reply |
| `TurnLoop.RetryBudget.TakeDelay` | backend/app/runtime/engine.py:662-671 | a delay is granted exactly within window and count; it is the table entry or cooldown, cut to the rest of the window |
| `TurnLoop.TakeAndSleep` | backend/app/runtime/engine.py:662-671 | count and sum of the delays of a window stay within the limits for any clock |
| `TurnLoop.JudgeBatch` | backend/app/runtime/engine.py:1243-1260 | the two stall variables refuse a batch exactly by the rule on past rounds |
| `TurnLoop.TakeReply` | backend/app/runtime/engine.py:1060-1192 | what becomes of a reply: asked again, while count and window allow, looked at, or the end of the run |
| `TurnLoop.JudgeReply` | backend/app/runtime/engine.py:1243-1640 | a batch has its round; other replies end the run exactly unless they ask for a continuation and one is left |
| `TurnLoop.RunTurns` | backend/app/runtime/engine.py:673-1692 | requests, continuations and windows stay within limits, the loop ends for a listed reason and goes past no turn that surely ends it, and turns that use tools have one round each with the batch asked for |
| `TurnLoop.NoLongRepetition` | backend/app/runtime/engine.py:1252-1260 | no more than the allowed number of successive rounds execute the same batch |
| `SkillStore.StepKeepsLinks` | backend/app/services/shared_skill_service.py:96-146 | every step keeps link counts at one plus the entries of packages and staging directories |
| `SkillStore.NamedUnlessBroken` | backend/app/services/shared_skill_service.py:84-146 | package names describe their contents after a step if and only if it is no crash inside a removal |
| `SkillStore.ReferencesAreSafe` | backend/app/services/shared_skill_service.py:52-173 | over all runs every digest in a manifest names an existing, intact package |
| `SkillStore.PinnedKeepsResolving` | backend/app/services/shared_skill_service.py:184-211 | a referenced version resolves to the same unchanged directory while its workspace exists, crashes included |
| `SkillStore.ReferencedVersionsStay` | backend/app/services/shared_skill_service.py:184-211 | so from any point of any run on |
| `SkillStore.DeletedReferencesGo` | backend/app/services/shared_skill_service.py:152-160 | a version that only a deleted workspace named is not named when the next collection starts |
| `SkillStore.YoungOnesStay` | backend/app/services/shared_skill_service.py:160-172 | no run, with crashes anywhere, removes a package or a blob within the grace period of its making |
| `SkillStore.OldOnesGo` | backend/app/services/shared_skill_service.py:163-172 | what no manifest names or no entry links to, and was last changed before the cutoff, can be removed |
| `SkillStore.Storage.Reference` | backend/app/services/shared_skill_service.py:84-146 | publishes the version unless it exists, no older than now, and then names it in the manifest; nothing else changes |
| `SkillStore.Storage.AbandonPublication` | backend/app/services/shared_skill_service.py:124-128 | a failed publication leaves packages, manifests and other directories as they were, and its own directory gone |
| `SkillStore.Storage.CollectGarbage` | backend/app/services/shared_skill_service.py:148-173 | removes exactly the unreferenced packages and the blobs that no entry links to, as far as they are older than the grace period; none that was made within it |
| `SkillStore.HalfRemovedPackageIsReused` | backend/app/services/shared_skill_service.py:90-91 | a run after which a manifest names a package that lacks its entries |
| `SkillInstall.Target.Install` | backend/app/services/skill_package.py:57-81 | success replaces the named directories; a failure runs the rollback over what had been begun, which restores everything if the names are distinct |
| `SkillInstall.RollbackRestoresExactly` | backend/app/services/skill_package.py:76-81 | a rollback restores the directory if and only if the names begun with are distinct |
| `SkillInstall.FirstOfTwoStays` | backend/app/services/skill_package.py:67-81 | two skills of one name: the rollback leaves the first behind |
| `SkillInstall.InstalledExactly` | backend/app/services/skill_package.py:67-75 | success is the old directory with exactly the named entries replaced |
| `Checkpoints.SessionStore.Capture` | backend/app/services/context/history_store.py:122-145 | equal content is accepted as it is, an unseen revision or a stale cache refuses, else the revision rises by one |
| `Checkpoints.SessionStore.FreezeMetadata` | backend/app/services/session_service.py:446-448 | a snapshot takes the next generation and a copy of the session |
| `Checkpoints.SessionStore.PersistFrozen` | backend/app/services/session_service.py:256-264 | a snapshot older than the last commit is dropped; others are filled and committed |
| `Checkpoints.SessionStore.Write` | backend/app/services/session_service.py:435-444 | a synchronous write takes the next generation and commits at once |
| `Checkpoints.StoresAreSnapshots` | backend/app/services/session_service.py:245-264 | ledger and file always hold the session as captured at their generations, the file's no later than the ledger's |
| `Checkpoints.GenerationsIncrease` | backend/app/services/session_service.py:498-507 | each write has a larger generation than the one before; an older snapshot leaves no trace |
| `Checkpoints.NoLostUpdate` | backend/app/services/context/history_store.py:122-145 | a write never replaces what another process wrote, unless it is the same |
| `Checkpoints.UncontestedWritesSucceed` | backend/app/services/context/history_store.py:122-145 | a session no other process has written to can always be written |
| `Checkpoints.SnapshotStoresItsMoment` | backend/app/services/session_service.py:245-300 | an uncontested snapshot stores the session as it was when it was taken, whatever is edited before its commit, in the ledger and, if that can be written, the file |
| `Checkpoints.ForeignWritesStand` | backend/app/services/context/history_store.py:90-135 | once another process has written something else, a write changes neither ledger nor file |
| `Checkpoints.AgreedContentIsTaken` | backend/app/services/context/history_store.py:90-135 | content that another process has already written is taken as written, unless a cached message index stands for other content |
| `Checkpoints.ConflictsAreNotWritten` | backend/app/services/session_service.py:123-141 | a session whose identity differs from its conversation's is not written |
| `AuditIndex.IndexTables.Store` | backend/app/services/audit_transcript_service.py:122-126 | head and items are the enumerated transcript |
| `AuditIndex.IndexTables.ReadPage` | backend/app/services/audit_transcript_service.py:66-80 | there is a page exactly if the head has the key; it ends where asked, covers `limit` positions or all there are, and has more exactly if it leaves any out before it |
| `AuditIndex.BuildIs` | backend/app/services/audit_transcript_service.py:109-111 | a transcript shows the messages in order, and behind them the responses that no message holds |
| `AuditIndex.PageIsSlice` | backend/app/services/audit_transcript_service.py:66-80 | a page of an index that holds a transcript is that slice of it, with the smaller of limit and end items |
| `AuditIndex.WrittenIndexIsExact` | backend/app/services/audit_transcript_service.py:113-126 | a builder writes if and only if the key is the one it started from, and leaves the fresh build if and only if messages and shown responses were then the same at its two reads |
| `AuditIndex.NewVersionEndsOldKeys` | backend/app/services/context/history_store.py:153-163 | once a message version that was not recorded is captured, no earlier key ever returns |
| `AuditIndex.IndexRefinesBuild` | backend/app/services/audit_transcript_service.py:95-128 | over all interleavings of builders and writers in which no key returns, an index under the current key is the fresh build |
| `AuditIndex.ReturningKeyMisleads` | backend/app/services/audit_transcript_service.py:113-126 | whenever writers make a key return, a builder that reads in between and writes afterwards leaves a wrong index under the current key |
| `AuditIndex.SafeExactlyIfNoneReturns` | backend/app/services/audit_transcript_service.py:95-128 | what writers do is safe for every interleaving with builders if and only if no key returns |
| `AuditIndex.TameKeysNeverReturn` | backend/app/services/context/history_store.py:153-163 | no key returns if each capture that changes the messages records a new version and shown responses stay until settled |
| `AuditIndex.TakenBackMessageIsMissing` | backend/app/services/audit_transcript_service.py:113-126 | a run in which a message is taken back and put back while a builder reads, and the index lacks it |
| `AuditIndex.ShownExactly` | backend/app/services/audit_transcript_service.py:34-46 | over all runs a transcript shows a response, in its last version, exactly from the end of its run until a message that holds it is captured, unless it was found invalid; in the order they were made |
| `AuditIndex.PagesTile` | backend/app/services/audit_transcript_service.py:71-80 | following the start of each page ends and tiles the transcript exactly |
| `AuditIndex.PagesNeeded` | backend/app/services/audit_transcript_service.py:71-80 | all pages but the oldest are full: n items take n / limit pages, rounded up |
| `AuditIndex.FollowPages` | backend/app/services/audit_transcript_service.py:66-80 | a reader of a stored index gets exactly those pages |
| `Backfill.RefusedExactly` | backend/app/services/session_identity.py:21-24 | updates are refused exactly if a filled field differs |
| `Backfill.UpdatesFill` | backend/app/services/session_identity.py:25-26 | updates fill all empty fields, touch no other, and leave nothing to update |
| `Backfill.Stores.Repair` | ops/backfill_session_identity.py:137-156 | a repair stopped after any number of actions has done exactly those |
| `Backfill.Stores.BackfillAll` | ops/backfill_session_identity.py:83-163 | every session gets its own outcome, nothing else is touched, and a dry run writes nothing |
| `Backfill.StatusMeans` | ops/backfill_session_identity.py:105-134 | which status a session gets, in the order of the checks |
| `Backfill.RepairedMeans` | ops/backfill_session_identity.py:137-163 | a repaired session has the conversation's identity in ledger and file, and what was there is backed up whole; any other is as it was |
| `Backfill.Stores.RepairThroughCrashes` | ops/backfill_session_identity.py:137-156 | a repair stopped any number of times and started again ends as one that was not |
| `Backfill.CrashThenRerun` | ops/backfill_session_identity.py:137-156 | stopping anywhere and rerunning gives the same ledger, file and backups as one run |
| `Backfill.ManyCrashesThenRerun` | ops/backfill_session_identity.py:137-156 | the same for any number of interrupted runs |
| `Backfill.NextRunWritesNothing` | ops/backfill_session_identity.py:127-134 | after a finished run the next one has nothing to do |
| `Backfill.RepairOnlyFills` | ops/backfill_session_identity.py:139-154 | only empty identity fields and the revision bookkeeping change |
| `Backfill.RepairFailsExactly` | ops/backfill_session_identity.py:42-53 | a repair goes through if and only if no backup it needs is half written; otherwise it never will |
| `Backfill.HalfWrittenBackupBlocks` | ops/backfill_session_identity.py:42-53 | a half written backup of the file stops every later run |
| `Sampling.MergeSampling` | backend/app/services/llm_config_service.py:328-341 | the two loops compute the merge |
| `Sampling.MergeOverrides` | backend/app/services/llm_config_service.py:328-341 | per name a merge is last writer wins over unset, model default and value |
| `Sampling.MergeIsAssociative` | backend/app/services/llm_config_service.py:328-341 | merging is associative as dictionaries |
| `Sampling.MergeKeepsListedEmpty` | backend/app/services/llm_config_service.py:331-340 | what is left to the model has no value |
| `Sampling.RowSamplingOf` | backend/app/services/llm_config_service.py:309-326 | old extra fields replace sampling fields; a clash or several budgets are refused |
| `Sampling.SummaryShowsRuntime` | backend/app/services/llm_config_service.py:343-370 | the summary and the runtime agree for all rows, and fail on the same ones |
| `Sampling.EffectiveSetting` | backend/app/services/llm_config_service.py:193-202 | environment, then the platform if it fits, then the user |
| `Sampling.RowsMeanWhatTheySay` | backend/app/services/llm_config_service.py:309-326 | a row is accepted exactly if no extra field is left to the model and one budget at most is given; then budget, extra field, nested effort and sampling say in this order what a parameter is |
| `Sampling.HighestLayerDecides` | backend/app/services/llm_config_service.py:193-202 | the value of a request is the user's, else the fitting platform's, else the environment's |
| `Sampling.EnvironmentReachesItsModel` | backend/app/services/llm_config_service.py:297-307 | the environment's values reach the globally configured model and no other |
| `Sampling.PlatformTakesPart` | backend/app/services/llm_config_service.py:372-378 | the platform's row takes part exactly if enabled, of the same model, format and URL, and not of another named revision |
| `Sampling.StrippedIs` | backend/app/services/llm_config_service.py:372-378 | URLs are compared without the slashes at their end |
| `Sampling.SameRowsReported` | backend/app/services/llm_config_service.py:372-384 | the report covers exactly the rows that were merged, although it judges them differently |
| `Sampling.SourcesNameSupplier` | backend/app/services/llm_config_service.py:379-390 | for every parameter the report names the layer that supplied the effective value |
| `Sampling.AddLayer` | backend/app/services/llm_config_service.py:384-389 | one row's names take its label, listed ones the label of a default, given ones on top |
| `Publishing.ExtensionStore.Submit` | backend/app/services/extension_store_service.py:60-118 | the checks of a publish in their order, and the new rows |
| `Publishing.ExtensionStore.Administer` | backend/app/services/extension_store_service.py:138-154 | the checks of a management change and the new entry |
| `Publishing.ExtensionStore.CountInstall` | backend/app/services/extension_store_service.py:232-233 | an install changes the usage count only |
| `Publishing.RevisionsCountChanges` | backend/app/services/extension_store_service.py:101-117 | revisions count the changes, with one audit event each; versions are only added and stay one line |
| `Publishing.UsageCountsInstalls` | backend/app/services/extension_store_service.py:232-233 | usage is the number of installs |
| `Publishing.StoreStaysSound` | backend/app/services/extension_store_service.py:101-117 | from an empty store on, the last version is current and the revisions have their events, one each |
| `Publishing.FirstPublicationIsTaken` | backend/app/services/extension_store_service.py:78-112 | a first publication goes through exactly unless the platform has an entry of that author, kind and name; what the new entry is |
| `Publishing.PublicationIsTaken` | backend/app/services/extension_store_service.py:83-117 | a later one goes through exactly if a maintainer sends it up to date to a listed entry; only the creator changes the policy by it |
| `Publishing.OneOfTwoIsTaken` | backend/app/services/extension_store_service.py:94-97 | of two changes made from one revision the second changes nothing, whatever lies between |
| `Publishing.ChangeIsTaken` | backend/app/services/extension_store_service.py:138-154 | a management change is carried out exactly if allowed, of this platform and up to date; what it does not name stays |
| `Publishing.StrangersStayOut` | backend/app/services/extension_store_service.py:83-91 | strangers never change an entry that is for its author alone or not listed |
| `Publishing.BackVisitsAll` | backend/app/services/extension_store_service.py:96-112 | base versions lead from the current version through every published one |
| `Publishing.BackEndsExactly` | backend/app/services/extension_store_service.py:96-112 | they end at the first version if and only if its base is not one of the entry's versions |
| `Publishing.FirstBaseCanBeReused` | backend/app/services/extension_store_service.py:82-99 | two publications that close a circle |
| `Publishing.RetryChangesNothing` | backend/app/services/extension_store_service.py:90-99 | a request carried out before changes nothing when repeated, whatever lies between |
| `Publishing.RetryRecognisedExactly` | backend/app/services/extension_store_service.py:83-95 | exactly when the repetition is answered as already done |
| `DurableIo.FinishOnCancel` | backend/app/services/durable_io.py:11-22 | no answer before the write is done; then its error, the caller's cancellation, or the value |
| `DurableIo.FourWritesPerLoop` | backend/app/services/durable_io.py:25-29 | at most four writes run at a time per event loop, through cancellations and collections |
| `DurableIo.SlotsAreGranted` | backend/app/services/durable_io.py:25-29 | a waiting caller can write exactly while fewer than four writes of its loop run, and leaves no trace when cancelled |
| `DurableIo.SlotsAreGivenBack` | backend/app/services/durable_io.py:11-29 | a writing caller keeps its slot when cancelled and gives it back when its write is done |
| `DurableIo.ArrivalsWait` | backend/app/services/durable_io.py:25-29 | an arriving caller waits for its loop's semaphore, or a new one |

## Left out

- Assumptions: digests are injective, fresh ids never repeat, transactions and locked blocks are atomic, and clocks and
  uuids are parameters.  HTTP, SQLite, the file system and asyncio itself are not part of this model.
- RunFeed.LiveRun.FanOut: the suspension inside the handling of an overflowed queue; fan-out is one step, and claims about a
  queue end when it overflows.
- RunFeed: a replay is cut at 100000 events in the code and not here.  The host stream, which sorts replay and queue through
  a dictionary, is not modelled.
- RunSlots: cancellation between two awaits of a start, and what a start writes besides its run row.
- LiveView: elapsed times, titles and arguments of tool blocks, and the result field of the view.
- ToolHistory: the text of results, normalisation of old messages, compaction and rebase; a message that is appended counts as written.
- VisibleReply: expansion of compacted history before the transcript is rebuilt, and how an item is made from blocks.
- TurnLoop: what happens inside a tool batch and inside the preparation of a request.
- RestartControl: finding the process, reading the control file, and stopping and starting it.
- Lifecycle: the `active` counter of a snapshot and the control file.
- SkillStore: symbolic links, unreadable manifests (both raise), temporary blob files, and removal of a workspace in the middle of a reference.
- SkillInstall: target entries that are plain files, and a rollback in which removing a directory fails.
- Checkpoints: several session objects for one session in one process, deletion of a ledger, and the message records of a capture.
- AuditIndex: the bootstrap of a missing source row, the limit of three attempts of a read, expansion of compacted history, the
  schema version of messages, and the status of runs, which the key holds beside what is shown.
- Backfill: the counters per source, encryption, and sessions whose path is refused.
- Sampling: nullable model columns, which the schema forbids, and the response schema of the summary; the entry
  "model_defaults" itself is always reported as global and is not a parameter here.
- Publishing: validation of artifacts, the artifact files, submitter profiles and the commit that fails after a file was written.
- Subagents, the MCP runtime, sandbox execution, the frontend and prompt text would add no state of this kind.
