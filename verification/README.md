# A verified model of the agent runtime

The repository runs language-model agents: a run streams events into a message
log, compacts old history into checkpoints, shows the model a changing set of
tools, talks to child agents, shares skill containers with other processes and
copies a shell's workspace back. This project models the state machines behind
that and proves what they keep, for every input, every interleaving and every
run. `dafny verify dfyconfig.toml` checks all of it.

## The modules

| file | part of the system |
|---|---|
| `Mailbox.dfy` | the guarded fields of one sub-agent handle, one method per critical section |
| `SubAgents.dfy` | the protocol around that mailbox: senders, closers, spawner, worker loop and parent as interleaved atomic steps, with the windows between critical sections as program points of their own |
| `TaskNames.dfy` | allocation and lookup of children's task names |
| `Session.dfy` | the parent's notification queue and the messages of the next step |
| `Trace.dfy` | the append-only message log and its builder |
| `Compaction.dfy` | split point, carried references, checkpoint manager, rebuilt prompt |
| `AgentRun.dfy` | builder and manager driven together over whole runs, with overflow and resume |
| `ToolVisibility.dfy` | layered resolution of enabled, pinned and revealed tools |
| `Leases.dfy` | lease files, locks and containers shared by any number of runtimes, in the workspace and in the copies that shells make of it |
| `Glob.dfy` | glob to regex, with a reader and a meaning for both |
| `SyncBack.dfy` | mirroring the temporary workspace back |
| `Find.dfy` | parsing, evaluation and pruned walk of the built-in `find` |
| `Truncation.dfy` | byte-limited truncation on rune boundaries |
| `ShellQuoting.dfy` | quoting for a POSIX shell, against a reader of sections 2.2.2 and 2.2.3 of the POSIX Shell Command Language |
| `Consolidation.dfy` | merging duplicate exported traces |
| `Common.dfy` | options, trimming, decimal numerals |

Code that changes fields step by step is modelled as classes and loops, each
method tied to a specification function; what the system promises is proved
about those functions, over whole runs where it spans operations. Protocols with
several threads or processes are state machines over their steps.

## Where the code falls short of what one might expect

These are stated as lemmas, with the exact condition where there is one:

- A handle can report Completed with a message still queued
  (`SubAgents.CompletedWithWorkQueued`): exactly when a run ends well while messages
  are queued (`CompletedWithWorkArises`), and exactly until the next accepted send,
  the first close, the next start or the last dequeue (`CompletedWithWorkEnds`).
- An interrupt or close cancels the message in hand exactly when the status is
  Running; one that falls between dequeue and `setRunning` never reaches it
  (`SubAgents.InterruptReachesHand`, `CloseReachesHand`, `CloseMissesStartingRun`,
  reached in `CloseInWindow`).
- Consumed notifications reach the model exactly when there is no checkpoint and the
  step will not make one (`Session.NotificationsReachExactly`); over a run, up to the
  first accepted compaction (`Session.NotificationsReachUpToFirstCompaction`).
- A normal compaction after an aggressive one can cover less
  (`Compaction.CoveredShrinksExactly`, `AgentRun.CoveredShrinksInARun`); spilled
  outputs are kept all the same (`AgentRun.SpilledOutputsSurvive`).
- A boundary can separate a tool result from its call if the log has calls
  answered after a later boundary (`Compaction.NoCutOrphansExactly`).
- A container creation that exits with a failure reports no error, and the lease is
  registered all the same (`Leases.SilentCreationReached`); held containers exist as
  long as that does not happen (`Leases.LeasesAreSafe`, `Leases.CreationSafeExactly`).
- A shell copies the workspace, lock and lease files included, and mirrors the copy
  back. That deletes leases registered meanwhile (`Leases.SyncLosesLease`); when it is
  harmless is `Leases.SyncKeepsInvExactly`. A skill command inside a shell leases in
  the copy, and its teardown disregards all other leases (`Leases.CommandInCopyRemoves`).
- The last releaser unlinks the lease lock file, also under a runtime that waits on
  it (`Leases.UnlinkedUnderWaiter`). That is harmless in orderly runs, where commands
  are serialised by `commands.lock` (`Leases.UnlinkedWaiterIsAlone`).
- A compacted run that is resumed without repeating its system prompt loses it from
  the rebuilt prompts (`AgentRun.ResumeKeepsSystemExactly`, `AgentRun.ResumeLosesSystem`).
- The search tool can be both revealed and pinned (`ToolVisibility.OverlapExactly`,
  `OverlapHappens`).
- Ids with outer white space do not survive storing
  (`ToolVisibility.EnabledSurvivesExactly`, `UntrimmedIdIsLost`).
- `find` prunes too much under a negated `-maxdepth` or under `-o`
  (`Find.NegatedLimitLosesOutput`, `Find.OtherSideLosesOutput`); what is lost in
  general is `Find.PruningLosesExactly`, and for command lines about depth and type
  the exact condition is `Find.StructuralCommandPrunesExactly`.
- Truncation can exceed its limit by up to eight bytes (`Truncation.KeptWithinEight`,
  `Truncation.EightIsReached`, `Truncation.KeptFitsExactly`).

## Model

| member | source | states |
|---|---|---|
| Mailbox.SubAgentHandle.constructor | internal/agent/subagents.go:129-147 | a spawned handle starts Queued with its first message and no wake token |
| Mailbox.SubAgentHandle.Send | internal/agent/subagents.go:297-327 | refuses blank text before a closed handle, changing nothing; otherwise the last queued message has the trimmed text, title and system prompt and the same interrupt flag, behind the old queue or, for an interrupt, alone, with the stored cancel function called; Running stays Running |
| Mailbox.SubAgentHandle.CloseLocked | internal/agent/subagents.go:373-394 | only the first close empties the queue and captures the cancel function; later ones change nothing |
| Mailbox.SubAgentHandle.Dequeue | internal/agent/subagents.go:453-466 | takes the oldest message; an empty queue means exit if closed and sleep if not |
| Mailbox.SubAgentHandle.SetRunning | internal/agent/subagents.go:468-474 | stores the cancel function, sets Running and clears the last error |
| Mailbox.SubAgentHandle.OnRunFinished | internal/agent/subagents.go:476-523 | the four endings of a run by error and closed flag, the cancel function taken out, the reported status being the new one |
| Mailbox.SubAgentHandle.SetFinalClosed | internal/agent/subagents.go:525-530 | status Closed and no last error, all else unchanged |
| Mailbox.SubAgentHandle.Signal | internal/agent/subagents.go:532-537 | the one-slot channel holds a token afterwards, whether or not it did before |
| SubAgents.NoLostWakeUp | internal/agent/subagents.go:411-466 | in every interleaving, a loop that sleeps over queued work or a close has a wake token waiting or the one closer that has not signalled yet |
| SubAgents.MessagesAccounted | internal/agent/subagents.go:297-466 | the queue is a suffix of the accepted messages, each of which is waiting, taken or dropped; taken ones are taken once and in order |
| SubAgents.AcceptedExactly | internal/agent/subagents.go:297-327 | in every run the accepted messages are the first one and then exactly the non-blank sends before any close, in order, each with its trimmed text, title and system prompt and its interrupt flag |
| SubAgents.TakesOldest | internal/agent/subagents.go:453-466 | the loop takes the oldest accepted message that is still queued |
| SubAgents.EndingExactly | internal/agent/subagents.go:476-523 | how a run ends decides the status: Failed exactly for an error, otherwise Closed exactly on a closed handle, else Completed for success and Aborted for a cancellation; that status is recorded and posted |
| SubAgents.NoticesReportEveryRun | internal/agent/subagents.go:476-523 | the delivered and pending notices, with the one being posted, list the endings of all finished runs, once and in order |
| SubAgents.StartIsAnnouncedOnce | internal/agent/subagents.go:164-167 | besides one notice for each finished run there is exactly one, for the start, and none before it is posted |
| SubAgents.StatusMeaning | internal/agent/subagents.go:468-523 | status is Running exactly while a cancel function is stored; a handle asleep with messages queued reports Queued |
| SubAgents.HistoryOnlyGrows | internal/agent/subagents.go:411-530 | over any run accepted, taken and ended lists only extend and a decided fate never changes |
| SubAgents.InterruptOvertakes | internal/agent/subagents.go:313-325 | after an accepted interrupt no older message is ever run, however the steps interleave |
| SubAgents.ClosedForGood | internal/agent/subagents.go:373-394 | after a close nothing is accepted or dequeued, and an exited loop stays Closed |
| SubAgents.InterruptReachesHand | internal/agent/subagents.go:311-317 | an interrupt cancels the message in hand if and only if the status is Running |
| SubAgents.CloseReachesHand | internal/agent/subagents.go:380-394 | a close captures the cancel function of the message in hand if and only if the status is Running |
| SubAgents.CloseMissesStartingRun | internal/agent/subagents.go:411-451 | a close between dequeue and `setRunning` never cancels that run, in any continuation up to the run's own end |
| SubAgents.CloseInWindow | internal/agent/subagents.go:411-451 | that window is reached: a close in it leaves the first run started and uncancelled after all closers are done |
| SubAgents.CompletedWithWorkQueued | internal/agent/subagents.go:476-500 | a reachable state reports Completed with a message queued |
| SubAgents.CompletedWithWorkIsPassing | internal/agent/subagents.go:411-500 | in such a state the loop posts, dequeues or starts, and the handle is open |
| SubAgents.CompletedWithWorkArises | internal/agent/subagents.go:476-500 | it arises exactly in the step in which a run succeeds on an open handle with messages queued |
| SubAgents.CompletedWithWorkEnds | internal/agent/subagents.go:297-474 | such a state ends exactly with an accepted send, the first close, the start of the next run, or the dequeue of the last message |
| SubAgents.InternalStepDecreases | internal/agent/subagents.go:411-451 | every step the system takes by itself lowers a bounded measure |
| SubAgents.StuckMeansSettled | internal/agent/subagents.go:411-466 | when no internal step is possible nothing is queued or unreported, and the loop sleeps without a token or, once closed, has exited |
| SubAgents.EveryStateDrains | internal/agent/subagents.go:411-466 | from every reachable state each schedule without new sends or closes is finite and some such schedule settles |
| TaskNames.CandidatesDiffer | internal/agent/subagents.go:279-294 | the candidates base, base_2, base_3, ... are pairwise distinct |
| TaskNames.TriedFit | internal/agent/subagents.go:279-294 | pigeonhole: n candidates that are all taken need at least n children |
| TaskNames.SubAgentManager.NameTaken | internal/agent/subagents.go:281-288 | true exactly when some child has the name, whatever the iteration order |
| TaskNames.SubAgentManager.UniqueTaskNameLocked | internal/agent/subagents.go:272-295 | a non-blank request whose trimmed name is free gets that name; otherwise the name is the first free one among the base and base_2, base_3, ..., within one more try than there are children, the base of a blank request being agent_ with the sequence number, which only a blank request counts up |
| TaskNames.SubAgentManager.Register | internal/agent/subagents.go:123-161 | adds the child under a name no other child has, the requested one if it is free; children's names stay pairwise distinct, non-blank and trimmed |
| TaskNames.SubAgentManager.Forget | internal/agent/subagents.go:123-169 | taking a child back keeps the names distinct |
| TaskNames.SubAgentManager.Resolve | internal/agent/subagents.go:232-250 | finds exactly the child that answers: a run id first, then a name; blank and unknown targets give their errors |
| TaskNames.NameHasOneAnswer | internal/agent/subagents.go:232-250 | a child's name resolves to that child alone if and only if it is not the run id of another |
| Session.RunSessionState.EnqueueNotification | internal/agent/session.go:157-166 | appends the trimmed text after those waiting, drops blank ones |
| Session.RunSessionState.ConsumeNotifications | internal/agent/session.go:168-179 | hands out all pending notifications in order and leaves none |
| Session.QueueConserves | internal/agent/session.go:157-179 | over any sequence of calls, what was handed out and what still waits is exactly what was enqueued, once and in order |
| Session.PrepareStep | internal/agent/runtime.go:456-478 | consumes notifications, compacts if needed, and yields live messages with notifications, or in place of both the rebuilt prompt, which reads as the uncovered log does, with the system prompt that goes with it |
| Session.AnnouncedExactly | internal/agent/runtime.go:456-461 | notification i becomes the user message at that place behind the live ones, ending in its text |
| Session.NotificationsReachExactly | internal/agent/runtime.go:464-478 | the notifications a step consumes stand in its prompt exactly when there is no checkpoint and the step makes none; otherwise the prompt does not depend on them |
| Session.NotificationsReachUpToFirstCompaction | internal/agent/runtime.go:456-478 | in every run notifications reach the model up to the first accepted compaction, and from then on, through every continuation and resumption, none does |
| Trace.TraceBuilder.AddUserMessage | internal/agent/trace.go:215-223 | appends one user message with the next id |
| Trace.TraceBuilder.OnTextDelta | internal/agent/trace.go:225-231 | appends to the pending text, keeping the first start time |
| Trace.TraceBuilder.OnReasoningDelta | internal/agent/trace.go:233-239 | appends to the pending reasoning, keeping the first start time |
| Trace.TraceBuilder.OnToolCall | internal/agent/trace.go:241-260 | appends a pending call and records its start |
| Trace.TraceBuilder.OnToolResult | internal/agent/trace.go:262-304 | flushes, then appends one tool message with the output text, error flag and recorded start of the call |
| Trace.TraceBuilder.FlushAssistant | internal/agent/trace.go:306-329 | moves what is pending into one assistant message and clears the buffers, or does nothing |
| Trace.TraceBuilder.Snapshot | internal/agent/trace.go:339-391 | the log followed by what is pending, without changing the builder |
| Trace.TraceBuilder.Build | internal/agent/trace.go:402-410 | flushes and returns the whole log |
| Trace.LogOnlyGrows | internal/agent/trace.go:215-329 | over every event sequence the earlier log is a prefix of the later |
| Trace.IdsStayInOrder | internal/agent/trace.go:623-625 | message i keeps the id for position i, in the log and in snapshots |
| Trace.IdCounts | internal/agent/trace.go:623-625 | the numeral in the id of a position has the value position + 1 |
| Trace.IdsDiffer | internal/agent/trace.go:623-625 | different positions have different ids |
| Trace.UserStamps | internal/agent/trace.go:215-223 | a user message is stored with its text, id and time, and what is pending stays pending |
| Trace.PendingStarts | internal/agent/trace.go:225-260 | the pending message starts with the first delta or call since the last flush |
| Trace.FlushStamps | internal/agent/trace.go:306-329 | the flushed message holds the buffers, the start and the time of the flush, and nothing stays pending |
| Trace.ResultStamps | internal/agent/trace.go:262-304 | a result is stored with its call id and name, the text that its kind of output has, its flags, and the time from its call to now |
| Trace.CallStamps | internal/agent/trace.go:241-260 | a call is kept with its arguments and the time it came, and starts of other calls stay |
| Trace.EventsConserved | internal/agent/trace.go:215-329 | log and pending buffers together hold exactly the events' texts, reasoning, calls, results and user messages, in order |
| Trace.SnapshotIsFlush | internal/agent/trace.go:339-410 | a snapshot equals what a flush would store but for the end time of the last message, and says everything so far |
| Compaction.SplitPointBest | internal/agent/compaction.go:540-568 | the split is the largest boundary up to the target, else the smallest above it, and 0 only when too short or without boundary |
| Compaction.BestSplitUnique | internal/agent/compaction.go:540-568 | that description determines the split |
| Compaction.FindCompactionSplitPoint | internal/agent/compaction.go:540-568 | the two loops find that split |
| Compaction.SplitNeverMovesBack | internal/agent/compaction.go:540-568 | on a growing log with a target that does not decrease the split never moves back |
| Compaction.CoveredShrinksExactly | internal/agent/compaction.go:182-190 | a later compaction covers less than an earlier cut exactly when its target lies before that cut and a boundary does too |
| Compaction.BoundaryTailKeepsCallers | internal/agent/compaction.go:211-235 | if every result answers the turn it follows, a tail cut at any boundary holds each result's call |
| Compaction.NoCutOrphansExactly | internal/agent/compaction.go:211-235 | no split point ever orphans a result if and only if every result answers the turn it follows |
| Compaction.TraceToFantasyMessages | internal/agent/trace.go:412-454 | the loop builds the prompt of the stored messages |
| Compaction.PromptReadsAsLog | internal/agent/trace.go:412-454 | read item by item the prompt says exactly what the log says, in order: user texts, assistant texts that are not blank, calls with name and arguments, and each result with its call id and text; one message for each message that says anything |
| Compaction.PromptKeepsCallers | internal/agent/trace.go:412-454 | conversion drops empty assistant messages but never the call of a result |
| Compaction.CollectRefsExact | internal/agent/compaction.go:421-439 | the references are exactly the mentioned output ids, without duplicates |
| Compaction.RefsTellFirstMention | internal/agent/compaction.go:421-439 | each reference tells tool and call of the first message that mentions its output |
| Compaction.RefsInOrder | internal/agent/compaction.go:421-439 | the references come in the order of those messages |
| Compaction.CollectToolOutputRefs | internal/agent/compaction.go:421-439 | the loop collects exactly those |
| Compaction.MergedExact | internal/agent/compaction.go:164-176 | merging with the previous checkpoint gives the union of ids, still without duplicates; the new references come first and each one is as it was |
| Compaction.MissingInOrder | internal/agent/compaction.go:164-176 | the earlier references that are missing keep their order |
| Compaction.CompactionManager.CarryForward | internal/agent/compaction.go:164-176 | appends the earlier references that are missing, in order |
| Compaction.CompactionManager.RestoreCheckpoint | internal/agent/compaction.go:69-89 | takes the last record as checkpoint and the number of records as count; without records nothing changes |
| Compaction.CompactionManager.NeedsCompaction | internal/agent/compaction.go:93-111 | the conditions under which a step compacts |
| Compaction.NeedsCompactingExactly | internal/agent/compaction.go:93-111 | the threshold in exact terms: the estimate exceeds the given percentage of the window, besides the other conditions |
| Compaction.CompactionManager.Compact | internal/agent/compaction.go:116-204 | each refusal in order and without effect; otherwise the record keeps the generated summary in every field but the references, which are the carried ones, is reactive exactly when aggressive, and the checkpoint holds the record's summary, covered count and output ids |
| Compaction.AcceptedExactly | internal/agent/compaction.go:116-154 | a compaction goes through exactly when it is allowed, there is more than is to be kept, some message after the first begins a turn, and the model summarised; it then covers the best split |
| Compaction.CompactionManager.AugmentedSystemPrompt | internal/agent/compaction.go:236-248 | the original system prompt with the rendered checkpoint appended |
| Compaction.AugmentedExactly | internal/agent/compaction.go:236-248 | the original prompt is in front, the rendered checkpoint at the end, and between them a blank line exactly if there is an original |
| Compaction.CompactionManager.ApplyToStep | internal/agent/compaction.go:211-235 | the placeholders and then messages that read as the uncovered tail of the log does, with the augmented system prompt, and nothing without a checkpoint |
| AgentRun.ResumeIsNoInterruption | internal/agent/run.go:320-339 | in every reachable run the records restore exactly the live manager, the count is their number and within the maximum, the messages of the rebuilt prompt equal the uninterrupted ones, and the whole prompts do if and only if none is rebuilt or both managers had the same system prompt |
| AgentRun.ResumeKeepsSystemExactly | internal/agent/run.go:296-338 | after a resumption the manager has the agent's own system prompt if and only if the request supplies one or the trace has none |
| AgentRun.ResumeLosesSystem | internal/agent/run.go:327-338 | a reachable compacted run, resumed without repeating the user's system prompt, has lost it from its rebuilt prompts |
| AgentRun.SpilledOutputsSurvive | internal/agent/compaction.go:161-191 | every output id in the log is in the kept tail or among the carried references, which are exact and free of duplicates |
| AgentRun.ReferencesNeverShrink | internal/agent/compaction.go:164-176 | no later action drops a carried reference |
| AgentRun.RecordsStoreSummaries | internal/agent/compaction.go:154-201 | over any actions, record for record, a run stores what the model summarised at the action that made it, reactive exactly for an overflow |
| AgentRun.CheckpointHoldsLastSummary | internal/agent/compaction.go:179-201 | after any run, through overflows and resumptions, there is a checkpoint exactly when some action was summarised, and in every field but the references it holds the last summary |
| AgentRun.EffectiveExactly | internal/agent/runtime.go:576-586 | the user's part of the system prompt stands, trimmed and on a line of its own, between the base prompt and the additions; a blank one leaves nothing |
| AgentRun.CoveredShrinksInARun | internal/agent/compaction.go:182-190 | in a run of three messages an overflow covers two and the retried step's normal compaction, which is needed, covers one |
| AgentRun.RebuiltPromptHasNoOrphan | internal/agent/runtime.go:462-478 | after any orderly run, with any compactions and resumptions, no tool result in the rebuilt prompt lacks its call |
| AgentRun.ExecuteKeepsInv | internal/agent/run.go:591-660 | every sequence of streaming, proactive and reactive compaction and resumption keeps manager, cuts, references and record count in agreement |
| ToolVisibility.AgentRuntime.MergeIntoSet | internal/agent/runtime.go:687-697 | adds exactly the trimmed ids the catalog knows |
| ToolVisibility.AgentRuntime.ToSet | internal/agent/runtime.go:673-685 | exactly the trimmed ids the catalog knows |
| ToolVisibility.AgentRuntime.RemoveFromSet | internal/agent/runtime.go:699-709 | removes exactly the trimmed ids |
| ToolVisibility.AgentRuntime.HasHiddenEnabledTools | internal/agent/runtime.go:406-420 | true exactly when an enabled tool other than the search tool is neither pinned nor revealed |
| ToolVisibility.AgentRuntime.ResolveToolState | internal/agent/runtime.go:315-404 | the layered resolution and clean-up, as a function of catalog, configuration, stored lists and selection |
| ToolVisibility.AgentRuntime.RevealTools | internal/agent/runtime.go:631-654 | reveals the enabled, unpinned ids and returns each newly revealed one once |
| ToolVisibility.AgentRuntime.VisibleToolIDs | internal/agent/runtime.go:510-525 | lists exactly the enabled tools that are pinned or revealed, in display order |
| ToolVisibility.FilterExactly | internal/agent/runtime.go:510-525 | the list keeps the display order and every id to be shown |
| ToolVisibility.ResolveWellFormed | internal/agent/runtime.go:315-404 | enabled within the catalog, pinned and revealed within enabled, overlap at most in the search tool, which is enabled and pinned whenever something is hidden |
| ToolVisibility.LayersExactly | internal/agent/runtime.go:315-372 | an id is in a resolved set exactly when plan mode forces it, or nothing removes it and it is added or the topmost given list (else the default) has it, outer white space apart |
| ToolVisibility.ResolveExactly | internal/agent/runtime.go:315-404 | the resolved state by catalog, configuration lists, stored lists and selection alone: which ids are enabled, pinned and revealed, with the search tool added exactly when the inputs enable some other tool and leave it out of sight |
| ToolVisibility.ConfigurationDecides | internal/agent/runtime.go:320-344 | with nothing stored or selected an id is on exactly if the configuration does not disable it and the catalog or the configuration enables it, and pinned exactly if it is on and either of them pins it |
| ToolVisibility.OverlapExactly | internal/agent/runtime.go:315-404 | the exact inputs for which a tool ends up both pinned and revealed |
| ToolVisibility.OverlapHappens | internal/agent/runtime.go:386-397 | for every catalog with the internal tools: a state that a first run reaches and stores, after which enabling one more tool leaves the search tool pinned and revealed |
| ToolVisibility.RevealKeepsWellFormed | internal/agent/runtime.go:631-654 | one reveal keeps all that and makes visible exactly the enabled ids it names |
| ToolVisibility.RevealsOnlyGrow | internal/agent/runtime.go:285-313 | any number of reveals keeps it, leaves enabled and pinned alone and only grows what is visible |
| ToolVisibility.SelectionWins | internal/agent/runtime.go:315-404 | what disabling, enabling, unpinning and pinning by name guarantee over the layers below |
| ToolVisibility.PlanToolsVisible | internal/agent/runtime.go:315-404 | plan mode shows its own tools under every selection |
| ToolVisibility.ResolveAgain | internal/agent/runtime.go:527-533 | resolving a stored state keeps enabled, pinned and visible tools, and doing it again changes nothing |
| ToolVisibility.EnabledSurvivesExactly | internal/agent/runtime.go:673-697 | the enabled set survives storing if and only if none of its ids is blank or has outer white space |
| ToolVisibility.UntrimmedIdIsLost | internal/agent/runtime.go:673-697 | for every catalog and configuration that enable a tool whose id has outer white space: the reached state has it, and storing and resolving loses it |
| Leases.RunKeepsInv | internal/agent/skill_exec.go:168-371 | every orderly run (commands run in the workspace itself, what a shell mirrors back covers it), whatever calls fail and how, keeps locks, lock files, leases and positions in agreement |
| Leases.CallsDoExactly | internal/agent/skill_exec.go:168-371 | containers come and go, and lease files in a directory, by exactly four calls of a lock holder, and exactly when the call takes effect, whatever it reports |
| Leases.ListingDecides | internal/agent/skill_exec.go:168-216 | a listing that succeeds leads to a creation exactly when the container is not there |
| Leases.ClaimEndsExactly | internal/agent/skill_exec.go:311-353 | a runtime's claim on a container ends exactly by skipping its release or by trying, under its lock, to remove the lease file |
| Leases.LeasesAreKept | internal/agent/skill_exec.go:286-306 | in every orderly run each container a runtime counts on or runs a command in has that runtime's lease file |
| Leases.LeasesAreSafe | internal/agent/skill_exec.go:168-237 | if besides no creation fails silently, those containers exist |
| Leases.CreationSafeExactly | internal/agent/skill_exec.go:216-237 | a creation keeps all later orderly runs safe if and only if it took effect, found the container there, or reported an error; the code tests only the last |
| Leases.SilentCreationReached | internal/agent/skill_exec.go:216-237 | the first command reaches a creation that exits with a failure, and ends up counting on a container that does not exist |
| Leases.OneActsOnContainer | internal/agent/skill_exec.go:168-371 | in every orderly run only one runtime acts on a container under a lease lock, even when another lock file was unlinked |
| Leases.RemovedOnlyUnclaimed | internal/agent/skill_exec.go:337-371 | in every orderly run a container disappears only while nobody counts on it, still has it to release, or runs a command in it |
| Leases.RemovedOnlyUnleased | internal/agent/skill_exec.go:337-371 | and, as long as nothing is mirrored back, only while it has no lease file |
| Leases.SyncKeepsInvExactly | internal/agent/tools_shell.go:236-240 | mirroring a shell's copy back keeps locks and leases in agreement if and only if the copy covers every claim, the commands lock in use and the locks in use |
| Leases.UnchangedCopyCovers | internal/agent/tools_shell.go:236-240 | a copy with exactly the lease files and lock paths there are now covers |
| Leases.SyncLosesLease | internal/agent/tools_shell.go:236-240 | a lease registered while a shell runs is deleted when its copy is mirrored back, and a container in use is then removed |
| Leases.LastInDirectoryRemoves | internal/agent/skill_exec.go:311-371 | a teardown that sees no other lease in the directory it last leased in removes the container, whatever other directories hold |
| Leases.CommandInCopyRemoves | internal/agent/tools_shell.go:176-190 | a skill command run inside a shell leases in the shell's copy, and its teardown removes a container that another runtime holds, lease file in place |
| Leases.UnlinkedUnderWaiter | internal/agent/skill_exec.go:355-371 | a reachable orderly run in which the lock file is unlinked while another runtime waits on it |
| Leases.UnlinkedWaiterIsAlone | internal/agent/skill_exec.go:82-86 | in orderly runs a runtime that waits on an unlinked lock file is about to ensure the container, and nobody else claims it, acts on it or waits for its lock |
| Leases.LastHolderRemoves | internal/agent/skill_exec.go:337-371 | when every call succeeds, each container has a runtime that claims it, has just created it or is removing it, and none is left, nor any lease, once all are idle and hold nothing |
| Glob.GlobToRegex | internal/agent/tools_files.go:800-855 | the scanning loop emits the specified translation, or the error for an unclosed brace or class |
| Glob.SplitCommasExact | internal/agent/tools_files.go:821 | the parts of a brace group have no comma and, joined by commas, give its text |
| Glob.NoOtherSplit | internal/agent/tools_files.go:821 | no other list of parts does |
| Glob.ClassIsVerbatim | internal/agent/tools_files.go:831-848 | inside a class plain characters, also those that are escaped outside, are written as they are |
| Glob.CompileWorkspaceGlob | internal/agent/tools_files.go:792-798 | anchors it at both ends |
| Glob.EmissionReadsBack | internal/agent/tools_files.go:800-855 | the emitted text reads back as exactly the intended operators and literals |
| Glob.NodesMeanGlob | internal/agent/tools_files.go:800-855 | those match exactly the paths the glob matches, whose brace groups are read off the pattern's own text: any stretch between the braces that commas or braces bound |
| Glob.CompiledGlobMeansGlob | internal/agent/tools_files.go:792-855 | every accepted pattern without a class compiles to a regex that matches exactly the glob's paths, `**` stopping at newlines |
| Glob.NewlineFreeIsPlain | internal/agent/tools_files.go:800-855 | on newline-free paths that is the plain meaning of the glob |
| Glob.RefusedExactly | internal/agent/tools_files.go:817-854 | a pattern is refused exactly when some brace has no closing brace after it or a class is left open |
| SyncBack.Workspace.SyncWorkspaceChanges | internal/agent/tools_shell.go:441-521 | succeeds exactly when no path is a directory on one side and a file on the other, and then the real tree equals the snapshot; a failure removes nothing |
| SyncBack.Workspace.CopyPass | internal/agent/tools_shell.go:441-489 | overlays the snapshot and writes exactly the files that differ |
| SyncBack.Workspace.Absent | internal/agent/tools_shell.go:491-512 | the walk that skips below what it collects collects exactly the topmost absent paths |
| SyncBack.Workspace.RemovalPass | internal/agent/tools_shell.go:513-521 | removes the collected subtrees and nothing else |
| SyncBack.AbsentLiesUnderTop | internal/agent/tools_shell.go:491-512 | every absent path lies at or below a topmost absent one |
| SyncBack.PresentLiesUnderNone | internal/agent/tools_shell.go:491-512 | no path of the snapshot lies at or below one |
| SyncBack.CollectsExactly | internal/agent/tools_shell.go:491-512 | at each step of the walk the skip test and the membership test together pick out the topmost absent paths |
| SyncBack.PruningLeavesSnapshot | internal/agent/tools_shell.go:491-521 | removing those subtrees from the overlaid tree leaves the snapshot |
| SyncBack.SecondSyncIsIdle | internal/agent/tools_shell.go:441-521 | a second sync has nothing to write or remove |
| Find.ParseCond | internal/agent/shell_builtins.go:1860-1989 | parsing one condition always consumes at least one token and stays within the tokens |
| Find.ParseAndGroup | internal/agent/shell_builtins.go:2019-2044 | the loop parses one AND-group, skipping print actions |
| Find.ParseOrGroups | internal/agent/shell_builtins.go:1998-2044 | the loop parses the groups between `-o` tokens |
| Find.MatchEntry | internal/agent/shell_builtins.go:2047-2065 | the nested loops evaluate an OR of ANDs, the first error winning |
| Find.PatternOptions | internal/agent/shell_builtins.go:1878-1914 | the command lines `-name`, `-iname`, `-path` and `-ipath` with a pattern, parsed and evaluated: what each matches against what |
| Find.TypeOption | internal/agent/shell_builtins.go:1916-1931 | `-type` with f, d or l selects that kind; any other letter is an error at every entry |
| Find.DepthOptions | internal/agent/shell_builtins.go:1933-1955 | `-maxdepth` and `-mindepth` with a numeral compare the depth with its value, limits included |
| Find.SizeOption | internal/agent/shell_builtins.go:1957-1979 | `-size` with sign, numeral and unit selects by more, less or exactly that many bytes; a size that cannot be read is never selected |
| Find.WrapExactly | internal/agent/shell_builtins.go:2167-2171 | the product of number and unit is exact in 64 bits and otherwise right modulo 2^64 |
| Find.NotNegates | internal/agent/shell_builtins.go:1866-1875 | `-not` or `!` before one condition turns its answer round and keeps its errors |
| Find.AndJoins | internal/agent/shell_builtins.go:2019-2065 | two command lines side by side select what both do, the first to fail or err deciding |
| Find.OrJoins | internal/agent/shell_builtins.go:1998-2065 | with `-o` between them they select what either does, the second being asked only where the first says no |
| Find.PrintAsksNothing | internal/agent/shell_builtins.go:2003-2006 | print tokens and the empty command line select everything |
| Find.MaxDepthLimit | internal/agent/shell_builtins.go:2067-2078 | the scan's limit is that of the numbers following `-maxdepth`, wherever they stand |
| Find.LimitIsLeast | internal/agent/shell_builtins.go:2067-2078 | for limits that are not negative that is the least one, and none exactly if there are none |
| Find.GroupScanned | internal/agent/shell_builtins.go:2067-2078 | in a group that parses, the raw token scan finds exactly the depth limits of the parsed conditions |
| Find.Walk | internal/agent/shell_builtins.go:2085-2130 | the recursive walk prints what the pruned walk selects |
| Find.DepthCountsSeparators | internal/agent/shell_builtins.go:2099-2103 | the depth of every entry is one more than the number of separators in its path relative to the start |
| Find.PathsStayTidy | internal/agent/shell_builtins.go:2105-2110 | from a clean start path the walk shows clean paths only |
| Find.PruningIsExact | internal/agent/shell_builtins.go:2093-2125 | pruning prints what the full walk would, on every tree, when nothing below the limit can match |
| Find.OneGroupPrunesExactly | internal/agent/shell_builtins.go:2067-2125 | that covers every command of one AND-group without a negated `-maxdepth` |
| Find.OrCommandPrunesExactly | internal/agent/shell_builtins.go:1998-2125 | so does every command line whose OR-groups all carry the scanned limit, and every one without a limit |
| Find.PruningLosesExactly | internal/agent/shell_builtins.go:2093-2125 | for every command and tree the full output is the pruned output plus the matches below pruned directories, and the two agree exactly when there are none |
| Find.StructuralCommandPrunesExactly | internal/agent/shell_builtins.go:1998-2125 | for command lines about depth and type, pruning at the scanned limit is exact on all trees if and only if there is no limit or each group's range ends by it or is empty |
| Find.NegatedLimitLosesOutput | internal/agent/shell_builtins.go:2067-2078 | the command line `-not -maxdepth 0`, parsed and scanned, loses an entry that matches |
| Find.OtherSideLosesOutput | internal/agent/shell_builtins.go:2067-2078 | so does the command line `-maxdepth 0 -o -type f` |
| Truncation.TruncateUTF8StringToBytes | internal/agent/tool_output.go:275-299 | a prefix on a rune boundary, flagged exactly when the input exceeds the limit, with the number of runes kept |
| Truncation.KeptWithinEight | internal/agent/tool_output.go:284-293 | the result has at most eight bytes more than the limit |
| Truncation.KeptFitsExactly | internal/agent/tool_output.go:284-298 | it fits the limit if and only if the input without its last two runes does, and then it is the longest prefix that fits |
| Truncation.KeptOvershoots | internal/agent/tool_output.go:284-293 | otherwise it is one rune longer than the shortest prefix that exceeds the limit |
| Truncation.EightIsReached | internal/agent/tool_output.go:284-293 | for every positive limit some input exceeds it by exactly eight bytes |
| ShellQuoting.QuoteRoundTrip | cmd/agent_traces.go:1300-1305 | a quoted argument without NUL reads back as one word equal to it |
| ShellQuoting.QuoteIsInjective | cmd/agent_traces.go:1300-1305 | different arguments are quoted differently |
| ShellQuoting.QuotedLineRoundTrip | cmd/agent_traces.go:1300-1305 | a line of quoted arguments reads back as exactly that list |
| ShellQuoting.NestedRoundTrip | cmd/agent_traces.go:1300-1305 | quoting any number of times undoes layer by layer |
| Consolidation.KeysCollideExactly | scripts/consolidate_trace_exports.py:110-117 | two records share a key exactly when the same field with the same value identifies both |
| Consolidation.PriorityIsOrder | scripts/consolidate_trace_exports.py:27-42 | the scores put the categories in the listed order, those listed together being equal and unlisted ones last |
| Consolidation.SourcePriority | scripts/consolidate_trace_exports.py:120-121 | the highest priority among the categories, 0 for none |
| Consolidation.MergeRecord | scripts/consolidate_trace_exports.py:124-149 | the incoming record wins only with a strictly higher priority; sources and categories are united and the sources counted |
| Consolidation.LoadRecords | scripts/consolidate_trace_exports.py:152-184 | the nested loops fold every line of every file in order |
| Consolidation.LoadedExactly | scripts/consolidate_trace_exports.py:152-184 | after any input each key's sources, categories and count are exact and the kept record is the first with the highest priority |
| Consolidation.KeepsFirstListed | scripts/consolidate_trace_exports.py:124-184 | the record kept for a key is the first one whose category is listed earliest |
| Consolidation.FaultsExactly | scripts/consolidate_trace_exports.py:166-173 | every faulty line is reported once and in order, with file, number and whether it parsed |
| Consolidation.ItemsExactly | scripts/consolidate_trace_exports.py:157-161 | line n of a file is read after all lines of the files before it and numbered n + 1; nothing else is read |
| Consolidation.OrderIrrelevant | scripts/consolidate_trace_exports.py:124-184 | keys, sources, categories and counts do not depend on the order of the input |
| Consolidation.EveryLineCounted | scripts/consolidate_trace_exports.py:165-174 | a file's count is its merged lines plus its reported errors |

## Left out

- Model calls and streaming: a generated summary is an arbitrary value, whose output references the code overwrites; filtering its file list needs the file system.
- Token counting: the estimates are functions of the configuration, and no result depends on their values.
- Rendering of the checkpoint block: a string template, a function of the configuration. The base system prompt with the date, mode and additions is a function of time.
- Storage: a stored trace is restored as the value that was stored; the database and the JSON encoding are not modelled.
- Clocks, UUIDs and randomness are parameters.
- Trace.TraceBuilder.OnToolResult: the parsed JSON kept beside the output text, which no other modelled code reads.
- Trace.TraceBuilder.Snapshot: defaults for the trace's metadata and its token estimates; the messages are modelled.
- Trace.TraceBuilder.Build: likewise, and the error of a failed serialisation.
- Compaction.TraceToFantasyMessages: calls stored without a function part, which it skips and no code of the repository writes (both writers, internal/agent/trace.go:251 and 478, set it).
- Compaction.PromptKeepsCallers: likewise.
- ToolVisibility.AgentRuntime.RevealTools: the returned ids are sorted; the model has them in the order asked for.
- ToolVisibility.ResolveAgain: for ids without outer white space; `ToolVisibility.EnabledSurvivesExactly` shows that others are lost.
- Orders by string comparison (task lists, tool ids, merged source lists): sets, or any order.
- SubAgents: nested managers, `closeAll`, polling for results and the text of notices; one child and its parent are modelled.
- Session.PrepareStep: the list of active tools that the same function adds; `ToolVisibility` has it.
- Compaction.CompactionManager.Compact: the summary is taken after the filter on existing files, which needs the file system; requires both counts of recent messages to be at least 1, as internal/config/config.go:777-787 ensures; with 0 the split search would index out of range.
- AgentRun.RebuiltPromptHasNoOrphan: for orderly runs, where each result answers an open call of the last turn; `Compaction.NoCutOrphansExactly` says what happens otherwise.
- Leases: one workspace, whose containers no other workspace shares. A runtime is sequential: commands in one directory exclude one another by `commands.lock`, and it tears down in the deferred close after its stream; two commands of one runtime at once, one of them inside a shell, are not modelled. Copying and mirroring are one step each. The protocol is a state machine over values, since its steps interleave across processes. Setup steps, whether an existing container runs, administrative removal of containers and container naming are left out.
- Leases.RemovedOnlyUnclaimed: does not promise that no lease file is left, because mirroring an old copy back can restore the lease file of a container already released; `Leases.RemovedOnlyUnleased` does for runs without mirroring.
- Leases.LeasesAreKept: for orderly runs, since `Leases.SyncLosesLease` and `Leases.CommandInCopyRemoves` show that it fails in others; likewise the other results about orderly runs.
- Glob.CompileWorkspaceGlob: refusals of the regex compiler itself; for patterns without a class `Glob.CompiledGlobMeansGlob` reads the emitted text as a well-formed regex.
- Glob.CompiledGlobMeansGlob: patterns with a bracket outside brace groups, that is with a character class, inside which the translation still rewrites `*`, `?` and `{`, so that they have no clean meaning; and invalid UTF-8.
- SyncBack.Workspace.SyncWorkspaceChanges: symbolic links, file modes, input and output errors other than kind clashes, and removals that fail and are ignored.
- Find.StructuralCommandPrunesExactly: names and sizes depend on library matching and file contents; for them `Find.OrCommandPrunesExactly` is sufficient and `Find.PruningLosesExactly` exact tree by tree.
- Find.Walk: unreadable directories, symbolic links at the start, several start paths, the text of errors and the `-print0` separator; `filepath.Match` is a parameter.
- Truncation.TruncateUTF8StringToBytes: strings of valid UTF-8, for which the inner validity loop does nothing.
- ShellQuoting: the reader refuses anything that needs more of the shell than blanks and quotes.
- Consolidation.MergeRecord: the merged lists are sets, without the order they are written in.
- Consolidation.LoadRecords: hashing and stripping, which are parameters of the key; malformed metadata; discovery of input files and the manifest.
- Search, job queue, knowledge store, OAuth, MCP, chat and web clients, commands and the user interface: foreign libraries or plumbing.
