# Verified models of the chat bridge's core

The program connects chat platforms to coding agents. Most of it is input and output; this
project models the parts of `core/` that are protocols, tables and algorithms, in Dafny, and
proves what they promise. `dafny verify dfyconfig.toml` checks everything.

A component that changes state in place is a class whose methods are the program's critical
sections or loops. Each method is proved against a specification function on values, and the
theorems are about those functions: over every run, every interleaving, or every text.

| file | models |
|---|---|
| `TurnLocks.dfy` | the locks by which turns own an agent session ID, as a step system of any number of guards and cron turns, and the lock table and guard as classes |
| `JobManager.dfy`, `JobRuns.dfy`, `JobGuarantees.dfy` | the job scheduler: register, start, cancel, run, finish, record, crash and reload, in memory and on disk, and the manager as a class; what every run keeps; what that means for a job |
| `PromptQueue.dfy` | the prompt queue of a chat as a refinement of an abstract FIFO, and the engine's queue table as a class |
| `QueueRuns.dfy` | the goroutines around the queue: handlers, drains, cron turns, `/new` and `/switch`, with session busy bits and transition locks |
| `QueueGuarantees.dfy` | what every run means for a chat: its gate, its bounds, its order, the session its prompts are sent under |
| `QueueLimits.dfy`, `QueueExtremes.dfy` | exactly which steps take the queue beyond its limits, and how far it can go |
| `ReviewPrompt.dfy` | the omission marker, the budget split and the bounded revision prompt |
| `SplitMessage.dfy`, `Utf8.dfy` | the message splitter on bytes, and valid UTF-8 (section 4 of RFC 3629) |
| `TtsChunks.dfy` | the text-to-speech chunker: paragraphs, sentences, lengths |
| `FenceSplit.dfy` | the splitter that reopens code blocks |
| `JobTextBuffer.dfy` | the tail-keeping text buffer and the event list of a job |
| `RateLimiter.dfy` | the sliding-window limiter and its cleanup |
| `LoopInterval.dfy`, `CronScheduler.dfy` | loop intervals with 64-bit durations, the job store, and the scheduler's entry table that indexes it |
| `Collect.dfy` | collect mode: batches, flushes, attachment labels |
| `Text.dfy`, `Arithmetic.dfy` | trimming, lines, decimal numbers, division |

Where the code and what its documentation or shape promises differ, the model follows the code
and the difference is a theorem:

- The cron path makes lock keys from the agent's name as it is, the interactive path trims it.
  Turns of both kinds exclude each other on a session ID exactly when the name is not blank and
  needs no trimming (`TurnLocks.OneTurnPerIDExactly`). Every agent in the repository has such a
  name, a constant of its package, so that the clash takes an agent added from outside.
- A dispatched job that has ended before its goroutine begins frees its project's slot without
  a dispatch. That is the one and only way a project becomes idle with jobs waiting
  (`JobGuarantees.StallsExactly`); a run where it happens is `JobGuarantees.StallHappens`.
- Cancelling a queued job answers success even if the record could not be saved; after a restart
  the job is queued again exactly in that case (`JobGuarantees.RestartRequeuesExactlyUnsaved`).
- Enqueueing allows 20 items and 50 MiB, but a prompt that is put back is not checked. A step
  takes a queue beyond a limit exactly when it puts an item back for which there is no room
  (`QueueLimits.QueueLimitsPassedExactly`, `QueueLimits.LimitsKeptExactly`). Runs of the program
  reach 21 items and 100 MiB at once (`QueueExtremes.BoundsAreReached`) and none goes further
  (`QueueGuarantees.ChatIsBounded`). The limit of 200 MiB on all queues together is passed in the same
  way only (`QueueLimits.EngineLimitPassedExactly`), but without bound: with n chats, n times
  50 MiB can be put back (`QueueExtremes.TotalIsUnbounded`).
- The redistribution in the budget split and the final length error of the revision prompt
  cannot be reached (`ReviewPrompt.RedistributionIsDead`, `ReviewPrompt.RevisionAlwaysFits`).
- An enabled job whose save failed while it was added stays in the store without a cron entry;
  no other addition breaks the index (`CronScheduler.AddKeepsIndexExactly`). A loop job every
  ten minutes does (`CronScheduler.AddCanBreakIndex`).
- A long loop interval wraps around: 213504 days are accepted and become some 25 minutes
  (`LoopInterval.LongIntervalWraps`); the duration is exact just when it fits 64 bits.

## Model

| member | source | states |
|---|---|---|
| TurnLocks.LockAccounting | core/engine.go:482-523 | In every reachable state a lock's `refs` is the number of turns that wait on or hold it, it is in the map exactly while that number is positive, every such turn refers to the lock object the map holds now, and its channel is full exactly when some turn holds it |
| TurnLocks.OneHolderPerKey | core/engine.go:498-514 | Two turns, of whatever kind, never hold the same key, although entries are deleted and made anew |
| TurnLocks.UnknownIDExcludesEntry | core/engine.go:428-480 | While a turn of unknown ID owns the bind lock, no other turn owns it and no turn of known ID is between taking the bind lock and retaining its own lock |
| TurnLocks.KeysAgree | core/engine.go:941-948 | Interactive and cron turns use the same key for an ID if and only if the agent's name is its own trimmed form and not blank |
| TurnLocks.KeyIsOfAskedID | core/engine.go:414-426 | In every reachable state the key of a turn is made of the agent's name (trimmed, or "agent" if blank; for cron turns as it is), a colon and the trimmed ID the turn asked for; only interactive turns without an ID want or have the bind lock exclusively |
| TurnLocks.SpawnAsks | core/engine.go:428-458 | A turn asks for the ID it starts with: without one it wants the bind lock exclusively, with one the shared bind lock; a cron turn without an ID takes no lock |
| TurnLocks.BindAsks | core/engine.go:525-549 | In every reachable state a first Bind with an ID makes the turn ask for it and retain the lock of the agent's name and that ID, keeping an exclusive bind lock until then; a blank ID and a second Bind change nothing |
| TurnLocks.OwnerEndsAs | core/engine.go:551-567 | The owner of an ID gives it up with Unlock: a cron turn is gone, the guard of an interactive one can be bound again, and no other turn changes |
| TurnLocks.CancelledEndsAs | core/engine.go:498-514 | A wait whose context ends returns its reference and changes nothing else; a turn that had no guard is gone, one with a guard can ask again |
| TurnLocks.OneTurnPerIDExactly | core/engine.go:941-948 | Over all runs, at most one turn, cron or interactive, owns a session ID, the one it asked for, if and only if the agent's name is not blank and needs no trimming |
| TurnLocks.ClashReachable | core/engine.go:941-948 | For every other name, a concrete run in which a cron turn and an interactive turn own the same session ID |
| TurnLocks.BlockedTurn | core/engine.go:428-514 | A blocked turn holds nothing but its reference: it waits while owning no lock, and another unfinished turn, the owner of what it waits for, can go on |
| TurnLocks.ReleasesAreOwned | core/engine.go:498-567 | Whatever a turn gives back it owns: no count falls below zero, no empty channel is drained, the bind lock is never unlocked while free |
| TurnLocks.FinishedIsClean | core/engine.go:516-567 | When every turn has ended the map is empty, every count is zero and the bind lock is free |
| TurnLocks.DrainsClean | core/engine.go:428-567 | From every reachable state the turns present can all be driven to their end with no cancellation and no newcomer, in a bounded number of steps, leaving the locks clean |
| TurnLocks.LockTable.TryLockBindMu | core/engine.go:460-480 | One attempt at the bind lock succeeds exactly when it is free for that mode, and otherwise changes nothing |
| TurnLocks.LockTable.UnlockBindMu | core/engine.go:428-458 | Gives back one shared hold or the exclusive one |
| TurnLocks.LockTable.RetainTurn | core/engine.go:482-496 | Finds or makes the lock of a key and counts one more reference, leaving every other lock as it is |
| TurnLocks.LockTable.TryEnter | core/engine.go:498-514 | Fills the channel exactly when it was empty |
| TurnLocks.LockTable.WaitTurn | core/engine.go:498-514 | A look at the select takes the lock if its channel is empty, returns the reference if the context has ended, and otherwise changes nothing |
| TurnLocks.LockTable.ReleaseTurnRef | core/engine.go:516-523 | Returns one reference and with the last one deletes the key, whatever lock the map holds under it by then; LockAccounting says that it still is this one |
| TurnLocks.TurnGuard.Bind | core/engine.go:525-549 | A blank ID or a second call changes nothing; otherwise the exclusive bind lock is given up before the wait, which ends with the ID owned, or with nothing, or stays blocked with the lock retained; the guard never owns both the bind lock and an ID |
| TurnLocks.TurnGuard.Resume | core/engine.go:498-514 | A blocked Bind comes to own its ID exactly when the channel is empty and the context has not ended |
| TurnLocks.TurnGuard.Unlock | core/engine.go:551-567 | Gives back exactly what the guard owns, once |
| TurnLocks.BindStepsAreBind | core/engine.go:525-549 | The steps of a Bind do to the locks what the contract of TurnGuard.Bind says, for the key of the trimmed agent name, and leave the turn owning the ID, finished or waiting |
| TurnLocks.UnlockStepsAreUnlock | core/engine.go:551-567 | The steps of an Unlock do to the locks what the contract of TurnGuard.Unlock says |
| JobGuarantees.InvokedAtMostOnce | core/job.go:343-381 | Over every interleaving and any number of crashes and reloads a job's runner is invoked at most once, and its file then says it started |
| JobGuarantees.OneGoroutinePerProject | core/job.go:609-630 | A project never has two run goroutines, so never two runners |
| JobGuarantees.QueuedIsTracked | core/job.go:190-242 | A queued job is its project's dispatched job or stands exactly once in that project's queue, never both |
| JobGuarantees.QueueHoldsQueued | core/job.go:609-648 | A project's queue holds only known, queued, unstarted jobs of that project |
| JobGuarantees.DispatchInOrder | core/job.go:609-630 | Within one process life, the order of acceptance strictly rises along the dispatched jobs and on along the queue |
| JobGuarantees.IdleMeansEmpty | core/job.go:343-369 | In every run in which no cancellation hits a dispatched job before it begins, an idle registered project has an empty queue |
| JobGuarantees.StallsExactly | core/job.go:356-362 | From a state without stranded jobs, a step strands jobs if and only if it begins a job that has ended while others of its project wait |
| JobGuarantees.StallHappens | core/job.go:356-362 | A concrete run that leaves a registered idle project with a waiting job |
| JobGuarantees.EndedBeforeBeginLeavesQueue | core/job.go:356-362 | In every reachable state, beginning a job that has ended frees the slot and leaves the queue as it is |
| JobGuarantees.SavedCancelNeverRuns | core/job.go:310-341 | A queued job whose cancellation was saved is never run, whatever steps, crashes and reloads follow |
| JobGuarantees.RestartRequeuesExactlyUnsaved | core/job.go:310-341 | Cancel, crash, reload: the job is queued again if and only if its cancellation was not saved |
| JobGuarantees.BootQueuesUnstarted | core/job.go:524-578 | A reload queues an unstarted job if and only if its file says queued |
| JobGuarantees.BootOrphansInterrupted | core/job.go:524-578 | A reload marks exactly the jobs that had started and not ended as orphaned, with project and start mark kept, leaves every other file, stops at the first save that fails, and otherwise leaves in memory just what is on disk |
| JobGuarantees.StartOutcome | core/job.go:190-242 | An accepted job is queued and unstarted in memory and on disk under an ID neither knew; a refusal changes nothing |
| JobGuarantees.CancelOutcome | core/job.go:310-341 | A cancelled job is cancelled in memory and on disk, or, if that cannot be saved, failed in memory only; no other record changes |
| JobGuarantees.BeginOutcome | core/job.go:343-369 | A job that begins is running and started in memory, and that record is what its goroutine goes on to save |
| JobGuarantees.PersistOutcome | core/job.go:370-381 | That save changes just this file, and only with it does the goroutine go on to the run |
| JobGuarantees.FinishOutcome | core/job.go:476-502 | After a saved finish memory and disk both say the outcome; after one that could not be saved memory says failed and the disk is as before |
| JobGuarantees.RecordThenFlush | core/job.go:455-474 | The save after an event writes the record as memory had it at the event |
| JobManager.Manager.RegisterProject | core/job.go:170-188 | Attaches the runner to the project and to its loaded jobs, and dispatches the next one |
| JobManager.Manager.CreateUniqueJobIDLocked | core/job.go:504-522 | The first of at most sixteen generated IDs that neither memory nor disk knows, or an error |
| JobManager.PicksOfSixteen | core/job.go:504-522 | An ID is picked if and only if one of the first sixteen tries is free and no try before it was an error, and it is the first such one |
| JobManager.Manager.Start | core/job.go:190-242 | Refused, it changes neither memory nor disk; accepted, the job is on disk and queued or dispatched |
| JobManager.Manager.Cancel | core/job.go:310-341 | An unknown or ended job is left alone; any other is cancelled and, if it waited, leaves its queue, even if the save fails |
| JobManager.Manager.BeginRunJob | core/job.go:343-369 | An ended job only frees its slot; any other is marked running and started, and a copy goes to be saved |
| JobManager.Manager.FinishJob | core/job.go:476-502 | The outcome is recorded, or failure if it cannot be saved; the slot is freed and the next job taken |
| JobManager.Manager.PrepareNextLocked | core/job.go:609-630 | Takes the first job of the queue that can run, drops those before it, and claims the slot |
| JobManager.Manager.RemoveQueuedLocked | core/job.go:632-648 | Removes a job from its queue, keeping the others in order |
| JobManager.Manager.LoadFile | core/job.go:524-578 | One file of a reload: a job that had started and not ended becomes orphaned, which must be saved; BootOrphansInterrupted says it of the records |
| JobManager.Manager.Load | core/job.go:524-578 | A reload succeeds unless a save it needs fails; then all files are loaded, started ones orphaned, and queues stand in directory order |
| JobManager.RegisterStepIsRegisterProject | core/job.go:170-188 | A register step has the effect of RegisterProject on memory and disk, and starts the goroutine of what it dispatches |
| JobManager.StartStepIsStart | core/job.go:190-242 | A start step refuses and accepts as Start does, with its effect on memory and disk, and starts the goroutine of what it dispatches |
| JobManager.CancelStepIsCancel | core/job.go:310-341 | A cancel step has the effect of Cancel on memory and disk and touches no goroutine |
| JobManager.BeginStepIsBeginRunJob | core/job.go:343-369 | A begin step has the effect of the first critical section of runJob; the goroutine ends or goes on with the copy to save |
| JobManager.FinishStepIsFinishJob | core/job.go:476-502 | A finish step has the effect of finishJob on memory and disk, ends its goroutine and starts that of what it dispatches |
| JobManager.BootStepIsLoad | core/job.go:524-578 | A boot step succeeds exactly when load does, with the files and the memory load leaves |
| PromptQueue.OpRefinesFifo | core/prompt_queue.go:259-299 | Every queue operation but move is a step of an abstract FIFO: pop and requeue are invisible to it, starting takes its head, dropping keeps the order |
| PromptQueue.DoKeepsOrder | core/prompt_queue.go:152-182 | Without move, the numbers strictly rise along started, in flight and queued items |
| PromptQueue.DoKeepsViewOk | core/prompt_queue.go:259-286 | Every operation keeps the bounds of 21 items and 100 MiB on queued plus in-flight items |
| PromptQueue.EngineBytesPick | core/prompt_queue.go:184-193 | The sum over all queues does not depend on the order in which the map is visited |
| PromptQueue.Queues.AttachmentBytesLocked | core/prompt_queue.go:184-193 | The loop computes that sum |
| PromptQueue.Queues.EnqueuePromptLocked | core/prompt_queue.go:152-182 | The item count, the bytes of the queue and the bytes of the engine are checked in this order; an accepted item gets the next number and the last position |
| PromptQueue.Queues.BeginTurnOrEnqueue | core/prompt_queue.go:123-138 | A turn starts at once exactly when the gate is open and nothing waits; otherwise the prompt is queued or refused |
| PromptQueue.Queues.CompletePromptTurn | core/prompt_queue.go:206-245 | Opens the gate, and an empty entry leaves the table |
| PromptQueue.Queues.PopNextQueuedPrompt | core/prompt_queue.go:259-272 | Takes the first item and closes the gate, or does nothing if the gate is closed or nothing waits |
| PromptQueue.Queues.RequeuePromptFront | core/prompt_queue.go:274-286 | Puts the item back in front without any check of the bounds, and opens the gate |
| PromptQueue.Queues.CancelQueuedPromptsForSessionSwitch | core/prompt_queue.go:480-506 | Over all queues, keeps the surviving items in order, leaves other chats' queues as they are, and counts what it cancelled |
| PromptQueue.Queues.ClearPromptQueue | core/prompt_queue.go:552-566 | Empties the queue of one chat and leaves its gate |
| PromptQueue.Queues.DeletePromptQueueItem | core/prompt_queue.go:568-586 | Removes exactly one item |
| PromptQueue.Queues.MovePromptQueueItem | core/prompt_queue.go:588-606 | Exchanges an item with its neighbour and answers true, or does nothing and answers false when there is no such item or neighbour |
| QueueGuarantees.GateHasOneOwner | core/prompt_queue.go:123-138 | In every reachable state of the gated fragment `Running` is true exactly when some goroutine owns the turn, and then exactly one does |
| QueueGuarantees.ChatIsBounded | core/prompt_queue.go:152-182 | In every reachable state a chat's queued and in-flight items are its own, at most 21, with at most 100 MiB |
| QueueRuns.StepMovesViews | core/prompt_queue.go:206-299 | Every step of every goroutine does to each chat's queue exactly one named queue operation |
| QueueGuarantees.StepRefinesFifo | core/prompt_queue.go:206-299 | Every step but move is, to every chat, a step of the abstract FIFO |
| QueueGuarantees.NumbersRise | core/prompt_queue.go:206-299 | In every run without move, started, in-flight and queued items stand in strictly rising number |
| QueueGuarantees.InlineStartOvertakesNothing | core/prompt_queue.go:123-138 | In every reachable state a turn would start inline if and only if nothing waits or is in flight and nobody owns the gate |
| QueueGuarantees.SentUnderRecordedSession | core/prompt_queue.go:320-351 | Over all runs, a user prompt from the queue is sent only while the chat's active session is the one recorded when it was queued |
| QueueGuarantees.CheckExactly | core/prompt_queue.go:320-351 | In every reachable state a popped user prompt passes its check if and only if the chat's active session is the recorded one and the recorded agent session, if any, is the one that session is bound to now; otherwise it fails |
| QueueGuarantees.ArrivalRecords | core/engine.go:1301-1314 | A message records the chat's active session, made if there is none, and that session's agent session |
| QueueGuarantees.HandlerLocks | core/engine.go:1301-1314 | A handler that finds its session busy goes to the queue, any other takes the busy bit |
| QueueGuarantees.QueuedAsAsked | core/prompt_queue.go:123-182 | A prompt is started or queued as the gate and the queue say; it is queued exactly when there are fewer than 20 items and room in 50 MiB and 200 MiB, last, under the next number, with the sessions recorded on arrival |
| QueueGuarantees.PoppedGoesOn | core/prompt_queue.go:320-391 | A popped user prompt waits for the transition lock and then is checked; a cron run needs none and fails when its job is gone |
| QueueGuarantees.QueuedLocks | core/prompt_queue.go:320-391 | A checked prompt is put back exactly when its session is busy |
| QueueGuarantees.BoundStarts | core/prompt_queue.go:320-391 | A prompt with its session locked counts as started exactly if its platform is there; otherwise it returns the lock and is skipped |
| QueueGuarantees.SendsItem | core/prompt_queue.go:431-439 | The turn of a queued user prompt sends that prompt and goes on to its end |
| QueueGuarantees.SkippedOrPutBack | core/prompt_queue.go:274-318 | A prompt put back stands first, one skipped is gone, and either opens the gate |
| QueueGuarantees.TurnEnds | core/prompt_queue.go:206-245 | The end of a turn frees its session first and then opens its chat's gate |
| QueueGuarantees.NoSwitchBetweenCheckAndSend | core/prompt_queue.go:45-53 | From the check to the send the checked session stays active and no `/new` or `/switch` of that chat is under way |
| QueueGuarantees.CancelKeepsExactlySurvivors | core/prompt_queue.go:480-506 | In every reachable state a session switch leaves all other queues and all gates, and keeps of its own queue exactly the still-matching items, in order |
| QueueGuarantees.NewCancelsAll | core/prompt_queue.go:480-506 | A switch to a session without an agent session empties the chat's queue |
| QueueGuarantees.SwitchMoves | core/engine.go:4125-4157 | `/switch` makes the named session the chat's active one and `/new` a new one without agent session |
| QueueGuarantees.SwitchCancels | core/engine.go:4125-4157 | The cancelling that follows is for that session |
| QueueGuarantees.CronQueues | core/prompt_queue.go:396-413 | A cron run starts inline exactly when the gate is open and nothing waits, and otherwise is queued, if there is room, with the agent session of the active session |
| QueueGuarantees.CronLocks | core/engine.go:789-885 | An inline cron run goes on to its turn exactly when the active session is not busy |
| QueueGuarantees.CronFallsBack | core/engine.go:789-885 | If it is busy after all the run reopens the gate and is queued, if there is room, without an agent session |
| QueueLimits.QueueLimitsPassedExactly | core/prompt_queue.go:274-286 | From every reachable state, a step takes a queue above 20 items if and only if it puts an item back into a queue of 20, and above 50 MiB if and only if it puts back an item that does not fit |
| QueueLimits.LimitsKeptExactly | core/prompt_queue.go:274-286 | A queue is within both limits all through a run if and only if no step of the run puts an item back for which there is no room |
| QueueLimits.EngineLimitPassedExactly | core/prompt_queue.go:152-182 | From every reachable state, a step takes all queues together above 200 MiB if and only if it puts back an item that does not fit |
| QueueLimits.TotalIsBounded | core/prompt_queue.go:184-193 | In every reachable state all queues together hold at most 100 MiB for each chat in the table |
| QueueExtremes.BoundsAreReached | core/prompt_queue.go:274-286 | For every chat, a run of the program after which 21 items with 100 MiB are queued |
| QueueExtremes.TotalIsUnbounded | core/prompt_queue.go:274-286 | For every n, a run of the program after which n times 50 MiB are queued over n chats |
| ReviewPrompt.SettleFindsLeast | core/engine.go:7950-7965 | The loop ends with the least number of omitted runes that, printed in the marker, is the true one, and gives up only if there is none |
| ReviewPrompt.CompactLength | core/engine.go:7937-7972 | Exactly the over-long texts are cut, and those to exactly `maxLen` runes |
| ReviewPrompt.ShortenTellsTheTruth | core/engine.go:7937-7972 | Whenever any text of the limit's length made of a prefix, the marker with a decimal number and a suffix has as its number the number of runes it leaves out, the result is such a text, and of those one that keeps the most; otherwise it is a prefix with an ellipsis |
| ReviewPrompt.MarkOmission | core/engine.go:7946-7972 | The loop terminates, the omitted number strictly rising below the total, and computes that text |
| ReviewPrompt.CompactReviewPromptText | core/engine.go:7937-7972 | The method with its early returns computes the specified compaction |
| ReviewPrompt.CompactTellsTheTruth | core/engine.go:7937-7972 | The same of the trimmed text with the program's wording; a text within the limit is kept, and the flag says whether it was cut |
| ReviewPrompt.SplitBudgetIsExact | core/engine.go:7974-8017 | The two budgets lie within their texts and add up to the smaller of budget and total; each text gets something when there are two runes to give |
| ReviewPrompt.BudgetIsProportional | core/engine.go:7998-8016 | When both texts do not fit, the first one's budget is its share of all runes, rounded down, but neither text is left without a rune if there are two |
| ReviewPrompt.RedistributionIsDead | core/engine.go:7998-8016 | Neither redistribution branch is ever taken |
| ReviewPrompt.CompactedTextsFit | core/engine.go:8019-8042 | Both compacted texts together stay within the budget; an uncut one is unchanged, and one is cut whenever they did not fit |
| ReviewPrompt.RevisionAlwaysFits | core/engine.go:8019-8042 | For a positive limit the prompt is built if and only if the full one fits or the empty template is shorter than the limit; it is always within the limit, is the full one just when that fits, has a compacted part just when it does not, and the final length error cannot occur |
| ReviewPrompt.RevisionShowsTexts | core/engine.go:8019-8042 | The prompt shows the summary before and the review after the reviewer's name, whole when that fits and else compacted within their budgets, and the two flags say which was cut |
| SplitMessage.FindCut | core/engine.go:8050-8075 | The cut is behind the last newline if that is in the upper half, else at the limit, taken back to the longest valid prefix; if there is none it is behind one rune, so that it always moves on |
| SplitMessage.SplitText | core/engine.go:8044-8079 | The loop terminates and makes the specified chunks |
| SplitMessage.SplitKeepsText | core/engine.go:8044-8079 | For arbitrary bytes and any limit from zero on the chunks concatenate to the text and none is empty |
| SplitMessage.SplitOfValid | core/engine.go:8044-8079 | Every chunk of a valid text is valid UTF-8 and, from a limit of four bytes on, within the limit |
| SplitMessage.CutIsLong | core/engine.go:8044-8079 | From a limit of six on, a chunk that is not the last has at least half the limit |
| SplitMessage.CutsBehindNewline | core/engine.go:8044-8079 | A valid text that is too long is cut right behind the last newline of its window when that is in the upper half |
| SplitMessage.CutsAtLimit | core/engine.go:8044-8079 | Otherwise it is cut as late as the limit and the UTF-8 sequences allow, or behind its first sequence when the limit is shorter than that |
| SplitMessage.ChunkEndsAtNewline | core/engine.go:8044-8079 | So a chunk that is not the last ends right behind the last newline of what is left and within the limit, when that is in the upper half |
| Utf8.SequencesEncode | core/engine.go:8066-8075 | What counts as a sequence here is exactly what section 3 of RFC 3629 makes of a character number |
| SplitMessage.FewChunks | core/engine.go:8044-8079 | From a limit of six on there are at most 2·len/maxLen + 1 chunks |
| TtsChunks.SplitAtIsLast | core/engine.go:8712-8744 | A cut is after the last rune within the limit, in its upper half, that allows a break, if there is one |
| TtsChunks.FindSplit | core/engine.go:8722-8732 | The backward loop finds that place |
| TtsChunks.SplitByLength | core/engine.go:8712-8744 | The loop terminates and makes the specified pieces |
| TtsChunks.ByLengthCuts | core/engine.go:8712-8744 | A text that is too long is cut in the upper half of the limit behind its last sentence end, comma or space there, or at the limit if there is none |
| TtsChunks.SplitSentences | core/engine.go:8689-8710 | The loop cuts after sentence ends and at line breaks |
| TtsChunks.SentenceEnds | core/engine.go:8689-8710 | A text is cut right behind each rune that ends a sentence and nowhere else |
| TtsChunks.SplitParagraph | core/engine.go:8646-8687 | Packs sentences into chunks as the specification does, cutting a too long one by length |
| TtsChunks.PacksFull | core/engine.go:8646-8687 | Sentences that fit are joined by single spaces, in order, as far as they fit |
| TtsChunks.PacksAround | core/engine.go:8646-8687 | A sentence is cut by length if it is too long, and between what is packed before and after it |
| TtsChunks.SplitParagraphs | core/engine.go:8618-8644 | Groups lines between blank lines |
| TtsChunks.ParagraphEnds | core/engine.go:8618-8644 | Lines are joined as they are up to each blank line |
| TtsChunks.SplitChunks | core/engine.go:8598-8616 | The whole chunker computes the specified chunks for every limit, including none |
| TtsChunks.ChunksSayTheText | core/engine.go:8598-8744 | For any text and positive limit every chunk is trimmed, not empty and at most `maxLen` runes, and the chunks in order contain exactly the text's runes that are not whitespace |
| FenceSplit.SplitMessageCodeFenceAware | core/markdown_html.go:190-241 | A text that fits is one chunk; of any other the one-pass loop over lines makes the same chunks as the recursive cut into blocks |
| FenceSplit.ChunkIsItsBlock | core/markdown_html.go:190-241 | The lines are cut into consecutive non-empty blocks; a chunk is its block, behind the last fence line, with its language, if an odd number of them precedes, and in front of a closing one if an odd number precedes its end, and nothing else |
| FenceSplit.ChunkIsFull | core/markdown_html.go:190-241 | A block ends only where its chunk has no room for the next line and its newline |
| FenceSplit.ChunkHasEvenFences | core/markdown_html.go:190-241 | Every chunk, split into lines again, has an even number of fence lines |
| FenceSplit.ChunkIsBounded | core/markdown_html.go:190-241 | Every chunk has at most `maxLen` + 3 bytes unless its block is one line |
| FenceSplit.RuneBytesEncode | core/markdown_html.go:190-241 | The lengths are those of UTF-8 by section 3 of RFC 3629 |
| JobTextBuffer.TextBuffer.AppendText | core/job_runner.go:39-64 | Appending updates parts, total, dropped bytes and the flag as specified, dropping whole parts and the head of one |
| JobTextBuffer.BufferIsSuffix | core/job_runner.go:39-64 | After any appends the parts are a suffix of everything appended, all of it up to 64 KiB and at most 64 KiB, and kept plus dropped bytes are all bytes |
| JobTextBuffer.BufferOfValidTexts | core/job_runner.go:39-64 | For valid UTF-8 texts the content is valid UTF-8 and, once truncated, never below 64 KiB minus 3 bytes |
| JobTextBuffer.EventList.RecordJobEvent | core/job.go:455-467 | One event is numbered and appended and the oldest ones fall out |
| JobTextBuffer.EventsAreTheLast | core/job.go:455-467 | The list is the last min(200, count) events, each under its own number |
| RateLimiter.Limiter.AllowMessage | core/ratelimit.go:39-69 | Filters the bucket's timestamps in place, decides, and records an accepted one |
| RateLimiter.Limiter.CleanUp | core/ratelimit.go:71-85 | Deletes exactly the buckets not used for two windows |
| RateLimiter.CleanupNeverMatters | core/ratelimit.go:39-85 | With a clock that does not go back, and cleanups at any time, every decision is that of a limiter that keeps the full history |
| RateLimiter.DecidesExactly | core/ratelimit.go:39-85 | In any run a message is accepted if and only if there is no limit or fewer than `maxMessages` messages of its key were accepted within the window up to now |
| RateLimiter.WindowLimit | core/ratelimit.go:39-85 | In any run every half-open interval of the window's length holds at most `maxMessages` accepted messages of a key |
| LoopInterval.NormalIsStable | core/cron.go:683-714 | The normalized text of an interval parses to the same interval |
| LoopInterval.DurationExact | core/cron.go:683-714 | An accepted duration is at least five seconds, and it is the number times one second, minute, hour or day in nanoseconds if and only if that fits 64 bits |
| LoopInterval.PlainParses | core/cron.go:683-714 | A plain interval that fits 64 bits is accepted if and only if it says five seconds or more, with the duration it says |
| LoopInterval.SomeParse | core/cron.go:683-714 | "1h" is 3600 and "30s" 30 seconds, and "4s" is refused |
| LoopInterval.PlusParses | core/cron.go:683-714 | A plus sign in front of the number says nothing |
| LoopInterval.UpperParses | core/cron.go:683-714 | Upper case and surrounding space do not matter, for " 1H" |
| LoopInterval.LongIntervalWraps | core/cron.go:696-707 | A concrete interval that is accepted with a wrong duration |
| CronScheduler.EntriesIndexTheStore | core/cron.go:429-553 | After Start and any additions, removals, toggles and updates a job is listed exactly when it exists, is enabled and has a usable schedule; its entry has the current schedule; there is no other live entry |
| CronScheduler.EnabledIsScheduled | core/cron.go:429-553 | With loaded jobs that have usable schedules, a job has an entry if and only if it exists and is enabled: no step lets an unusable schedule in |
| CronScheduler.AddKeepsIndexExactly | core/cron.go:447-465 | The addition of a job with a new ID keeps the index if and only if the store was saved, the job is disabled, or it is refused |
| CronScheduler.AddCanBreakIndex | core/cron.go:447-465 | A concrete job that is accepted, enabled and usable and, when the store cannot be saved, is stored without an entry |
| CronScheduler.AcceptedHasSpec | core/cron.go:111-139 | A job that passes validation has a schedule the library takes, and the ID and switch it came with |
| CronScheduler.AcceptedExactly | core/cron.go:111-139 | A job is accepted if and only if its kind, mode, timeout and, for a loop job, its command, prompt and interval are sensible, and the cron expression of any other parses; its kind, mode and interval are then in normal form and all else is as given |
| CronScheduler.AddStores | core/cron.go:447-465 | An accepted job is stored last in that form; a refused one changes nothing |
| CronScheduler.UpdatePuts | core/cron.go:501-553 | An update that names a field is accepted if and only if it leaves a sensible job and its schedule is taken; a refused one changes nothing |
| CronScheduler.UpdateSets | core/cron.go:300-390 | After an accepted update the job has the named field equal to the value given (the session mode in normal form) and all other fields as before, and all other IDs are found as before |
| CronScheduler.UpdateEntries | core/cron.go:501-553 | An accepted update of the schedule or the switch gives the job a new entry if it is then enabled and usable and otherwise none; any other leaves all entries |
| CronScheduler.WrongUpdateRefused | core/cron.go:300-390 | An unknown field, a value of a wrong type or an unknown session mode changes nothing |
| CronScheduler.ToggleSets | core/cron.go:477-499 | Enabling and disabling set the switch of that job to true and false and change nothing else in the store |
| CronScheduler.RemoveDrops | core/cron.go:467-475 | Removing takes that job out of the store and no other |
| CronScheduler.EntrySaysSchedule | core/cron.go:72-81 | In every run an entry runs its job by its cron expression or, for a loop job, every so many nanoseconds as its interval says |
| CronScheduler.Store.Index | core/cron.go:265-274 | The store's loops find the first job of an ID |
| CronScheduler.Store.Remove | core/cron.go:184-197 | Removes that job and no other |
| CronScheduler.Store.SetEnabled | core/cron.go:199-212 | Sets that job's switch and nothing else |
| CronScheduler.Store.Update | core/cron.go:276-298 | Sets the named field of that job, or nothing for an unknown field or a wrong type |
| CronScheduler.Scheduler.ScheduleJob | core/cron.go:591-613 | Replaces the job's entry; when the schedule is refused the old entry is gone from the library but still listed |
| CronScheduler.Scheduler.Start | core/cron.go:429-441 | Schedules exactly the enabled loaded jobs, in order |
| CronScheduler.Scheduler.AddJob | core/cron.go:447-465 | Validates, stores, and schedules an enabled job only if the store was saved |
| CronScheduler.Scheduler.RemoveJob | core/cron.go:467-475 | Takes the job out of both tables and the store |
| CronScheduler.Scheduler.EnableJob | core/cron.go:477-486 | Switches the job on and replaces its entry; it succeeds exactly when the job exists and its schedule is usable |
| CronScheduler.Scheduler.DisableJob | core/cron.go:488-499 | Switches the job off and takes its entry out |
| CronScheduler.Scheduler.UpdateJob | core/cron.go:501-553 | A refused update changes nothing; one of the schedule or the switch replaces the entry, any other leaves it; it succeeds exactly when it is not refused and any new schedule of an enabled job is usable |
| Collect.LabelsNameAttachments | core/collect.go:368-446 | In any run of a chat, every synthesized message labels its k-th image "image #k" and its k-th file "file #k" in decimal digits, with its file name or else its type, and labels nothing else |
| Collect.SaidIsSent | core/collect.go:249-446 | In any run, messages said to a fresh batch and then sent with an instruction make one message: its prompt has the instruction and, in order, the trimmed text of each of the first fifty with as many labels as it brought attachments, and it carries their attachments and the instruction's own |
| Collect.SendThenSay | core/collect.go:579-599 | Asking to send and then saying the instruction sends what sending with it does |
| Collect.TextIsInstructionOrItem | core/engine.go:1265-1290 | A text is the instruction if one was asked for and it is no command; else it is an item of an open batch, one of at most fifty, or no matter of collecting |
| Collect.AttachmentsAreKept | core/engine.go:1185-1207 | Attachments without text wait for a batch or are an item of an open one |
| Collect.StartTakesPending | core/collect.go:219-247 | Starting a batch takes the waiting attachments in as its first item |
| Collect.FlushEnds | core/collect.go:294-320 | A flush that ends well ends the batch; one that fails leaves all that was collected and asks again for an instruction that had been asked for |
| Collect.FailedFlushCanBeRepeated | core/collect.go:579-599 | After a failed flush, sending once more, with the instruction given again or not, sends the same message |
| Collect.NothingIsSent | core/collect.go:489-544 | Nothing is sent while the session is busy, a flush is under way, nothing was collected or the instruction is blank; a batch under a flush is neither cancelled nor expired |
| Collect.WalkNumbers | core/collect.go:368-446 | The labels of the entries are those of all attachments of the items, numbered through |
| Collect.AbsorbKeepsOk | core/collect.go:219-247 | Absorbing keeps the batch's items in step with its attachments if and only if it has fewer than fifty items or there is nothing to absorb |
| Collect.BuildCollectedPrompt | core/collect.go:368-446 | The loop with its running ordinals makes the specified entries |
| Collect.RenderRefs | core/collect.go:470-487 | Labels the attachments consecutively from a start |
| Collect.Collector.AbsorbPendingAttachments | core/collect.go:219-247 | Appends the attachments, and an item for them only below the item limit |
| Collect.Collector.BufferPendingCollection | core/collect.go:249-292 | A full batch is left as it is; otherwise the item and its attachments are appended |
| Collect.Collector.BeginPendingCollectionFlush | core/collect.go:294-307 | Starts a flush unless there is no batch or one is under way |
| Collect.Collector.FailPendingCollectionFlush | core/collect.go:309-320 | Makes the batch ready for another flush, keeping its contents |

## Left out

General:

- Platforms, sockets, agent processes, speech services, cards, translations, configuration: input and output around the core.
- Regular-expression code, such as stripping Markdown: it rests on an engine outside the program.
- Lengths, byte counts and counters are unbounded integers, except in `LoopInterval`, where the 64-bit wrap-around is modelled.
- Clocks, timeouts, tickers and context ends: a clock is a parameter, and every other one of these can happen at any time.

Turn locks:

- TurnLocks.LockTable.TryLockBindMu: is one attempt; the polling with its timer, and the end of the context in between, are steps of the step system.
- TurnLocks.LockTable.WaitTurn: is one look at the select; waiting for it to be ready is in the step system, where a turn stays where it is until it can step.
- TurnLocks.TurnGuard.Bind: returns when its wait blocks, and Resume goes on with it; that other turns run in between is in the step system.

Jobs:

- Job files are records that a save replaces at once or leaves as they were: the encoding, the renames and the fields that no decision reads are left out. Job records in memory are values in a map, so sharing of one `*Job` is not captured.
- The status after a cancellation of a running job can still become completed when the run ends before its context does; the model allows it and claims nothing of the final status.
- The order of the directory listing is arbitrary.

Prompt queue:

- Callers of `markPromptQueueRunning` (core/prompt_queue.go:441-451) and the forced unlock of `/stop` (core/engine.go:5381-5389): they set or bypass the gate without owning it, so the ownership theorems are about all other steps.
- Liveness: after a failed `TryLock` an item is queued and no drain is scheduled (core/engine.go:1303-1314), so an item may wait until something else drains the queue.
- PromptQueue.Queues.CompletePromptTurn: leaves out the moving of a queue to another key; both keys are made from the same chat, so that branch is never taken.
- Queue states are values in a map, so that sharing of one queue state is not captured; previews, reply contexts and the parsing of a `/queue` argument into an index are left out.
- QueueGuarantees.SentUnderRecordedSession: a send is an event while the turn is up to its start signal; what the agent does with the text is outside.

Texts:

- `ReviewPrompt`, `TtsChunks` and `FenceSplit` work on runes of valid UTF-8 text; what the program does to invalid bytes there is left out. The fixed wording of the revision prompt is a parameter, so that the theorems hold for any wording; the review packet prompts are left out.
- SplitMessage.SplitText: a negative limit, for which the program indexes out of range, is not modelled.
- The joining of a text buffer's parts into a string with its truncation note, and the cutting of an event's content, are left out.

Scheduling and collecting:

- The cron library is a table of live entries under fresh numbers, and the set of expressions it accepts is a parameter. Running a job and noting its last run are left out: they change neither the index nor the schedule.
- Scheduler operations happen one after another; interleavings inside one operation are left out.
- LoopInterval.NormalIsStable: lower-casing is modelled for the letters A to Z.
- Collect.BuildCollectedPrompt: makes the texts, counts and labels of the prompt; the lines with sender, platform and quote, and the layout, are left out.
- Collect mode is modelled with one handler step at a time per chat; the acknowledgements and the status text are left out.
