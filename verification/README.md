# A verified model of a cooking assistant's state machines and data pipelines

The assistant answers cooking questions in chat channels, starts recipes on kitchen devices, and keeps its recipe
collection, its tags and its memory index up to date with scripts. This project models the deterministic logic under
the language models and proves what a caller relies on. The text of the user, the answers of models, devices and
servers, the clock, new identifiers and the interleaving of workers are inputs everywhere: every result holds for any
value of them.

* **Starting a device** (`DeviceCommand`, `TaskState`, `TaskAnswers`, `TaskStateRepository`, `StartProtocol`,
  `StartOrder`, `StartRaces`, `StartUnknown`, `StartCancelled`, `StartCarried`). One call of `execute_cook`; the
  per-thread task state and what each handler does to it; the shared record with compare-and-swap commits, a three-way
  merge and an atomic claim; any number of turns interleaved over it. A start is sent at most once, only after its own
  confirmation prompt, and never after a cancel was saved; while its outcome is unknown nothing is sent until the device
  confirms a stop or the record is a day old, and without a running task stops do not matter either.
* **Generating and repairing recipes** (`DetailCache`, `WorkerPool`, `WorkerAttempts`, `Resume`, `IngredientRepair`,
  `StagedCollections`). The append-only log and its replay, the worker pool with sentinels and attempts, restarts after
  a crash, the plan and merge of ingredient quantities, chunked building of a staging collection and its switch into
  production with a way back.
* **Tags and nutrition** (`TagMetadata`, `TagAnswers`, `TagDisplay`, `TagVocabulary`, `TextCells`). From the raw answer
  of the model to the finished sheet and its own check.
* **Memory index** (`MemoryIndex`, `Reindex`). Embedding in batches, a collection partitioned by profile, and the
  rebuild that makes it agree with the fact source.
* **Conversation logic** (`GroundedText`, `FreshBatches`, `TurnPorts`, `PlanExecution`). Bracketed names in model text,
  batches that do not repeat, turn-scoped ports over a shared workspace, and a planner that does not act twice.
* **Spreadsheets** (`ImageAudit`, `CardExport`). Column letters, sparse rows, retry rounds; pruned JSON and its columns.

`Options` holds the optional value and a loop that gives up at the first missing result; `Sequences` the list
operations; `Languages` the two languages.

## How the model is built

Classes and methods with loops stand for code that changes things step by step; each method's contract equates its
result or the new state with a function, and the lemmas are about those functions. Interleavings are state machines: an
`Event` type, a `Next` function, a `Run` over any list of events, an invariant kept by every event. Code made of
expressions is functions.

Six properties one might expect do not hold of the code. For each the exact condition is proved, which names the
inputs that fail:

* Racing turns can leave a confirmation waiting beside a start in flight (`RacingTurnsBreakExclusion`): a slow turn puts
  up its start from candidates read before another start was prompted, and a search and a web reference meanwhile take
  selection, focus and next action away again, so that no field clashes. Of all events exactly a save merged in one of
  two ways causes this (`EventKeepsExclusiveIff`, `RunsStayExclusiveIff`), and turns that run one at a time never do.
* Two missing ingredient names that differ only by case make the merge raise (`TwoSpellingsDoNotMerge`,
  `MergesIffOneSpelling`).
* A recipe id with blanks around it can be shown twice in a row, because results are compared by stripped id and
  remembered by the id as it came (`CanReturnIff`).
* Accepting a draft by scanning its fields joined with blanks lets a name through if another name can be spelled across
  the blank (`ADraftThatSlipsThrough`). It is safe for exactly those sets of names for which no such spelling hides one
  that is not allowed (`BlankClosed`, `PartsAreCleanIff`). A draft's empty reason text keeps a result without one
  (`ADraftWithoutAReason`, `BlankReasonIff`).
* A cell of the recipe sheet does not tell a list or object from the text that spells it (`TheTextOfAList`,
  `CellsCollideIff`), so a field reads back exactly unless it is such a text, or for one who knows the column
  (`DetailsReadBack`).
* Rows of the fact source can share one profile (`KeysCollideIff`), for instance two accounts of one user outside
  weixin, and then only the last row's facts are in the index (`LaterAccountWins`, with an input in `AnAccountIsLost`).
  `UsersHaveOwnKeys` says exactly when they do not.

Smaller findings stated as contracts: a pool without sentinels, at a concurrency the command line refuses, never ends
its worker, and a generation call that raises keeps the pool from being joined (`HaltedPoolsHaveEnded`); the first entry
appended behind a torn line of the log is lost (`AppendedLines`); a negative insert batch builds an empty staging
collection (`Build`); the low-carb label can be cut (`NutritionLabels`).

## Model

| member | source | states |
|---|---|---|
| DeviceCommand.AfterPushAnswers | app/orchestrator/cook.py:843-871 | polling after a push answers started, unverified or failed, and never reports the command as unsent |
| DeviceCommand.ExecuteCookContract | app/orchestrator/cook.py:720-911 | not-ready and retryable answers mean nothing was sent; success means sent and started; an unknown outcome is exactly a null `command_sent` |
| DeviceCommand.CommandOnlyToIdleDevice | app/orchestrator/cook.py:170-249 | whenever a command may have left, the chosen device itself had reported online and idle |
| DeviceCommand.ReadinessIsExact | app/orchestrator/cook.py:170-249 | ready exactly if the report is well, online and idle; otherwise which code |
| DeviceCommand.SelectedIsExact | app/orchestrator/cook.py:170-249 | the report used: the first about the device asked for, or the only one if none is asked for |
| DeviceCommand.PollsAreExact | app/orchestrator/cook.py:843-871 | after a push the first of three polls that does not see the device idle decides |
| DeviceCommand.ExecuteIsExact | app/orchestrator/cook.py:720-911 | the answer of a valid call, branch by branch |
| DeviceCommand.InvalidCallsAreRefused | app/orchestrator/cook.py:734-762 | a call without recipe or usable message id is refused for good |
| TaskState.ClaimNeedsConfirmation | app/agent/participle_agent.py:5820-5835 | a claim follows only a plain confirmation of a start whose device is settled and that has not expired |
| TaskState.ChoiceIsHonoured | app/agent/participle_agent.py:5706-5802 | an answer puts up a start only for the chosen device of the same recipe, under a new id |
| TaskState.GivingUpNeverStops | app/agent/participle_agent.py:704-766 | giving up, or a stop the device did not confirm, touches no running task or execution |
| TaskState.SettleKeepsExclusive | app/conversation/task_state_workspace.py:725-842 | exporting the state with every expiry applied keeps "no waiting start beside an unresolved one" |
| TaskState.PrepareKeepsExclusive | app/agent/participle_agent.py:1524-1568 | preparing a recipe keeps it, in every branch |
| TaskState.FinishKeepsExclusive | app/agent/participle_agent.py:1585-1717 | recording any answer of a claimed start keeps it |
| TaskState.RearmOnlyUnsent | app/agent/participle_agent.py:1603-1683 | a start is put up again under its old id only after an answer that sent nothing, and then unchanged |
| TaskState.Workspace.constructor | app/conversation/task_state_workspace.py:34-44 | a workspace opens with the given state in its dictionaries |
| TaskState.Workspace.ClearPendingStart | app/conversation/task_state_workspace.py:538-543 | drops the waiting start together with its device action, and nothing else |
| TaskState.Workspace.SetPendingStart | app/conversation/task_state_workspace.py:496-527 | puts up the start and the matching next action |
| TaskState.Workspace.GetPending | app/conversation/task_state_workspace.py:529-536 | reads the waiting start, removing it first when it is too old |
| TaskState.Workspace.GetExecution | app/conversation/task_state_workspace.py:670-681 | reads the execution, removing it first when it is a day old |
| TaskState.Workspace.SetSelectedRecipe | app/conversation/task_state_workspace.py:198-268 | the recipe becomes selection and verified focus and is ruled out no longer; the other ruled-out ids stay, the last twenty of them |
| TaskState.Workspace.PrepareRecipe | app/agent/participle_agent.py:1524-1568 | refuses beside an unresolved start; else selects the recipe and puts up a device question or a prompt |
| TaskState.Workspace.HandlePending | app/agent/participle_agent.py:5628-5893 | the answer to a waiting start: cancel, choose a device, ask again, go on to claim it or leave it to others |
| TaskState.Workspace.ResolveAbandonment | app/agent/participle_agent.py:704-766 | giving up drops the clarification in every case (by its caller, lines 5615-5618), and the waiting start or else the next action with its menu task; never a running task |
| TaskState.Workspace.CookAndFormat | app/agent/participle_agent.py:1585-1717 | records the classified answer on the execution of that start only and puts the start up again when nothing was sent |
| TaskState.Workspace.StopCooking | app/agent/participle_agent.py:1720-1733 | a stop the device confirmed clears the running task and the execution, and nothing else; any other stop changes nothing |
| TaskAnswers.CancelTakesDown | app/agent/participle_agent.py:5706-5743 | a cancel, a stop or a request for details takes the waiting start down, with its action, and nothing else |
| TaskAnswers.YesClaims | app/agent/participle_agent.py:5820-5835 | a plain yes to a settled start goes on to claim exactly that start |
| TaskAnswers.ChoicePutsUp | app/agent/participle_agent.py:5745-5802 | the choice of a listed device puts up the start for it, under a new id, to be confirmed |
| TaskAnswers.OtherAnswersKeepIt | app/agent/participle_agent.py:5706-5893 | any other answer leaves the start as it is, and is answered or left to others |
| TaskAnswers.NothingWaits | app/agent/participle_agent.py:5640-5664 | without a waiting start a yes is answered only while a start is unresolved; nothing is put up or claimed |
| TaskAnswers.GivingUpTakesDown | app/agent/participle_agent.py:704-766 | giving up takes down the waiting start, or else the next action with its menu, and nothing else |
| TaskAnswers.AnswerIsRecorded | app/agent/participle_agent.py:1603-1629 | the device's answer is on the record of its start, unresolved exactly if a command was or may have been sent and did not work |
| TaskAnswers.OtherExecutionsStay | app/agent/participle_agent.py:1603-1629 | the execution of another start is not touched |
| TaskAnswers.AnswerSetsActive | app/agent/participle_agent.py:1631-1717 | a running task is known exactly if a command was surely sent, and verified exactly if it was seen to run |
| TaskAnswers.AnswerRearms | app/agent/participle_agent.py:1603-1717 | the start goes up again exactly if the device was found not ready |
| TaskAnswers.AnswerKeepsTheRest | app/agent/participle_agent.py:1603-1717 | nothing else changes |
| TaskAnswers.StopIsExact | app/agent/participle_agent.py:1720-1733 | a confirmed stop of a live task clears task and execution, and any other stop nothing |
| TaskAnswers.UnresolvedRefuses | app/agent/participle_agent.py:1526-1532 | beside an unresolved start of the last day nothing is prepared |
| TaskAnswers.PrepareIsExact | app/agent/participle_agent.py:1524-1568 | else every field after preparing, with no, one or several devices |
| TaskAnswers.ChosenIsReadmitted | app/conversation/task_state_workspace.py:245-268 | the chosen candidate is ruled out no longer; the last twenty of the others are |
| TaskAnswers.WithoutKeepsOrder | app/conversation/task_state_workspace.py:245-268 | the others stay in their order |
| TaskAnswers.ExportKeepsStarts | app/conversation/task_state_workspace.py:725-842 | the export keeps waiting start and execution until they expire |
| TaskAnswers.ExportKeepsActive | app/conversation/task_state_workspace.py:725-842 | and a running task |
| TaskAnswers.ExportKeepsTopics | app/conversation/task_state_workspace.py:725-842 | and selection, focus and ruled-out candidates |
| TaskAnswers.ExportKeepsMenu | app/conversation/task_state_workspace.py:725-842 | and the menu task |
| TaskAnswers.ExportKeepsRest | app/conversation/task_state_workspace.py:725-842 | and clarification and all other fields as they are |
| TaskAnswers.ExportedAction | app/conversation/task_state_workspace.py:725-842 | the next action goes with its own time or with the start it belongs to |
| TaskStateRepository.MergeRest | app/conversation/task_state_repository.py:106-143 | per key, the side that changed it wins and two different changes clash; nothing else |
| TaskStateRepository.MergeRestCommutes | app/conversation/task_state_repository.py:106-143 | the order of the two sides does not matter for the untouched fields |
| TaskStateRepository.MergeCommutes | app/conversation/task_state_repository.py:106-143 | merging in either order gives the same state or the same refusal |
| TaskStateRepository.MergeUnits | app/conversation/task_state_repository.py:106-143 | with one side unchanged the merge is the other side |
| TaskStateRepository.MergeClashesIff | app/conversation/task_state_repository.py:106-143 | a merge is refused exactly if both sides changed some field to different values |
| TaskStateRepository.MergeLosesNothing | app/conversation/task_state_repository.py:106-143 | otherwise every field has the value of the side that changed it |
| TaskStateRepository.FlushIsExact | app/conversation/task_state_repository.py:225-283 | when a save is refused, exactly, and what is stored otherwise, field by field, with or without a conflict |
| TaskStateRepository.ClaimIsExact | app/conversation/redis_store.py:302-434 | when a claim is won, refused or expired, exactly, and what is stored then |
| TaskStateRepository.PayloadIsExact | app/conversation/task_state_repository.py:318-417 | who gets the start to send, and which |
| TaskStateRepository.ResetIsExact | app/conversation/service.py:2653-2727 | a reset keeps running task and execution only, and what was read before it is never stored |
| TaskStateRepository.MergeExclusiveIff | app/conversation/task_state_repository.py:106-143 | exactly when merging two exclusive states loses the exclusion |
| TaskStateRepository.InterfereMovesForward | app/conversation/redis_store.py:250-300 | writes of other workers only move revision and generation forward |
| TaskStateRepository.TaskStateStore.constructor | app/conversation/redis_store.py:250-300 | a thread starts with the empty state at revision 0, generation 0 |
| TaskStateRepository.TaskStateStore.CommitRecord | app/conversation/redis_store.py:250-300 | stores exactly when revision and generation are the expected ones, and counts the revision up |
| TaskStateRepository.TaskStateStore.ClaimPendingDeviceStart | app/conversation/redis_store.py:302-434 | one atomic step from waiting start to dispatching execution, or the reason why not |
| TaskStateRepository.TaskStateStore.ResetSession | app/conversation/service.py:2653-2727 | a new generation that keeps only running task and execution |
| TaskStateRepository.TaskStateStore.Elsewhere | app/conversation/redis_store.py:250-300 | the record after the writes of other workers |
| TaskStateRepository.UnitOfWork.constructor | app/conversation/task_state_repository.py:169-223 | a turn opens with the stored state as its baseline and copy |
| TaskStateRepository.UnitOfWork.Adopt | app/conversation/task_state_repository.py:300-316 | a refresh takes the stored record as baseline and copy |
| TaskStateRepository.UnitOfWork.Flush | app/conversation/task_state_repository.py:225-283 | with up to three attempts against any writes of others, one atomic flush at some moment, or a refusal that changes nothing |
| TaskStateRepository.UnitOfWork.Claim | app/conversation/task_state_repository.py:318-417 | the payload goes to the winner in its own generation only; every caller ends on the stored state |
| StartProtocol.MintKeepsInv | app/conversation/task_state_workspace.py:496-527 | putting up a start under a new id keeps the protocol invariant |
| StartProtocol.SayKeepsInv | app/agent/participle_agent.py:5628-5893 | so does every answer to a waiting start |
| StartProtocol.PrepareKeepsInv | app/agent/participle_agent.py:1524-1568 | so does preparing a recipe |
| StartProtocol.FlushKeepsInv | app/conversation/task_state_repository.py:225-283 | so does a flush, with or without a merge; a refused one ends the turn, or only its confirmation when it precedes the claim |
| StartProtocol.ClaimKeepsInv | app/conversation/task_state_repository.py:318-417 | so does a claim |
| StartProtocol.ReturnKeepsInv | app/agent/participle_agent.py:1603-1717 | so does every answer of the device, rearming included |
| StartProtocol.ResetKeepsInv | app/conversation/service.py:2653-2727 | so does a reset |
| StartProtocol.EveryEventKeepsInv | app/agent/participle_agent.py:5820-5866 | so does every event of any turn |
| StartProtocol.EveryRunKeepsInv | app/agent/participle_agent.py:5820-5866 | it holds after every run of interleaved turns |
| StartProtocol.WonClaim | app/conversation/redis_store.py:302-434 | a won claim takes the stored start that was prompted under that id and leaves none |
| StartProtocol.AtMostOnce | app/agent/participle_agent.py:5820-5866 | of all commands with one action id at most one was sent or may have been, and none follows it |
| StartProtocol.TwoStepAuthorisation | app/agent/participle_agent.py:5706-5802 | every command is the start of a prompt shown in another turn, and a chosen device continues a device question of yet another |
| StartProtocol.OnlyClaimedStartsAreSent | app/agent/participle_agent.py:1603-1629 | commands are logged by returns and crashes of claimed starts only; no other turn adds one |
| StartProtocol.OnlyTheClaimTakesOff | app/agent/participle_agent.py:5820-5866 | a turn comes to send a start only by winning the claim of the id it confirmed |
| StartOrder.SerialStep | app/agent/participle_agent.py:567-569 | one turn at a time, every event keeps exclusion and order of prompts, and the turn current: an opening, a reset in or between turns, and whatever the turn does |
| StartOrder.SerialRunsStayExclusive | app/agent/participle_agent.py:567-569 | with one turn at a time, which may reset the thread while it is open, no start waits beside an unresolved one in any reachable state |
| StartOrder.SerialAuthorisation | app/agent/participle_agent.py:5706-5866 | then the prompt of every command came in an earlier turn, and a device question in a turn before that |
| StartRaces.FlushExclusiveIff | app/conversation/task_state_repository.py:106-143 | a save keeps every state exclusive exactly unless it is merged and one side's new start meets the other side's unresolved execution |
| StartRaces.EventKeepsExclusiveIff | app/conversation/task_state_repository.py:106-143 | of all events of racing turns, exactly such a save loses the exclusion |
| StartRaces.RunsStayExclusiveIff | app/conversation/task_state_repository.py:225-283 | a run of racing turns keeps the exclusion throughout exactly when it has no such save |
| StartRaces.ConfirmedTurn | app/agent/participle_agent.py:5820-5866 | what a confirming turn of the race stores |
| StartRaces.PreparedTurn | app/agent/participle_agent.py:1524-1568 | what a preparing turn of the race stores |
| StartRaces.RacingTurnsBreakExclusion | app/agent/participle_agent.py:4567-4582 | one turn lags while others prompt, search, refer to the web, confirm and claim; its late prompt is then stored beside the start in flight |
| StartCancelled.GoneIsForever | app/agent/participle_agent.py:5706-5866 | an id that neither the store nor a turn can send is never sent, in any continuation of racing turns |
| StartCancelled.CancelIsFinal | app/agent/participle_agent.py:5706-5743 | once a cancel, or giving up, is saved, no command with the id follows unless another turn had taken the start before |
| StartCancelled.SerialCancelIsFinal | app/agent/participle_agent.py:5706-5743 | with one turn at a time, none follows at all |
| StartCancelled.ResetForgetsStarts | app/conversation/service.py:2653-2727 | after a reset nothing that was put up before is sent but what is being sent already |
| StartCarried.YesIsCarriedThrough | app/agent/participle_agent.py:5820-5866 | a yes to a waiting start, in time and undisturbed, sends exactly that start, once |
| StartCarried.AnswerIsLogged | app/agent/participle_agent.py:1603-1629 | and records what the device answered |
| StartCarried.PromptIsCarriedThrough | app/agent/participle_agent.py:1524-1568 | a recipe prepared for one device waits in the store as its prompt, under a new id |
| StartCarried.StopIsCarriedThrough | app/agent/participle_agent.py:1720-1733 | a confirmed stop takes task and execution out of the store |
| StartCarried.TurnsReadTheStore | app/conversation/task_state_repository.py:150-224 | a turn opens on what is stored, and a refresh brings it back to that |
| StartUnknown.FlushKeepsOwner | app/conversation/task_state_repository.py:225-283 | a flush changes the stored execution only for the turn that owes the device's answer |
| StartUnknown.ClaimKeepsOwner | app/conversation/task_state_repository.py:318-417 | a claim makes its turn the only owner |
| StartUnknown.QuietStep | app/agent/participle_agent.py:1526-1532 | no event but a confirmed stop of a running task, or a read of an execution more than a day old, frees an unresolved execution |
| StartUnknown.QuietRunsHaveOneOwner | app/agent/participle_agent.py:5641-5664 | from any state with at most one owner of the execution there is at most one, until such an event |
| StartUnknown.OneStartInFlight | app/agent/participle_agent.py:1610-1613 | from any state in which no answer is owed, at most one of the racing turns is sending a start, until such an event |
| StartUnknown.UnknownIsNeverRetried | app/agent/participle_agent.py:1526-1532 | from any state with an unresolved execution that no turn owes an answer to, nothing is sent and the execution stays, until such an event |
| StartUnknown.UnknownIsNeverRetriedInHistory | app/agent/participle_agent.py:1526-1532 | the same after every history of the thread, whatever stops and expiries it held |
| StartUnknown.IdleStep | app/agent/participle_agent.py:1720-1733 | with no running task known anywhere no event brings one up, and no stop is confirmed |
| StartUnknown.UnknownOutlivesStops | app/agent/participle_agent.py:1720-1733 | then stops do not matter: nothing is sent until the record is a day old |
| StartUnknown.UnknownAnswerIsNeverRetried | app/agent/participle_agent.py:1603-1629 | an answer that leaves the outcome open is stored as such, its save refused or not, and nothing is sent until a release |
| StartUnknown.CrashIsNeverRetried | app/agent/participle_agent.py:1603-1629 | nor after a turn died while it was sending |
| StartUnknown.UnknownAnswerInHistory | app/agent/participle_agent.py:1603-1629 | the same whatever turns raced before the answer came |
| DetailCache.BusinessKeyInjective | scripts/enrich_milvus_recipe_details.py:66-70 | a business key determines recipe id and language |
| DetailCache.ReadCache | scripts/enrich_milvus_recipe_details.py:108-124 | the replay of the log and the count of malformed lines; raises exactly if some line is JSON but no object |
| DetailCache.ReplayIsLastValid | scripts/enrich_milvus_recipe_details.py:108-124 | replaying gives every key the detail of its last usable line, and no other key |
| DetailCache.ReplayAppend | scripts/enrich_milvus_recipe_details.py:212-224 | appending a line changes the replay as the memory map is changed |
| DetailCache.AppendedLines | scripts/enrich_milvus_recipe_details.py:113-224 | of entries appended to a file that a crash left torn exactly the first is spoilt, and later ones are not |
| DetailCache.AppendsAreLinesIff | scripts/enrich_milvus_recipe_details.py:113-224 | appended entries read as lines of their own exactly if the file ended with the end of a line |
| DetailCache.WholeFilesAreLogs | scripts/enrich_milvus_recipe_details.py:113-224 | then a restart reads the old log with the new entries behind it, and the file ends with the end of a line again |
| WorkerPool.StartKeepsInv | scripts/enrich_milvus_recipe_details.py:162-181 | the queue as filled meets the pool invariant |
| WorkerPool.TakeKeepsInv | scripts/enrich_milvus_recipe_details.py:187-192 | taking keeps it: rows in order, sentinels after all rows |
| WorkerPool.AttemptKeepsInv | scripts/enrich_milvus_recipe_details.py:193-211 | so does an attempt with any answer of the model, and one that raises |
| WorkerPool.FinishKeepsInv | scripts/enrich_milvus_recipe_details.py:212-250 | so do saving a detail and giving a row up |
| WorkerPool.EveryRunKeepsInv | scripts/enrich_milvus_recipe_details.py:187-250 | it holds after every interleaving of the workers |
| WorkerPool.MissingExactly | scripts/enrich_milvus_recipe_details.py:162-168 | cached and pending keys partition the selected rows |
| WorkerPool.JobsAreOk | scripts/enrich_milvus_recipe_details.py:162-168 | every log and selection gives a job the pool invariant accepts |
| WorkerPool.PoolIsSound | scripts/enrich_milvus_recipe_details.py:187-250 | each row is in exactly one place; no worker ends before all rows are taken; the count is zero exactly when all ended, with done plus failed equal to pending |
| WorkerPool.EveryEventMakesProgress | scripts/enrich_milvus_recipe_details.py:187-250 | every event lowers a measure, a generation call that raises included |
| WorkerPool.RunsAreBounded | scripts/enrich_milvus_recipe_details.py:187-250 | so no run is longer than the measure at its start |
| WorkerPool.HaltedMeansStuck | scripts/enrich_milvus_recipe_details.py:187-250 | a pool has halted exactly when no event is possible, whatever the calls return |
| WorkerPool.DeadIffRaised | scripts/enrich_milvus_recipe_details.py:187-211 | a worker has died exactly if some generation call of the run raised |
| WorkerPool.HaltedPoolsHaveEnded | scripts/enrich_milvus_recipe_details.py:177-256 | a pool that cannot go on has ended every worker, and is joined, exactly when there is at least one sentinel and no generation call raised |
| WorkerAttempts.TakenRowsCanBeTried | scripts/enrich_milvus_recipe_details.py:204-211 | a taken row can be tried, and cannot be given up before |
| WorkerAttempts.RowsAreTried | scripts/enrich_milvus_recipe_details.py:193-250 | a row fails only after all its attempts, none valid; what is saved under its key is the first valid detail, within the attempts |
| WorkerAttempts.FailedIff | scripts/enrich_milvus_recipe_details.py:193-256 | in a joined pool a row failed exactly if all its attempts did |
| WorkerPool.RestartAgreesWithMemory | scripts/enrich_milvus_recipe_details.py:212-224 | after any run a restart on the log finds what memory held, loses no finished key, generates none again and does not raise unless the first start did |
| WorkerPool.CompleteRunsLeaveNothing | scripts/enrich_milvus_recipe_details.py:162-256 | a run without failures leaves nothing pending for the next |
| Resume.ReplayIgnores | scripts/enrich_milvus_recipe_details.py:108-124 | a log replays the same, for every key a line is not about, without that line |
| Resume.RestartAfterCrash | scripts/enrich_milvus_recipe_details.py:113-224 | on the file: a job stopped anywhere, also in the middle of an append, leaves one on which a restart finds what memory held, but for the key of a torn entry that reads all the same |
| Resume.RestartBehindATear | scripts/enrich_milvus_recipe_details.py:113-224 | a job that found a torn file loses at most the torn entry and the first one it appends, and leaves the file whole |
| IngredientRepair.IngredientPlan | scripts/repair_milvus_recipe_ingredients.py:147-167 | the ordered plan and the names to ask for; an empty plan is an error |
| IngredientRepair.PlanIsExact | scripts/repair_milvus_recipe_ingredients.py:147-167 | each line gives its parsed item, or its missing name together with the line, in order |
| IngredientRepair.UnresolvedCoversThePlan | scripts/repair_milvus_recipe_ingredients.py:147-167 | the names asked for cover every missing name up to case and nothing else |
| IngredientRepair.UnresolvedAsksOnce | scripts/repair_milvus_recipe_ingredients.py:147-167 | no name is asked for twice, up to case |
| IngredientRepair.FiledExactly | scripts/repair_milvus_recipe_ingredients.py:578-586 | the answers filed under a name are those that carry it |
| IngredientRepair.FiledInOrder | scripts/repair_milvus_recipe_ingredients.py:578-586 | all of them, in the order of the answers |
| IngredientRepair.AnswersAreFor | scripts/repair_milvus_recipe_ingredients.py:170-187 | an answer is for the name it gives, or else for its own |
| IngredientRepair.ExpandIsExact | scripts/repair_milvus_recipe_ingredients.py:298-328 | an entry gives its item, or all answers filed under its name, each with its line |
| IngredientRepair.FlattenInOrder | scripts/repair_milvus_recipe_ingredients.py:298-328 | what earlier lines give stands before what later ones give |
| IngredientRepair.KeysAgreeIff | scripts/repair_milvus_recipe_ingredients.py:298-310 | two items are the same exactly if name and unit agree up to case and the amounts as text |
| IngredientRepair.AddItem | scripts/repair_milvus_recipe_ingredients.py:298-310 | one item more, unless its key is there already |
| IngredientRepair.AddAnswers | scripts/repair_milvus_recipe_ingredients.py:311-328 | all answers of one name more, stripped of the name they answer for |
| IngredientRepair.MergePlan | scripts/repair_milvus_recipe_ingredients.py:298-328 | raises exactly when some missing name has no answer; else the dedup of the expanded plan |
| IngredientRepair.DedupKeepsKeys | scripts/repair_milvus_recipe_ingredients.py:298-328 | the dedup has exactly the keys of its input |
| IngredientRepair.FirstsExactly | scripts/repair_milvus_recipe_ingredients.py:298-328 | the kept positions are the first ones of their keys |
| IngredientRepair.DedupKeepsFirsts | scripts/repair_milvus_recipe_ingredients.py:298-328 | the dedup is the input at those positions, in order |
| IngredientRepair.MergedKeysDistinct | scripts/repair_milvus_recipe_ingredients.py:298-328 | no two merged items share name, amount and unit up to case |
| IngredientRepair.MergeRepresentsThePlan | scripts/repair_milvus_recipe_ingredients.py:298-328 | every planned item's key is represented, every merged item comes from the plan, and none still names what it answers for |
| IngredientRepair.MergeableIff | scripts/repair_milvus_recipe_ingredients.py:298-328 | merging succeeds exactly when every missing name has filed answers |
| IngredientRepair.MergeSucceedsIff | scripts/repair_milvus_recipe_ingredients.py:170-187 | of validated answers, exactly when names are spelled as asked and filed as written |
| IngredientRepair.MergesIffOneSpelling | scripts/repair_milvus_recipe_ingredients.py:147-187 | with nothing to trim, exactly when no two missing names differ only by case |
| IngredientRepair.TwoSpellingsDoNotMerge | scripts/repair_milvus_recipe_ingredients.py:147-187 | a recipe with `Salt` and `salt`, both without quantity: the answers pass their validation and the merge raises |
| IngredientRepair.ValidateRepair | scripts/repair_milvus_recipe_ingredients.py:337-386 | lists the rows without repair and those with a bad list; raises exactly if some list holds an item that is no object; other details cannot have changed |
| IngredientRepair.ReportIsExact | scripts/repair_milvus_recipe_ingredients.py:337-386 | which keys are reported as missing or invalid, exactly |
| IngredientRepair.MergedListIsGood | scripts/repair_milvus_recipe_ingredients.py:337-386 | merging well-formed items gives a non-empty list of items with amount and unit |
| IngredientRepair.RepairEndToEnd | scripts/repair_milvus_recipe_ingredients.py:147-386 | under those conditions the whole repair validates with nothing missing, invalid or changed |
| TagMetadata.Codes | scripts/enrich_recipe_tags_nutrition_qwen.py:323-334 | the first so many recognised codes, each once, in order |
| TagMetadata.ValidateItem | scripts/enrich_recipe_tags_nutrition_qwen.py:347-382 | the accepted answer, or none when a dimension or nutrient is missing |
| TagMetadata.AcceptedItems | scripts/enrich_recipe_tags_nutrition_qwen.py:347-382 | accepted answers keep every limit, have distinct codes and nutrients in range |
| TagAnswers.TakenAreFirst | scripts/enrich_recipe_tags_nutrition_qwen.py:323-334 | the codes taken are the first different ones, in the order in which they are first read |
| TagAnswers.AcceptedIff | scripts/enrich_recipe_tags_nutrition_qwen.py:347-382 | an answer is accepted exactly if it is about this recipe, names every required dimension and every nutrient fits |
| TagAnswers.AcceptedCarries | scripts/enrich_recipe_tags_nutrition_qwen.py:347-382 | it then holds each nutrient under its own name and, in each dimension, the first codes of its own list |
| TagMetadata.DeriveDiet | scripts/enrich_recipe_tags_nutrition_qwen.py:424-433 | the removals in order leave exactly the given diets that meet their rule |
| TagMetadata.DeriveNutrition | scripts/enrich_recipe_tags_nutrition_qwen.py:435-446 | the appends give the codes of the thresholds in order |
| TagMetadata.DeriveScenes | scripts/enrich_recipe_tags_nutrition_qwen.py:448-487 | the appends and removals give the kept and the derived scenes, without repetition |
| TagMetadata.DeriveMetadata | scripts/enrich_recipe_tags_nutrition_qwen.py:390-493 | the whole derivation |
| TagMetadata.NutritionIsExact | scripts/enrich_recipe_tags_nutrition_qwen.py:435-446 | a nutrition code is given exactly when its threshold holds |
| TagMetadata.ScenesAreSound | scripts/enrich_recipe_tags_nutrition_qwen.py:448-487 | every scene kept meets its threshold or safety test and was given, unless derived |
| TagMetadata.KeptScenesAreExact | scripts/enrich_recipe_tags_nutrition_qwen.py:448-487 | which scenes survive, exactly; only fitness can fall to the limit of four |
| TagMetadata.DietsAreExact | scripts/enrich_recipe_tags_nutrition_qwen.py:424-433 | which diets survive, exactly; vegan and vegetarian never together |
| TagMetadata.DerivingAgainChangesNothing | scripts/enrich_recipe_tags_nutrition_qwen.py:390-493 | deriving from derived metadata changes nothing |
| TagAnswers.DerivedTakesOver | scripts/enrich_recipe_tags_nutrition_qwen.py:390-493 | cuisine, flavor, method, ingredient, meal and nutrients are taken over |
| TagAnswers.NutritionByNumbers | scripts/enrich_recipe_tags_nutrition_qwen.py:435-446 | each nutrition code, in the numbers of the raw answer; no nutrient is taken for another |
| TagAnswers.NutritionInOrder | scripts/enrich_recipe_tags_nutrition_qwen.py:435-446 | the codes come in one order, each at most once |
| TagAnswers.QuickAndFatLoss | scripts/enrich_recipe_tags_nutrition_qwen.py:448-470 | quick and fat-loss, in numbers |
| TagAnswers.FitnessByNumbers | scripts/enrich_recipe_tags_nutrition_qwen.py:448-470 | fitness, in numbers, if there is a place left |
| TagAnswers.SafetyScenes | scripts/enrich_recipe_tags_nutrition_qwen.py:463-487 | child- and elderly-friendly stand exactly if given and safe |
| TagAnswers.OtherScenesStay | scripts/enrich_recipe_tags_nutrition_qwen.py:448-487 | the other given scenes stay |
| TagAnswers.ScenesInOrder | scripts/enrich_recipe_tags_nutrition_qwen.py:448-487 | given scenes come first, then quick, fat-loss and fitness |
| TagAnswers.DietsByText | scripts/enrich_recipe_tags_nutrition_qwen.py:424-433 | which diets stay, in the words found in the recipe |
| TextCells.CleanIsNeat | scripts/enrich_recipe_tags_nutrition_qwen.py:285-290 | cleaned text has only single blanks, inside |
| TextCells.CleanKeepsExactlyNeat | scripts/enrich_recipe_tags_nutrition_qwen.py:285-290 | cleaning leaves exactly the neat texts alone |
| TextCells.CleanKeepsWords | scripts/enrich_recipe_tags_nutrition_qwen.py:263-270 | cleaning and stripping change no word, and join or split none |
| TextCells.StripIsExact | scripts/enrich_recipe_tags_nutrition_qwen.py:263-270 | stripping takes away all white space at the two ends and nothing inside |
| TextCells.SplitJoin | scripts/enrich_recipe_tags_nutrition_qwen.py:798 | splitting undoes joining of parts without the separator |
| TextCells.JoinSplit | app/conversation/postgres_profile_store.py:17-32 | joining undoes splitting |
| TextCells.CellRoundTrip | scripts/enrich_recipe_tags_nutrition_qwen.py:732-798 | a cell of joined labels, cleaned and split, gives the labels back |
| TagDisplay.AddLabels | scripts/enrich_recipe_tags_nutrition_qwen.py:533-546 | labels are appended each once, in order |
| TagDisplay.DisplayTags | scripts/enrich_recipe_tags_nutrition_qwen.py:525-548 | the shown labels of any metadata |
| TagDisplay.ListedIsExact | scripts/enrich_recipe_tags_nutrition_qwen.py:525-548 | the tags of a recipe are those of its dimensions |
| TagDisplay.ListedOfDevice | scripts/enrich_recipe_tags_nutrition_qwen.py:525-548 | and those of a device program |
| TagDisplay.ListedInOrder | scripts/enrich_recipe_tags_nutrition_qwen.py:525-548 | dimension by dimension, in one order |
| TagDisplay.DisplayIsPrefix | scripts/enrich_recipe_tags_nutrition_qwen.py:525-548 | of well-shaped metadata, the first twelve of the listed tags, none merged with another |
| TagDisplay.TagsFit | scripts/enrich_recipe_tags_nutrition_qwen.py:732-734 | five to twelve tags, all different |
| TagDisplay.TagsAreGoodLabels | scripts/enrich_recipe_tags_nutrition_qwen.py:799-804 | every shown tag is a label of its language |
| TagDisplay.ShownIff | scripts/enrich_recipe_tags_nutrition_qwen.py:547-548 | a listed tag is shown exactly when it is among the first twelve |
| TagDisplay.CoreSurvives | scripts/enrich_recipe_tags_nutrition_qwen.py:547-548 | cuisine, flavor, method, ingredient and meal always show |
| TagDisplay.NutritionLabels | scripts/enrich_recipe_tags_nutrition_qwen.py:435-548 | a nutrition label shows exactly when its rule holds, except low-carb behind twelve others |
| TagDisplay.DeviceTagsSurvive | scripts/enrich_recipe_tags_nutrition_qwen.py:496-548 | every tag of a device program shows |
| TagDisplay.DerivedIsShaped | scripts/enrich_recipe_tags_nutrition_qwen.py:390-493 | derived metadata of accepted answers is well shaped |
| TagDisplay.DeviceIsShaped | scripts/enrich_recipe_tags_nutrition_qwen.py:212-522 | so is the metadata of every device program |
| TagDisplay.DeviceTakesProgram | scripts/enrich_recipe_tags_nutrition_qwen.py:496-522 | it is the program's own method and ingredients, without nutrients |
| TagDisplay.DeviceScenes | scripts/enrich_recipe_tags_nutrition_qwen.py:496-522 | with its scene, and quick exactly by the numbers of the record |
| TagDisplay.WriteEntry | scripts/enrich_recipe_tags_nutrition_qwen.py:724-760 | the row of one entry, or none without metadata or with a wrong number of tags |
| TagAnswers.NutrientsAreWritten | scripts/enrich_recipe_tags_nutrition_qwen.py:724-760 | the row spells the nutrients of the raw answer, each under its own name, with basis, metadata and difficulty |
| TagAnswers.DeviceHasNoNutrients | scripts/enrich_recipe_tags_nutrition_qwen.py:724-760 | a device program is written without nutrients |
| TagDisplay.WriteSheet | scripts/enrich_recipe_tags_nutrition_qwen.py:703-760 | a row for every entry in order, or a refusal at the first entry without one |
| TagDisplay.ValidateSheet | scripts/enrich_recipe_tags_nutrition_qwen.py:781-842 | accepts exactly the sheets without findings, invalid JSON and missing nutrients included, despite giving up at a hundred |
| TagDisplay.TagFindingsAreExact | scripts/enrich_recipe_tags_nutrition_qwen.py:796-804 | what each finding on the tags means |
| TagDisplay.ValueFindingsAreExact | scripts/enrich_recipe_tags_nutrition_qwen.py:811-828 | what each finding on metadata and nutrients means |
| TagDisplay.FindingsAreExact | scripts/enrich_recipe_tags_nutrition_qwen.py:796-835 | all findings of a readable row |
| TagDisplay.UnreadableIsFound | scripts/enrich_recipe_tags_nutrition_qwen.py:805-810 | all findings of a row whose JSON cannot be read |
| TagDisplay.DifficultyFindingIsExact | scripts/enrich_recipe_tags_nutrition_qwen.py:829-835 | the difficulty is one of the three labels of its language |
| TagDisplay.Finish | scripts/enrich_recipe_tags_nutrition_qwen.py:994-995 | writing and checking succeed exactly when every entry's row is written and clean |
| TagDisplay.WrittenRowsAreValid | scripts/enrich_recipe_tags_nutrition_qwen.py:732-835 | a row of well-shaped metadata reads back as its tags and passes every check |
| TagDisplay.PipelineIsClean | scripts/enrich_recipe_tags_nutrition_qwen.py:870-995 | so the sheet of a complete cache passes its own check |
| TagVocabulary.VocabularyExists | scripts/enrich_recipe_tags_nutrition_qwen.py:525-548 | label texts that meet the assumption of these results exist |
| MemoryIndex.Encode | app/conversation/milvus_memory_index.py:82-95 | the answers to batches of at most ten, one after another; a failing batch fails all |
| MemoryIndex.BatchingIsMap | app/conversation/milvus_memory_index.py:82-95 | batching refines one embedding per text |
| MemoryIndex.BatchesAreTens | app/conversation/milvus_memory_index.py:82-95 | texts go out ten at a time, and the answers are put one behind the other |
| MemoryIndex.VectorsAreOwn | app/conversation/milvus_memory_index.py:259-268 | accepted vectors are the embeddings of their own texts, of the right dimension, and no text is blank |
| MemoryIndex.BuildRecords | app/conversation/milvus_memory_index.py:277-289 | a record for each well-formed fact, in order |
| MemoryIndex.RecordCarries | app/conversation/milvus_memory_index.py:277-289 | a record carries its fact, each field in its place and cut to its length |
| MemoryIndex.RecordsInOrder | app/conversation/milvus_memory_index.py:277-289 | records are in the order of their facts |
| MemoryIndex.PutLeavesLast | app/conversation/milvus_memory_index.py:290-304 | storing leaves the last record of each id |
| MemoryIndex.PutTouchesOwnIds | app/conversation/milvus_memory_index.py:290-304 | and touches no other id |
| MemoryIndex.DeletesAreExact | app/conversation/milvus_memory_index.py:306-346 | deleting takes ids of one partition only |
| MemoryIndex.ProfileMemoryIndex.constructor | app/conversation/milvus_memory_index.py:106-153 | an index over an existing collection, not yet initialised |
| MemoryIndex.ProfileMemoryIndex.Initialize | app/conversation/milvus_memory_index.py:241-257 | initialises once and leaves the rows alone |
| MemoryIndex.ProfileMemoryIndex.Upsert | app/conversation/milvus_memory_index.py:270-304 | stores the profile's records and their number, or nothing when embedding fails |
| MemoryIndex.ProfileMemoryIndex.Delete | app/conversation/milvus_memory_index.py:306-334 | removes well-formed ids of one partition only; counts all ids given |
| MemoryIndex.ProfileMemoryIndex.DeleteProfile | app/conversation/milvus_memory_index.py:336-346 | removes one partition |
| MemoryIndex.ProfileMemoryIndex.PermissionProbe | app/conversation/milvus_memory_index.py:394-441 | empties the probe partition and leaves no probe behind |
| Reindex.RewriteRow | scripts/reindex_user_memory.py:83-97 | one profile emptied and written again, or left empty when embedding fails |
| Reindex.Run | scripts/reindex_user_memory.py:73-105 | the whole run: a dry run changes nothing; else the rebuild of what the probe left, or where it failed |
| Reindex.ReindexRows | scripts/reindex_user_memory.py:83-97 | the loop, its counts, its dry run and where it stops on failure |
| Reindex.RewriteHome | scripts/reindex_user_memory.py:96-97 | a rewritten partition holds the row and nothing else |
| Reindex.RewriteElsewhere | scripts/reindex_user_memory.py:96-97 | other partitions stay when no fact id is shared |
| Reindex.UnlistedUntouched | scripts/reindex_user_memory.py:83-97 | a run leaves unlisted partitions alone |
| Reindex.ListedHoldsLast | scripts/reindex_user_memory.py:83-97 | the last row of a profile decides what its partition holds |
| Reindex.RebuildForgets | scripts/reindex_user_memory.py:83-97 | what a run leaves depends only on the unlisted partitions |
| Reindex.RebuildTwice | scripts/reindex_user_memory.py:83-97 | a second run changes nothing |
| Reindex.RerunRepairs | scripts/reindex_user_memory.py:83-108 | after a failure anywhere, a full run ends as it would have without it |
| Reindex.TargetIsFacts | app/conversation/milvus_memory_index.py:270-297 | a profile's records are exactly its well-formed facts with their own embeddings |
| Reindex.IndexAgreesWithSource | scripts/reindex_user_memory.py:37-97 | after a complete run every listed partition holds exactly that, and the others are as before |
| Reindex.LaterAccountWins | scripts/reindex_user_memory.py:37-97 | of all listed rows with the same key owner only the last one's facts are in the index after a run, whatever their accounts |
| Reindex.AnAccountIsLost | scripts/reindex_user_memory.py:37-97 | two accounts of one web user: indexed alone the first has its fact in the index, and followed by the second it has not |
| Reindex.BothQualify | scripts/reindex_user_memory.py:37-97 | these rows meet every assumption of the results about runs |
| Reindex.KeyRoundTrip | app/conversation/postgres_profile_store.py:17-32 | parsing a row's profile key gives back its columns exactly if an account is named only for weixin |
| Reindex.KeysCollideIff | scripts/reindex_user_memory.py:37-43 | two rows share a key exactly if channel and user agree, and for weixin also the account |
| Reindex.UsersHaveOwnKeys | scripts/reindex_user_memory.py:37-43 | rows have keys of their own exactly if no two agree in channel, user and, for weixin, account |
| GroundedText.PartsAreClean | app/agent/fast_path.py:377-388 | for a blank-closed set of names, scanning two cleaned texts joined by blanks finds no less than scanning each |
| GroundedText.SeamHidesAName | app/agent/fast_path.py:377-388 | for every other set, cleaned fields that are accepted together while one of them names what is not allowed |
| GroundedText.PartsAreCleanIff | app/agent/fast_path.py:377-388 | accepting a draft by scanning its cleaned fields joined with blanks is safe for exactly the blank-closed sets of names |
| GroundedText.KeepReasons | app/agent/fast_path.py:389-396 | keeps the reasons about current results that name only current results |
| GroundedText.CompleteReasons | app/agent/fast_path.py:399-406 | fills in reasons for results that have none |
| GroundedText.CurrentRecommendation | app/agent/fast_path.py:366-425 | the recommendation built from draft and results |
| GroundedText.FieldsAreShown | app/agent/fast_path.py:366-425 | each field of an accepted draft is shown in its own place unless empty; else the words of the results |
| GroundedText.FactsAreExact | app/agent/fast_path.py:340-349 | what a result must have to be compared |
| GroundedText.ReasonIsExact | app/agent/fast_path.py:296-319 | what a result says of itself, by its first two tags or three ingredients |
| GroundedText.QuestionIsExact | app/agent/fast_path.py:242-261 | the closing question for no, one or several names |
| GroundedText.NamesInOrder | app/agent/fast_path.py:242-261 | the names are those of the results, in order |
| GroundedText.KeptIsLast | app/agent/fast_path.py:389-396 | of the accepted reasons about a result the last is kept |
| GroundedText.CtaIsClean | app/agent/fast_path.py:242-261 | the closing question names at most the one current result, if its name can be shown: no closing bracket inside when it is put in brackets, else no opening one |
| GroundedText.FallbackIsGrounded | app/agent/fast_path.py:321-363 | the recommendation without a draft names only current results exactly if the results' own texts do |
| GroundedText.EveryNameIsCurrent | app/agent/fast_path.py:295-425 | every bracketed name in the answer is a current result's for all drafts, exactly if the results' own texts name only current results and their names are blank-closed |
| GroundedText.ADraftThatSlipsThrough | app/agent/fast_path.py:377-425 | a result named `s 【n` and a draft whose answer shows the name `n`, which is no result's |
| GroundedText.NamesWithoutBlanksAreClosed | app/agent/fast_path.py:377-388 | names without blanks are blank-closed, whatever brackets they hold |
| GroundedText.PlainResultsAreSafe | app/agent/fast_path.py:295-425 | so results whose own texts hold no brackets are safe with every draft |
| GroundedText.EveryResultHasAReason | app/agent/fast_path.py:389-406 | every result with an id has an entry, about itself or accepted from the draft, and nothing else has |
| GroundedText.BlankReasonIff | app/agent/fast_path.py:389-406 | an entry is empty exactly when an accepted draft gave an empty reason |
| GroundedText.ADraftWithoutAReason | app/agent/fast_path.py:389-406 | a draft that is accepted and leaves its one result an empty reason |
| FreshBatches.ConversationMemory.constructor | app/conversation/service.py:1455-1463 | opens with the given history |
| FreshBatches.ConversationMemory.Save | app/conversation/service.py:1405-1464 | appends a snapshot, keeps the last six |
| FreshBatches.ConversationMemory.ActivatePrevious | app/conversation/service.py:2614-2651 | moves the cursor one snapshot back, if there is one |
| FreshBatches.ConversationMemory.Another | app/agent/participle_agent.py:4442-4570 | another batch from the pool or a new search, or nothing shown and nothing saved |
| FreshBatches.SavedIsExact | app/conversation/service.py:1405-1464 | what is saved, and how much of history and pool |
| FreshBatches.BackIsExact | app/conversation/service.py:2614-2651 | stepping back shows the batch before the one at the cursor |
| FreshBatches.ChangeIsExact | app/agent/participle_agent.py:4464-4543 | when another batch comes from the pool, when from a search, and when there is none |
| FreshBatches.ExcludedIsExact | app/agent/participle_agent.py:4464-4494 | the ids of the last three batches are those left out |
| FreshBatches.UnseenInOrder | app/agent/participle_agent.py:4464-4494 | the unseen results keep their order |
| FreshBatches.ChangeIsFresh | app/agent/participle_agent.py:4464-4494 | a new batch repeats no proper id of the last three |
| FreshBatches.HistoryKeepsUp | app/conversation/service.py:1455-1461 | after any run of searches, changes and steps back the history ends with the last batches saved |
| FreshBatches.ChangesAreFresh | app/agent/participle_agent.py:4464-4543 | in every run each changed batch is fresh against the three before it |
| FreshBatches.FourInARowAreDisjoint | app/agent/participle_agent.py:4464-4543 | any four batches in a row of changes are pairwise disjoint |
| FreshBatches.CanReturnIff | app/agent/participle_agent.py:4184-4186 | an id can return at once exactly when it has blanks around it |
| TurnPorts.Workspace.constructor | app/conversation/task_state_workspace.py:34-44 | the shared stores |
| TurnPorts.Workspace.Pop | app/conversation/task_state_workspace.py:710-721 | one slot of one thread goes |
| TurnPorts.Workspace.PopAll | app/conversation/task_state_workspace.py:853-866 | the listed slots of one thread go, nothing else |
| TurnPorts.Workspace.Set | app/conversation/task_state_workspace.py:868-922 | one slot of one thread is set |
| TurnPorts.Workspace.Clear | app/conversation/task_state_workspace.py:710-722 | clearing a conversation keeps running task and execution |
| TurnPorts.Workspace.Apply | app/conversation/task_state_workspace.py:496-722 | an operation changes the state of its own thread only |
| TurnPorts.DoIsExact | app/conversation/task_state_workspace.py:496-722 | what each operation does to each slot |
| TurnPorts.Workspace.Restore | app/conversation/task_state_workspace.py:843-922 | restoring replaces one thread's state and no other's |
| TurnPorts.TurnPort.constructor | app/conversation/dialogue_state_workspace.py:77-88 | a port opens with the state under its own key |
| TurnPorts.TurnPort.Call | app/conversation/dialogue_state_workspace.py:90-110 | refused after closing or for another thread, else applied to the port's key |
| TurnPorts.TurnPort.Snapshot | app/conversation/dialogue_state_workspace.py:112-115 | the state under the port's key; after a replacement, the replacement |
| TurnPorts.TurnPort.ClearInternal | app/conversation/dialogue_state_workspace.py:123-126 | nothing of the port is left, not even the two spared slots |
| TurnPorts.TurnPort.Replace | app/conversation/dialogue_state_workspace.py:117-121 | the port's state becomes the given one |
| TurnPorts.TurnPort.Close | app/conversation/dialogue_state_workspace.py:128-132 | leaves nothing behind; closing twice changes nothing |
| TurnPorts.OpenPort | app/conversation/dialogue_state_workspace.py:77-88 | opening a port on the workspace is one step of the state machine |
| TurnPorts.Through | app/conversation/dialogue_state_workspace.py:90-132 | so is every call, replacement or closing of a port, refusals included |
| TurnPorts.PortsArePrivate | app/conversation/dialogue_state_workspace.py:74-132 | in every interleaving each port behaves as a private copy of its state |
| TurnPorts.OthersSeeNoPorts | app/conversation/dialogue_state_workspace.py:74-132 | threads outside see the stores as if there were no ports |
| TurnPorts.ClosingRestoresTheStores | app/conversation/dialogue_state_workspace.py:123-132 | with every port closed the stores are exactly as without ports |
| PlanExecution.Turn.constructor | app/agent/participle_agent.py:6628-6630 | a turn starts with its state and an empty tool log |
| PlanExecution.Turn.Act | app/orchestrator/planning/plan_executor.py:66-67 | running a handler has its effects |
| PlanExecution.Turn.Execute | app/orchestrator/planning/plan_executor.py:41-84 | one allowed step with a handler is run once; otherwise nothing happens |
| PlanExecution.StepIsExact | app/orchestrator/planning/plan_executor.py:41-84 | a step runs exactly if the plan has one, which is allowed and has a handler |
| PlanExecution.Turn.Plan | app/agent/participle_agent.py:6628-6674 | passing the turn on means state and tool log are unchanged; a failure after an effect ends the turn |
| PlanExecution.PlanIsExact | app/agent/participle_agent.py:6628-6702 | when the planner answers, gives up or passes the turn on, exactly |
| PlanExecution.ClarificationIsSettled | app/agent/participle_agent.py:6676-6683 | a clarification asked before is settled by any other step that succeeds |
| PlanExecution.Turn.Answer | app/agent/participle_agent.py:6628-6674 | the tool log of a turn is the planner's or the later handler's, never both |
| ImageAudit.ReadColumnIndex | scripts/check_recipe_image_urls.py:31-38 | the index of the leading letters, -1 exactly without letters |
| ImageAudit.NameUndoesIndex | scripts/check_recipe_image_urls.py:31-38 | column letters can be read back from the index |
| ImageAudit.IndexUndoesName | scripts/check_recipe_image_urls.py:31-38 | every number is the index of a letter text |
| ImageAudit.IndexFollowsOrder | scripts/check_recipe_image_urls.py:31-38 | the index counts the columns in worksheet order |
| ImageAudit.ReadHeaders | scripts/check_recipe_image_urls.py:63-69 | headers at their columns, gaps filled |
| ImageAudit.HeaderIsItsCell | scripts/check_recipe_image_urls.py:63-69 | each header is the last cell of its column, and the list ends at the last one |
| ImageAudit.ReadRecord | scripts/check_recipe_image_urls.py:74-78 | a data row by header |
| ImageAudit.ColumnIsItsCell | scripts/check_recipe_image_urls.py:74-78 | a column with a header of its own reads as its own last cell or as empty |
| ImageAudit.ReadRecipeRefs | scripts/check_recipe_image_urls.py:53-89 | rows grouped by address in order, and those without one |
| ImageAudit.LineIsItsColumns | scripts/check_recipe_image_urls.py:74-89 | a row's address, id, name and language come from the columns of that name |
| ImageAudit.LinesInOrder | scripts/check_recipe_image_urls.py:72-89 | one line for each data row, in order |
| ImageAudit.EveryRowCountsOnce | scripts/check_recipe_image_urls.py:84-89 | every data row is counted exactly once |
| ImageAudit.RetryRound | scripts/check_recipe_image_urls.py:196-215 | unhealthy results are replaced in place, healthy ones kept |
| ImageAudit.CheckAll | scripts/check_recipe_image_urls.py:178-215 | one result per address, the first healthy answer of three or the last |
| ImageAudit.VerdictIsHealthyOnce | scripts/check_recipe_image_urls.py:194-215 | an address ends healthy exactly when some answer was |
| CardExport.PruneIsLean | scripts/export_milvus_recipe_cards.py:113-128 | nothing inside a pruned tree is empty |
| CardExport.PruneKeepsExactlyLean | scripts/export_milvus_recipe_cards.py:113-128 | pruning changes exactly the trees with something empty inside, and only once |
| CardExport.PruneKeepsLeaves | scripts/export_milvus_recipe_cards.py:113-128 | every 0, False and text stays, under its keys and in order |
| CardExport.PrunedAwayIff | scripts/export_milvus_recipe_cards.py:113-128 | a tree goes entirely exactly when it holds no scalar worth keeping |
| CardExport.BuildRecord | scripts/export_milvus_recipe_cards.py:172-213 | the record of a recipe, or an error when a cell would be too long |
| CardExport.TooLongIff | scripts/export_milvus_recipe_cards.py:155-165 | a record is refused exactly if some list or object of it spells too long a cell |
| CardExport.ColumnsHoldThePruned | scripts/export_milvus_recipe_cards.py:203-212 | a field has a column exactly when something of it survives pruning, with the cell of that |
| CardExport.FieldsAreListedOnce | scripts/export_milvus_recipe_cards.py:314-327 | every present field is listed exactly once, known ones first in their order |
| CardExport.InOrderOfParts | scripts/export_milvus_recipe_cards.py:314-327 | known fields come in the order of the list |
| CardExport.ColumnsAreDistinct | scripts/export_milvus_recipe_cards.py:314-327 | no two columns share a header |
| CardExport.RowsReadBack | scripts/export_milvus_recipe_cards.py:314-339 | every record can be read back from its row |
| CardExport.DetailsReachTheSheet | scripts/export_milvus_recipe_cards.py:172-339 | from recipe to sheet every detail field has its cell, and only pruned-away fields have none |
| CardExport.CellsCollideIff | scripts/export_milvus_recipe_cards.py:208-212 | two values share a cell exactly when one is a text that spells the other, a list or object |
| CardExport.CellReadsBackIff | scripts/export_milvus_recipe_cards.py:208-212 | guessing from a cell is right exactly unless a text spells a list or object; with the column known, always |
| CardExport.NoReaderTellsThemApart | scripts/export_milvus_recipe_cards.py:208-212 | no reader recovers both a list or object and the text that spells it |
| CardExport.TheTextOfAList | scripts/export_milvus_recipe_cards.py:203-212 | the text `[1]` and the list `[1]` give the same column |
| CardExport.DetailsReadBack | scripts/export_milvus_recipe_cards.py:113-339 | a field reads back from the sheet as its pruned value for one who knows which columns are nested; for one who guesses, exactly unless a text spells a list or object |
| StagedCollections.Server.constructor | scripts/enrich_milvus_recipe_details.py:274-280 | the collections of the server |
| StagedCollections.Server.Create | scripts/enrich_milvus_recipe_details.py:305 | an empty collection under the name |
| StagedCollections.Server.Insert | scripts/enrich_milvus_recipe_details.py:323 | rows appended |
| StagedCollections.Server.Rename | scripts/enrich_milvus_recipe_details.py:390-394 | a collection under another name, unless it fails |
| StagedCollections.InsertAll | scripts/enrich_milvus_recipe_details.py:306-325 | batches put every staged row in, in order; a row too large stops before its batch |
| StagedCollections.StagedCarries | scripts/enrich_milvus_recipe_details.py:287-321 | each staged row keeps its key and takes its own detail, text and embedding |
| StagedCollections.Build | scripts/enrich_milvus_recipe_details.py:274-329 | which outcome, exactly; the staging collection is the staged rows with their own texts, embeddings and details, and how much of it when it stops |
| StagedCollections.Promote | scripts/enrich_milvus_recipe_details.py:383-398 | which outcome, exactly, and what the collections are then |
| StagedCollections.PromotionIsExact | scripts/enrich_milvus_recipe_details.py:383-398 | when a promotion works, and what is in production and in the backup then |
| StagedCollections.NothingIsLost | scripts/enrich_milvus_recipe_details.py:383-398 | whatever becomes of a promotion, every collection's rows are still stored |
| StagedCollections.ProductionIsServed | scripts/enrich_milvus_recipe_details.py:390-398 | production holds a whole collection, old or new, exactly unless the second rename and the way back both failed; other collections are untouched |

## Left out

- Classifying user text, resolving references in it and expanding tags: what these yield is an input.
- Fields of the task state that follow from others (current task, language, timestamps kept only for display).
- The older claim script for records stored before the task state had its own record, and the in-memory store.
- Time to live of the candidates, the clarification and the search request.
- What `_flush_uow` does when the store is unavailable; a turn then raises as in a refused flush.
- Calls to models, devices, Milvus, Redis, PostgreSQL and HTTP beyond the answers they give.
- Floating-point rounding: nutrients are integers in tenths, and the protein share is compared exactly.
- Choosing three diverse results among fresh ones: only that the choice is among them is used.
- Choosing the tags a recommendation shows, and filtering out records that are no recipes.
- How JSON text is written and parsed: an encoder and a decoder that inverts it are parameters.
- The search of the memory index.
- The trace events of the planner.
- Parsing of ingredient lines, quantities and workbook styling.
- The Milvus checks of a staging collection: their verdict is an input of `Promote`.
- TagDisplay.PipelineIsClean: takes the label texts as a parameter and assumes `Vocabulary` of them (labels of one language differ, each plain text in its own script), because the display table is data; `VocabularyExists` shows that such texts exist.
- GroundedText.EveryNameIsCurrent: takes the fixed sentences as a parameter and assumes `Sober` of them (no opening bracket).
- StagedCollections.Build: assumes the embedding service answers in order, one vector per text; a wrong number or dimension is handled.
- Reindex.IndexAgreesWithSource: assumes an injective hash and fact ids that belong to one profile; what happens to a shared id is not stated.
- Reindex.KeysCollideIff: assumes no colon in channel and account, because the keys are joined with colons and only user ids may hold them.
- TaskStateRepository.UnitOfWork.Flush: does not place the writes of others between the reload and the merge, because a merge against an older reload is committed only if nothing changed since.
- TurnPorts.TurnPort.Call: does not cover operations that are not about one thread, because the port passes those on unchanged.
- TurnPorts.TurnPort.Snapshot: shows the slots as stored, because the expiry that reading applies depends on the clock; `TaskState.SettleKeepsExclusive` is about that.
- MemoryIndex.ProfileMemoryIndex.PermissionProbe: leaves out the empty collection it creates under a random name and drops at once.
- CardExport.BuildRecord: is handed the six fixed columns, which are trimmed texts of the recipe; only the detail columns are built.
- TurnPorts.Workspace.Restore: keeps slots as whole values, so defaults filled in for old records are not modelled.
- StagedCollections.Promote: the second script does not check for an existing backup first; its first rename then fails with the same effect.
- FreshBatches.ChangesAreFresh: speaks of ids without blanks around them, because others can return (`CanReturnIff`).
