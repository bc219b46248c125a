# tfChek task orchestration — a Dafny model

tfChek runs `run.sh` and terraform commands as background tasks. This project models the part of it that orchestrates those tasks:

- **Task state machines.** A task moves OPEN → REGISTERED → SCHEDULED → STARTED → DONE / FAILED / TIMEOUT. Every status change is sent to the task's subscribers.
- **Task managers.** A manager issues task ids from a persisted sequence number. It keeps one FIFO queue per resource key, plus a table of cancel functions. A worker step pops the head of a queue, runs it and clears its cancel entry.
- **Git repository managers.** This covers the webhook rendezvous locks, the fetch/pull retry loops and the table of managers keyed by URL and state. It also covers the remote choice, `GetFullRepoName`, and the list kept by the multi-repository manager.
- **GitHub result processing.** These are the calls made for a successful or failed run.
- **HTTP handler decisions.** The webhook's branch-to-task-id logic, the authors of a push, `run.sh` submission, and the reports of deleted CI branches.
- **Output of a task.** Line splitting, the S3 fallback order, and the follower bridge.
- **Small utilities.** Locating the repository root, masking secrets, and the byte channel writer.

The `launcher` package holds several incompatible generations of the same types. Each Go file therefore has its own Dafny module, and the modules are not merged:

- `Runner` keeps runner.go's own status enumeration, which has no REGISTERED. The background.go and launcher.go types use it.
- `LauncherTask` (task.go) has its own task type.
- `RunShTaskModel` (runshtask.go) uses the statuses of misc/consts.go.

**Objects and state.** Objects whose fields the Go code updates in place are classes, with `modifies` clauses and with `ensures` clauses that state the new state. Pure helpers and decision logic are functions, with lemmas about them. The following are parameters, never performed:

- process execution, the clock, `os.Environ` and `os.Getwd`;
- the file system and S3;
- go-git and the GitHub REST client;
- the iteration order of Go maps.

A subscriber channel is an index into a log of delivered statuses (`inboxes`). A GitHub manager's channel is its `pending` list.

**Findings and behaviour over description.** Where the code differs from the documented intent, the model follows the code:

- a task reaches SCHEDULED straight from OPEN when it is launched;
- `ForceFail` leaves a terminal state;
- a webhook wait that times out is not an error;
- the id sequence wraps at the 64-bit bound.

Defects found while proving the natural contracts are listed under "## Findings". Each has an as-written member and a corrected member, and the corrected member is the one the rest of the model uses. Rows that rest on a corrected member start with "corrected:", and "## Left out" says for each how the code as written differs.

## Model

| member | source | states |
|---|---|---|
| LauncherTask.GetStatusString | launcher/task.go:52-71 | the name is "unknown" exactly for the ordinals above DONE |
| LauncherTask.StatusStringInjective | launcher/task.go:52-71 | distinct known statuses have distinct names |
| LauncherTask.FinalStatus | launcher/task.go:235-249 | the final status is terminal: DONE exactly when the command succeeded, TIMEOUT exactly for "context deadline exceeded" |
| LauncherTask.EnvEntries | launcher/task.go:199-204 | one `k=v` entry per context variable, in iteration order |
| LauncherTask.EnvEntriesCover | launcher/task.go:199-204 | every context variable appears as a `k=v` entry |
| LauncherTask.BackgroundTaskImpl.constructor | launcher/task.go:131-145 | a new task is OPEN, has never launched a process, and carries its command, arguments and context |
| LauncherTask.BackgroundTaskImpl.SyncName | launcher/task.go:163-165 | the queue key is the command |
| LauncherTask.BackgroundTaskImpl.Register | launcher/task.go:75-82 | succeeds exactly from OPEN, giving REGISTERED; otherwise the status is unchanged |
| LauncherTask.BackgroundTaskImpl.Schedule | launcher/task.go:84-91 | succeeds exactly from REGISTERED, giving SCHEDULED; otherwise unchanged |
| LauncherTask.BackgroundTaskImpl.Start | launcher/task.go:93-103 | succeeds exactly from a status below STARTED; otherwise unchanged |
| LauncherTask.BackgroundTaskImpl.Done | launcher/task.go:104-111 | succeeds exactly from STARTED, giving DONE |
| LauncherTask.BackgroundTaskImpl.Fail | launcher/task.go:113-120 | succeeds exactly from STARTED, giving FAILED |
| LauncherTask.BackgroundTaskImpl.TimeoutFail | launcher/task.go:122-129 | succeeds exactly from STARTED, giving TIMEOUT |
| LauncherTask.BackgroundTaskImpl.Run | launcher/task.go:179-250 | an unscheduled task is refused; a missing working directory is the getwd error; otherwise the command runs in the context's directory with the ambient environment plus the context variables, and the status is the final status of its error |
| Runner.Task.constructor | launcher/runner.go:95-97 | `NewTask` gives an OPEN task with id 0 and the given name, directory, command, arguments and timeout |
| Runner.Task.Schedule | launcher/runner.go:48-55 | succeeds exactly from OPEN (this enumeration has no REGISTERED), giving SCHEDULED |
| Runner.Task.Start | launcher/runner.go:57-67 | succeeds exactly from a status below STARTED |
| Runner.Task.Done | launcher/runner.go:68-75 | succeeds exactly from STARTED, giving DONE |
| Runner.Task.Fail | launcher/runner.go:77-84 | succeeds exactly from STARTED, giving FAILED |
| Runner.Task.TimeoutFail | launcher/runner.go:86-93 | succeeds exactly from STARTED, giving TIMEOUT |
| Runner.RunCommand | launcher/runner.go:152-178 | an empty command is "Empty command received"; otherwise the invocation runs the command in the given or the current directory with the ambient environment plus TFRESDIF_NOPB |
| Runner.RunTask | launcher/runner.go:132-150 | a task that cannot start blocks on the unread error channel: nothing runs and its status stays; otherwise an empty command is the run error, the command runs in the task's directory, and the task ends FAILED exactly when the run failed, DONE otherwise |
| Runner.CommandArgs | launcher/runner.go:190-215 | no environment is an error; otherwise `run.sh` with the flags followed by the target |
| Runner.Flags | launcher/runner.go:193-204 | -a, -o and -n for the set flags, then -y only when -n is not set |
| Runner.Target | launcher/runner.go:205-213 | the environment, or environment/layer when a layer is given |
| Runner.FlagsMeaning | launcher/runner.go:193-204 | each flag is present exactly when its option is set, and `-y` only without `-n` |
| Runner.TargetsIgnored | launcher/runner.go:190-215 | the listed targets do not change the arguments |
| Runner.TargetLast | launcher/runner.go:205-213 | the target is the last argument, starts with the environment, and is the bare environment exactly without a layer |
| Background.BackgroundTask.constructor | launcher/background.go:160 | a new task is OPEN, unnamed, and carries its id, command, arguments and context |
| Background.BackgroundTask.SyncName | launcher/background.go:61-63 | the queue key is the command |
| Background.BackgroundTask.Run | launcher/background.go:77-127 | an unscheduled task is refused; the environment is exactly the context variables when they are present, otherwise the ambient one; the task ends FAILED or DONE with the command's error |
| Background.EnvFromContext | launcher/background.go:100-104 | one `k=v` entry per context variable, in iteration order |
| Background.ContextVariablePresent | launcher/background.go:100-104 | every context variable appears in the environment |
| Background.TaskManager.constructor | launcher/background.go:143-152 | a new manager has sequence 0 and no queues or cancel functions |
| Background.TaskManager.TaskOfRunSh | launcher/background.go:154-162 | no environment is an error with the sequence kept; otherwise the sequence is incremented and names a fresh OPEN task for the `run.sh` arguments |
| Background.TaskManager.Launch | launcher/background.go:164-179 | only an OPEN task launches: it becomes SCHEDULED and is appended to the queue of its key; otherwise "cannot launch task in not open status" and nothing changes |
| Background.TaskManager.RegisterCancel | launcher/background.go:139-141 | stores the cancel function under the task id, with no existence check |
| Background.TaskManager.Close | launcher/background.go:181-189 | every stored cancel function is invoked once and then cleared |
| Background.TaskManager.WorkerStep | launcher/background.go:216-225 | the head of the queue is popped and run, and its cancel entry is cleared |
| Launcher.StateKey | launcher/launcher.go:72-75 | the queue key is the environment, with "/layer" appended when a layer is given |
| Launcher.LayersShareQueue | launcher/launcher.go:72-75 | all layers of an environment share one queue |
| Launcher.Dispatcher.constructor | launcher/launcher.go:35-39 | a new dispatcher has sequence 0 and no queues |
| Launcher.Dispatcher.Increment | launcher/launcher.go:59-62 | the sequence is incremented and the new value returned |
| Launcher.Dispatcher.Launch | launcher/launcher.go:66-87 | no environment gives -1 and an error; otherwise a SCHEDULED task named after the old sequence is queued under the state key, and the new sequence is returned |
| Launcher.LaunchRunSh | launcher/launcher.go:120-128 | a `run.sh` command without environment fails; otherwise it is launched under its environment and layer |
| LauncherUtils.KeepLast | launcher/utils.go:3-14 | the normalised list is no longer than the input |
| LauncherUtils.KeepLastMembers | launcher/utils.go:3-32 | normalising keeps exactly the remotes of the input |
| LauncherUtils.KeepLastNoDuplicates | launcher/utils.go:3-32 | the normalised list has no duplicates |
| LauncherUtils.KeepLastDistinct | launcher/utils.go:3-32 | a list without duplicates is left as it is |
| LauncherUtils.Prepend2Normal | launcher/utils.go:16-32 | a nil list becomes `[r]`; a listed remote leaves it; otherwise `r` is put in front |
| LauncherUtils.NormalizeGitRemotes | launcher/utils.go:3-14 | nil or empty gives nil; otherwise each remote is kept at its last occurrence |
| LauncherUtils.MixedDuplicates | launcher/utils_test.go:11-14 | the test's mixed list normalises to `[a b c d]` |
| LauncherUtils.RepeatedFirst | launcher/utils_test.go:23-28 | `[b a b]` normalises to `[a b]` |
| RunShTaskModel.ContextVarsAsWritten | launcher/runshtask.go:559-563 | the context variables are seen only when stored as a map value, not as a pointer |
| RunShTaskModel.ContextVars | launcher/runshtask.go:559-563 | the context variables are seen whenever they are stored, as a map or through a pointer |
| RunShTaskModel.PointerContextDropped | api/api.go:474 | variables stored through a pointer are lost as written and kept by the corrected reading |
| RunShTaskModel.ReportedLog | launcher/runshtask.go:171-185 | the reported log is never empty: the output, or NOOUTPUT when there is none |
| RunShTaskModel.Broadcast | launcher/runshtask.go:284-296 | sending a status to the subscribers keeps the number of channels |
| RunShTaskModel.BroadcastAt | launcher/runshtask.go:284-296 | each subscribed channel receives the status once; the other channels are unchanged |
| RunShTaskModel.LastIn | launcher/runshtask.go:53-109 | an origin of the order that lies in the set, or none exactly when none does |
| RunShTaskModel.LastInIsLast | launcher/runshtask.go:53-109 | the origin found is the last one visited that lies in the set: no later origin does |
| RunShTaskModel.FirstGitManagerOrderFree | launcher/runshtask.go:53-109 | whether a first git manager is found does not depend on the range order |
| RunShTaskModel.FirstGitManagerSoleHolder | launcher/runshtask.go:53-109 | with one origin alone holding `run.sh`, every range order finds it |
| RunShTaskModel.FirstGitManagerDependsOnOrder | launcher/runshtask.go:53-109 | with two origins holding `run.sh`, the two range orders find different ones |
| RunShTaskModel.FirstGitManager | launcher/runshtask.go:53-109 | no origins is the "no remotes" error; otherwise the last origin holding `run.sh`, or one holding the wtf executable when none holds `run.sh`, or an error exactly when neither exists |
| RunShTaskModel.Paths | launcher/runshtask.go:461-474 | one checkout path per origin, in order |
| RunShTaskModel.RunEnv | launcher/runshtask.go:557-574 | the process environment starts with the ambient one and ends with NOTIFY_TFCHEK=false |
| RunShTaskModel.RunEnvCarriesContext | launcher/runshtask.go:559-563 | every context variable is in the process environment |
| RunShTaskModel.RunEnvCarriesRunshPath | launcher/runshtask.go:566-571 | the computed RUNSH_PATH is in the process environment |
| RunShTaskModel.RunShTask.constructor | launcher/taskmanager.go:77 | a new task is OPEN with id 0 and no subscribers, authors, output or uploads |
| RunShTaskModel.RunShTask.SyncName | launcher/runshtask.go:305-310 | the queue key is the state lock, or the command when no lock is set |
| RunShTaskModel.RunShTask.ResultFor | launcher/runshtask.go:182 | the result sent to GitHub: the id, the success flag, the reported log and the authors |
| RunShTaskModel.RunShTask.GetGitManagers | launcher/runshtask.go:445-459 | no origins is an error; otherwise one checkout path per origin |
| RunShTaskModel.RunShTask.GenerateRunshPath | launcher/runshtask.go:461-474 | no origins is an error only in debug mode; otherwise the checkout paths joined with ':' |
| RunShTaskModel.RunShTask.RunshPathSplits | launcher/runshtask.go:461-474 | splitting RUNSH_PATH on ':' gives back the checkout paths |
| RunShTaskModel.RunShTask.NotifySubscribers | launcher/runshtask.go:284-296 | every subscriber receives the current status, and the list is emptied on a terminal status |
| RunShTaskModel.RunShTask.MoveTo | launcher/runshtask.go:127-244 | sets the status and notifies the subscribers |
| RunShTaskModel.RunShTask.Register | launcher/runshtask.go:127-135 | succeeds exactly from OPEN, giving REGISTERED and notifying; otherwise nothing changes |
| RunShTaskModel.RunShTask.Schedule | launcher/runshtask.go:137-146 | succeeds exactly from REGISTERED, giving SCHEDULED and notifying; otherwise nothing changes |
| RunShTaskModel.RunShTask.Start | launcher/runshtask.go:148-159 | succeeds exactly from a status below STARTED, giving STARTED and notifying; otherwise nothing changes |
| RunShTaskModel.RunShTask.ReportToAll | launcher/runshtask.go:171-185 | every origin with a GitHub manager is sent one successful result; the others get nothing |
| RunShTaskModel.RunShTask.ReportToFirst | launcher/runshtask.go:203-212 | the failed result goes to the first git manager's GitHub manager only, and the lack of one is the error |
| RunShTaskModel.RunShTask.Done | launcher/runshtask.go:160-190 | from STARTED: DONE, subscribers notified and cleared, success reported to every origin; otherwise nothing changes |
| RunShTaskModel.RunShTask.Fail | launcher/runshtask.go:192-217 | from STARTED: FAILED, subscribers notified and cleared, failure reported to the first git manager; otherwise nothing changes |
| RunShTaskModel.RunShTask.TimeoutFail | launcher/runshtask.go:219-244 | from STARTED: TIMEOUT, with the same reporting as Fail; otherwise nothing changes |
| RunShTaskModel.RunShTask.ForceFail | launcher/runshtask.go:252-255 | FAILED from any status, terminal ones included, with the subscribers notified and cleared |
| RunShTaskModel.RunShTask.SetStatus | launcher/runshtask.go:261-263 | overwrites the status without checks |
| RunShTaskModel.RunShTask.SetId | launcher/runshtask.go:301-303 | overwrites the id |
| RunShTaskModel.RunShTask.SetAuthors | launcher/runshtask.go:115-117 | overwrites the authors |
| RunShTaskModel.RunShTask.Subscribe | launcher/runshtask.go:265-282 | the new channel first receives the current status and is kept as a subscriber only for a status that is not terminal |
| RunShTaskModel.RunShTask.EnsureStarted | launcher/runshtask.go:476-497 | the origin gets a started GitHub manager, created only if it has none; the other managers are kept |
| RunShTaskModel.RunShTask.StartAll | launcher/runshtask.go:476-497 | every listed origin gets a started GitHub manager; the existing managers are kept |
| RunShTaskModel.RunShTask.PrepareGitHub | launcher/runshtask.go:476-497 | no origins is an error; otherwise every origin has a started GitHub manager, named after its repository; no manager's pending results or closed state change, and new managers start empty and open |
| RunShTaskModel.RunShTask.Run | launcher/runshtask.go:513-648 | corrected: unscheduled is refused; failed preparation force-fails; a missing first manager is its error, with the task still scheduled and no subscriber, output, upload or GitHub result changed; otherwise the command runs in that checkout with the environment built from the posted variables and RUNSH_PATH in its own range order, the task ends in the final status of its error, results go to GitHub (a failure to the first git manager found by a range of its own), and the status name is uploaded |
| RunShTaskModel.RunShTask.RunScheduled | launcher/runshtask.go:518-648 | corrected: Run's outcome for a scheduled task |
| RunShTaskModel.RunShTask.RunPrepared | launcher/runshtask.go:524-648 | corrected: failed git preparation force-fails with its error; a missing first manager is returned as the error with the task still scheduled and nothing else changed; otherwise the command's run as in Execute |
| RunShTaskModel.RunShTask.RunFirst | launcher/runshtask.go:536-648 | corrected: a missing first manager is the error, nothing else changing; otherwise the command's run as in Execute |
| RunShTaskModel.RunShTask.Execute | launcher/runshtask.go:574-648 | corrected: the task is started, the command launched in the first checkout with the environment built from the posted variables, and the final status reported, a failure to the first git manager of the report's own range, and uploaded |
| RunShTaskModel.RunShTask.Begin | launcher/runshtask.go:590-596 | STARTED is notified and the invocation recorded |
| RunShTaskModel.RunShTask.Finish | launcher/runshtask.go:617-646 | the final status is set, the subscribers notified and cleared, results reported over the report's range order, the status name uploaded |
| TaskManagerModel.ReadSequence | launcher/taskmanager.go:138-167 | a missing or unparsable file reads as 0, and the value is within the 64-bit range |
| TaskManagerModel.WriteSequenceAsWritten | launcher/taskmanager.go:169-193 | the file starts with the number, and an older longer text survives past it |
| TaskManagerModel.WriteSequence | launcher/taskmanager.go:169-193 | the corrected write agrees with the file as written whenever the old text is missing or no longer than the number |
| TaskManagerModel.ReadAfterWrite | launcher/taskmanager.go:138-193 | with truncation, reading back a written sequence gives it |
| TaskManagerModel.SequenceStore.constructor | launcher/taskmanager.go:138-167 | the store holds the given text |
| TaskManagerModel.SequenceStore.Write | launcher/taskmanager.go:169-193 | corrected: the store holds exactly the written number, with nothing of the old text left |
| TaskManagerModel.TaskManagerImpl.constructor | launcher/taskmanager.go:195-204 | the sequence is read from the store; no tasks, queues or cancel functions |
| TaskManagerModel.TaskManagerImpl.Get | launcher/taskmanager.go:115-117 | the stored task, or nil exactly for an unknown id |
| TaskManagerModel.TaskManagerImpl.Add | launcher/taskmanager.go:93-105 | corrected: nil is refused; otherwise the sequence is incremented, becomes the task's id, is stored, and is persisted |
| TaskManagerModel.TaskManagerImpl.AddRunSh | launcher/taskmanager.go:69-91 | no environment gives no task; otherwise a fresh OPEN `run.sh` task with the next id is stored |
| TaskManagerModel.TaskManagerImpl.LaunchById | launcher/taskmanager.go:107-113 | an unknown id is an error; an OPEN task becomes SCHEDULED and is queued; any other is refused unchanged |
| TaskManagerModel.TaskManagerImpl.RegisterCancel | launcher/taskmanager.go:119-125 | succeeds exactly for a known id, storing the function |
| TaskManagerModel.TaskManagerImpl.Cancel | launcher/taskmanager.go:55-63 | invokes the stored function exactly when one is stored, with no status change |
| TaskManagerModel.TaskManagerImpl.Launch | launcher/taskmanager.go:206-221 | only an OPEN task launches, becoming SCHEDULED at the end of its queue |
| TaskManagerModel.TaskManagerImpl.Close | launcher/taskmanager.go:223-231 | every stored cancel function is invoked once and cleared |
| TaskManagerModel.TaskManagerImpl.WorkerStep | launcher/taskmanager.go:264-273 | corrected: the head of the queue is popped and run, and its cancel entry is cleared |
| TaskManagerModel.Shared.constructor | launcher/taskmanager.go:127-136 | no manager exists yet |
| TaskManagerModel.Shared.GetTaskManager | launcher/taskmanager.go:127-136 | the first call creates the manager from the store; later calls return the same one |
| TaskManagerModel.UntruncatedWriteRepeatsIds | launcher/taskmanager.go:179 | a stored "abc" is overwritten to "1bc", which reads as 0 again, so id 1 repeats |
| TaskManagerModel.TruncatedWriteIncreasesIds | launcher/taskmanager.go:138-193 | with truncation each new id is one more than the last |
| WtfTaskManagerModel.NewTask | launcher/wtfTaskManager.go:76-87 | a fresh OPEN task whose extra environment is the map behind the context pointer |
| WtfTaskManagerModel.WtfTaskManagerImpl.constructor | launcher/wtfTaskManager.go:40-50 | the sequence is read from the store; no tasks, hashes, queues or cancel functions |
| WtfTaskManagerModel.WtfTaskManagerImpl.Get | launcher/wtfTaskManager.go:162-164 | the stored task, or nil exactly for an unknown id |
| WtfTaskManagerModel.WtfTaskManagerImpl.Add | launcher/wtfTaskManager.go:135-152 | corrected: nil is refused; otherwise the id is one more than the re-read store, and the store then holds it |
| WtfTaskManagerModel.WtfTaskManagerImpl.AddRunSh | launcher/wtfTaskManager.go:67-101 | no environment gives no task; otherwise the task is added, its hash recorded, and the result is the webhook-lock outcome, or the "no locks" error without origins |
| WtfTaskManagerModel.WtfTaskManagerImpl.GetId | launcher/wtfTaskManager.go:166-171 | the id recorded for the hash, or an error exactly for an unknown hash |
| WtfTaskManagerModel.WtfTaskManagerImpl.LaunchById | launcher/wtfTaskManager.go:154-160 | an unknown id is an error; an OPEN task is scheduled and queued, a SCHEDULED one is accepted unchanged |
| WtfTaskManagerModel.WtfTaskManagerImpl.RegisterCancel | launcher/wtfTaskManager.go:173-179 | succeeds exactly for a known id, storing the function |
| WtfTaskManagerModel.WtfTaskManagerImpl.Cancel | launcher/wtfTaskManager.go:52-60 | invokes the stored function exactly when one is stored |
| WtfTaskManagerModel.WtfTaskManagerImpl.Launch | launcher/wtfTaskManager.go:181-205 | OPEN is scheduled and queued; SCHEDULED passes unchanged; anything else is "not scheduled" |
| WtfTaskManagerModel.WtfTaskManagerImpl.Close | launcher/wtfTaskManager.go:207-215 | every stored cancel function is invoked once and cleared |
| WtfTaskManagerModel.WtfTaskManagerImpl.WorkerStep | launcher/wtfTaskManager.go:247-256 | corrected: the head of the queue is popped and run, and its cancel entry is cleared |
| Emitter.Rest | launcher/emitter.go:102-116 | the unterminated rest holds no newline |
| Emitter.LinesAndRest | launcher/emitter.go:102-116 | the lines followed by the rest give back the text |
| Emitter.LinesShape | launcher/emitter.go:102-116 | every line ends in exactly one newline |
| Emitter.LinesAreCompletePrefix | launcher/emitter.go:102-116 | the lines are a prefix of the text, and only a newline-free rest is dropped |
| Emitter.ReadLines | launcher/emitter.go:102-116 | the read lines are the newline-terminated lines of the data |
| Emitter.PullWithStatus | launcher/emitter.go:143-152 | only the status's own name is tried, and the pull succeeds exactly when it is available |
| Emitter.PullS3TaskOutput | launcher/emitter.go:119-141 | a known task tries its own status; an unknown one tries done, failed, timeout in order and stops at the first available |
| Emitter.KnownStatus | launcher/emitter.go:119-141 | the status of a known task, or none |
| Emitter.GetCompletedTaskOutput | launcher/emitter.go:81-117 | data is split into lines; a read error is reported; a missing file is pulled and read once more |
| Emitter.KnownTaskTriesOwnStatus | launcher/emitter.go:119-152 | a DONE task misses its output when only "failed" exists, while an unknown task finds it |
| Emitter.GetTaskLineReader | launcher/emitter.go:15-76 | no path and an unknown task are errors; otherwise a new channel receives the current status and is kept as a subscriber unless the status is terminal |
| Emitter.Consumed | launcher/emitter.go:32-74 | the bridge reads statuses up to and including the first terminal one |
| Emitter.StartedPositions | launcher/emitter.go:32-74 | a follower is started exactly at each STARTED, and none when the path is unusable |
| Emitter.BridgeAsWritten | launcher/emitter.go:32-74 | as written, no follower is ever stopped |
| Emitter.Bridge | launcher/emitter.go:32-74 | the last started follower is stopped once a terminal status arrives |
| Emitter.StartedThenDone | launcher/emitter.go:32-74 | on the statuses STARTED then DONE the bridge reads both, ends on a terminal status, and has started one follower |
| GitManager.ManagerKey | git/manager.go:148-151 | the key is the URL, or the URL, ';' and the state |
| GitManager.ShiftLeft | git/manager.go:361 | Go's `<<` on non-negative values: doubling n times |
| GitManager.Received | git/manager.go:84 | a receive on a lock: the held name, or "" from a drained closed channel |
| GitManager.TrimRightSlash | git/manager.go:157 | only trailing slashes are removed |
| GitManager.LastChunk | git/manager.go:155-156 | the repository name is the part after the last '/' |
| GitManager.ManagerPath | git/manager.go:155-157 | the checkout path never ends in '/' |
| GitManager.ManagerPathStateless | git/manager.go:155-157 | without a state the path is the repository directory and the name |
| GitManager.ManagerKeyCollision | git/manager.go:148-151 | the keys of ("a;b", "") and ("a", "b") coincide |
| GitManager.GetBranchRefSpecs | git/manager.go:598-610 | only a branch reference succeeds, giving the remote's fetch specs plus one |
| GitManager.BranchRefSpecOfBranch | git/manager.go:598-610 | the added spec maps the branch onto its remote-tracking reference |
| GitManager.LastOrigin | git/manager.go:689-697 | the remote named "origin", or none exactly when no remote has that name |
| GitManager.RetryLoop | git/manager.go:352-373 | at most five attempts, stopping at success or "already up-to-date", sleeping 4<<i seconds between them; the error is the fifth one, and there is none exactly when some attempt settles |
| GitManager.ChosenRemote | git/manager.go:689-697 | the last remote named "origin" when one is listed; otherwise the remote held before, or else the first listed |
| GitManager.CoolDownSchedule | git/manager.go:361 | the cool-downs are 4, 8, 16 and 32 seconds |
| GitManager.BuiltInManager.constructor | git/manager.go:161-163 | a new manager has no webhook locks, no open repository and no remote |
| GitManager.BuiltInManager.WaitForWebhook | git/manager.go:77-110 | a negative timeout, a missing or nil lock are errors; the branch's own name consumes the lock; another name is an error; a timeout is not an error |
| GitManager.BuiltInManager.RegisterWebhookLock | git/manager.go:113-121 | an empty lock is created exactly for a branch that has none |
| GitManager.BuiltInManager.UnlockWebhookLock | git/manager.go:123-131 | a registered lock receives the branch name and is closed; an unknown branch is an error |
| GitManager.BuiltInManager.InitRemotes | git/manager.go:672-700 | succeeds exactly with a remote listed; the remote becomes the ChosenRemote of the list and the one held before; a failure leaves it |
| GitManager.BuiltInManager.Clone | git/manager.go:653-670 | the repository is open exactly when cloning succeeded; on success the remote is the ChosenRemote when remotes are listed and unchanged otherwise; on failure it is unchanged |
| GitManager.BuiltInManager.Open | git/manager.go:54-66 | success exactly without an open error; then the repository is open and the remote is the ChosenRemote when remotes are listed, unchanged otherwise; a failure changes nothing |
| GitManager.BuiltInManager.SwitchTo | git/manager.go:318-518 | the precondition errors in order; success exactly when the repository is open, remotes are listed, the worktree opens, a fetch settles, checkout and track pass and a pull settles; otherwise the fifth fetch error, the checkout error, "cannot set tracked branch. Error: " with the track error, or the fifth pull error |
| GitManager.Registry.constructor | git/manager.go:141-146 | the table starts empty |
| GitManager.Registry.GetManager | git/manager.go:140-168 | the same key gives the same manager; a new key gets a fresh manager at the derived path |
| GitManager.Registry.DistinctKeysDistinctManagers | git/manager.go:140-168 | different keys hold different managers |
| GitManager.WebhookRendezvous | git/manager.go:77-131 | registering, unlocking and then waiting all succeed, and the wait frees the lock so that the branch can be registered again |
| GitUtils.GetFullRepoName | git/utils.go:8-42 | as written: an error exactly when no pattern matches, the patterns tried as ssh, git://, https with .git, https |
| GitUtils.GetFullRepoNameCorrected | git/utils.go:8-42 | the same order with ".git" anchored at the end |
| GitUtils.LooseEndingTruncatesName | git/utils.go:17 | "https://github.com/wix-system/git-tools" gives "wix-system" as written |
| GitUtils.AnchoredEndingKeepsName | git/utils.go:17 | the corrected reading gives "wix-system/git-tools" |
| GitUtils.AsWrittenAgreesOnGitSuffix | git/utils.go:8-42 | both readings agree on every URL ending in ".git" |
| GitUtils.GitSuffixEndsAgree | git/utils.go:9-21 | on a ".git" suffix the loose and anchored endings end the group at the same place |
| GitUtils.FindAgrees | git/utils.go:9-21 | equal group ends give equal matches |
| GitUtils.SshTestCase | git/utils_test.go:16 | the ssh URL gives "wix-system/rg" |
| GitUtils.GitTestCase | git/utils_test.go:17 | the git:// URL gives "wix-system/rg" |
| GitUtils.CloneTestCase | git/utils_test.go:18 | the https URL with .git gives "wix-system/rg" |
| GitUtils.HttpsTestCase | git/utils_test.go:19 | the https URL without .git gives "wix-system/rg" |
| GitUtils.HttpUrlRejected | git/utils_test.go:20 | an http URL is an error in both readings |
| GitUtils.CorrectedCloneUrl | git/utils.go:17 | any https URL ending in ".git" gives its path |
| GitUtils.CorrectedSshUrl | git/utils.go:9 | any ssh URL gives the part after the colon |
| GitUtils.CorrectedGitUrl | git/utils.go:13 | any git:// URL gives its path |
| GitHubManager.WrapComment | github/client.go:59-62 | the comment is the data between the fixed head and tail |
| GitHubManager.FormatList | github/manager.go:111-142 | the bracketed, space-separated list |
| GitHubManager.TaskBranch | github/manager.go:109 | the task prefix followed by the id |
| GitHubManager.MergeMessage | github/manager.go:134 | the merge commit message naming the authors in %v list form |
| GitHubManager.Process | github/manager.go:108-155 | success creates a PR, and with a number comments, requests review and merges unless fused; failure creates an issue and comments on it |
| GitHubManager.ProcessSuccessMerges | github/manager.go:111-142 | the full call sequence of a successful run |
| GitHubManager.StripGitSuffixes | github/manager.go:45-68 | every trailing ".git" is removed |
| GitHubManager.StripGitSuffixesShape | github/manager.go:53-61 | what is stripped is a run of ".git" copies |
| GitHubManager.StripGitSuffixesRoundTrip | github/manager.go:53-61 | a name without the ".git" ending is recovered from itself followed by any number of ".git" copies |
| GitHubManager.AfterLastSlash | github/manager.go:45-68 | the position after the last '/' |
| GitHubManager.ExtractRepoName | github/manager.go:45-68 | an unparsable URL or a path without '/' gives the URL back; otherwise the name has no '/' and no ".git" ending, and the last path segment is the name followed by copies of ".git" |
| GitHubManager.ExtractRepoNameExample | github/manager.go:45-68 | "git@github.com:wix-system/rg.git" gives "rg" |
| GitHubManager.Manager.constructor | github/manager.go:36-43 | a new manager has nothing pending and is neither started nor closed |
| GitHubManager.Manager.Start | github/manager.go:88-93 | the manager is started, with one consumer however often it is started |
| GitHubManager.Manager.Send | github/manager.go:157-159 | the result is queued |
| GitHubManager.Manager.Close | github/manager.go:165-168 | the manager is stopped and its channel closed |
| GitHubManager.Manager.ConsumerStep | github/manager.go:95-106 | a stopped consumer exits; else it processes the oldest result |
| GitHubManager.Registry.constructor | github/manager.go:36-43 | no managers |
| GitHubManager.Registry.InitManager | github/manager.go:36-43 | a fresh manager for the repository replaces any earlier one |
| GitHubManager.Registry.GetManager | github/manager.go:70-78 | the registered manager, or none |
| GitHubManager.Registry.GetAllManagers | github/manager.go:80-86 | every registered manager, once each |
| Api.FetchAuthors | api/api.go:381-395 | each commit author once, and nothing for a nil payload |
| Api.TaskIdChunk | api/api.go:327-328 | the task-id chunk holds no '-' |
| Api.BranchName | api/api.go:320 | the pushed reference with every "refs/heads/" removed, as strings.ReplaceAll does |
| Api.BranchNameOfHead | api/api.go:320 | the branch of "refs/heads/" + b is b when b itself holds no "refs/heads/" |
| Api.Eligible | api/api.go:321-327 | a branch is eligible exactly when it starts with the task prefix followed by a digit |
| Api.LaunchError | api/api.go:359 | the 400 message for a launch that fails, with the task id in decimal |
| Api.LaunchedForPush | api/api.go:352-368 | a known task ends with exactly the commit authors, each once; an OPEN task is scheduled and queued with a 202, any other gives the launch error with a 400 and no queue change |
| Api.BranchChunk | api/api.go:321-328 | the chunk after the prefix runs to the next '-' |
| Api.NonNumericChunk | api/api.go:327-337 | "tfci-12x" is eligible but has no numeric id |
| Api.WebHook | api/api.go:318-372 | not created gives no reply; ineligible 200; non-numeric 400; unknown 404; otherwise authors set and launched, 202 or 400 |
| Api.LaunchForPush | api/api.go:341-368 | the authors are set and an OPEN task is scheduled; otherwise the launch error |
| Api.SubmitCommand | api/api.go:469-495 | the task is added with its context and its cancel registered; a failure returns no task |
| Api.RunShPost | api/api.go:150-217 | a bad command is 400; a failed submit 500; otherwise 201 with the id of a task carrying the two fixed variables |
| BranchDeleteApi.ErrorMsg | api/branch_delete_api.go:34-41 | the error text, or "" for none |
| BranchDeleteApi.DeletionStatus | api/branch_delete_api.go:42-56 | the entry of a repository first reported: the branch mapped to whether it was deleted, with the error and its text |
| BranchDeleteApi.BranchStatusAsWritten | api/branch_delete_api.go:42-56 | as written, defined only when the repository is already reported |
| BranchDeleteApi.BranchStatus | api/branch_delete_api.go:42-56 | the branch is set and the repository's other branches and the other repositories are kept |
| BranchDeleteApi.BranchStatusAgrees | api/branch_delete_api.go:42-56 | both agree for a reported repository |
| BranchDeleteApi.FirstReportPanics | api/branch_delete_api.go:34-56 | the first report of a fresh response has no entry to update as written |
| BranchDeleteApi.DeleteResponse.constructor | api/branch_delete_api.go:34-41 | the error and its text, and an empty report |
| BranchDeleteApi.DeleteResponse.SetRepoBranchStatus | api/branch_delete_api.go:42-56 | the report becomes the corrected branch status |
| BranchDeleteApi.DeleteResponse.SetRepoStatus | api/branch_delete_api.go:57-64 | only the repository's entry is replaced |
| BranchDeleteApi.DeleteResponse.SetError | api/branch_delete_api.go:66-73 | the error and its text stay consistent |
| BranchDeleteApi.DeleteTarget | api/branch_delete_api.go:82-135 | a branch yields an id only when it splits into exactly two parts; an id overrides it and rewrites the branch |
| BranchDeleteApi.TaskBranchTarget | api/branch_delete_api.go:82-110 | "tfci-n" names task n |
| BranchDeleteApi.ExtraPartsGiveNoId | api/branch_delete_api.go:82-110 | a branch with more parts names no task |
| BranchDeleteApi.ParseBefore | api/branch_delete_api.go:192-217 | empty is rejected; digits are Unix seconds, rejected when they overflow; anything else is a date, rejected with "cannot parse ISO RFC1123 date" when `time.Parse` fails on it |
| BranchDeleteApi.ReportDeletion | api/branch_delete_api.go:144-157 | corrected: the repository's entry records the branch's deletion outcome |
| BranchDeleteApi.ReportDeletions | api/branch_delete_api.go:144-157 | corrected: every repository is reported, with its last outcome |
| BranchDeleteApi.DeleteCIBranch | api/branch_delete_api.go:75-173 | corrected: a missing target is not acceptable; no managers is an error; otherwise every repository is reported |
| BranchDeleteApi.CleanupBranches | api/branch_delete_api.go:175-248 | no managers is 202 with an error; an empty, overflowing or unparsable `before` is 406 with its message, the unparsable date's being "cannot parse ISO RFC1123 date"; otherwise 202 and every repository is reported with its last cleanup status |
| MultiManager.Without | git/multimanager.go:41-73 | removing a remote never lengthens the list |
| MultiManager.WithoutMembers | git/multimanager.go:41-73 | exactly the managers of other remotes remain |
| MultiManager.WithoutAbsent | git/multimanager.go:41-73 | an absent remote leaves the list |
| MultiManager.DeleteScan | git/multimanager.go:58-73 | the as-written delete keeps the backing array's length |
| MultiManager.AddScan | git/multimanager.go:41-56 | the as-written add keeps the backing array's length |
| MultiManager.DeleteKeepsOneAfter | git/multimanager.go:65 | as written, deleting position j keeps only the next element after it |
| MultiManager.DeleteLastPanics | git/multimanager.go:65 | as written, deleting the last element reads past the end |
| MultiManager.AddListedPanics | git/multimanager.go:47 | as written, re-adding any listed remote fails |
| MultiManager.DeleteFirstOfThree | git/multimanager.go:65 | deleting the first of three loses the third |
| MultiManager.MultiRepoManager.constructor | git/multimanager.go:14-19 | the maps and the list as given |
| MultiManager.MultiRepoManager.Managers | git/multimanager.go:21-23 | the list has its recorded length |
| MultiManager.MultiRepoManager.GetManagerByPath | git/multimanager.go:25-31 | the mapped manager, or none |
| MultiManager.MultiRepoManager.GetManagerByOrigin | git/multimanager.go:33-39 | the mapped manager, or none |
| MultiManager.MultiRepoManager.AddManagerAsWritten | git/multimanager.go:41-56 | nil changes nothing; a new remote is mapped but not listed; a listed one panics |
| MultiManager.MultiRepoManager.DeleteManagerAsWritten | git/multimanager.go:58-73 | an unknown path changes nothing; a known one unmaps it and rewrites the list as written |
| MultiManager.MultiRepoManager.RemoveRemote | git/multimanager.go:41-73 | the list loses exactly the remote's managers |
| MultiManager.MultiRepoManager.Append | git/multimanager.go:41-56 | the manager is listed last |
| MultiManager.MultiRepoManager.ListsRemote | git/multimanager.go:45-46 | true exactly when some listed manager has the remote |
| MultiManager.MultiRepoManager.AddManager | git/multimanager.go:41-56 | corrected: nil changes nothing; a mapped and listed remote has its entries replaced by the manager, listed last; any other manager leaves the list as it is; the manager is mapped by path and by remote |
| MultiManager.MultiRepoManager.DeleteManager | git/multimanager.go:58-73 | corrected: unmaps the manager and removes just its remote |
| Locate.FirstIndex | finder/locate.go:16-28 | the first position of the component, or none exactly when it is absent |
| Locate.LocateRepo | finder/locate.go:12-29 | a relative path is rejected; otherwise the components up to the first "production_42", or an error without one |
| Locate.JoinPrefix | finder/locate.go:16-28 | joining fewer parts gives a prefix ending at a separator |
| Locate.RepoIsPrefix | finder/locate.go:16-28 | the root is a prefix of the path, ending at a component boundary |
| Locate.JoinSnoc | finder/locate.go:16-28 | joining one more part adds the separator and it |
| Locate.RepoEndsInProd42 | finder/locate.go:16-28 | the root ends in "/production_42" |
| Locate.LocateUnderRoot | finder/locate.go:31-71 | the root's error, or the tool's path with an error exactly when it is not executable |
| Locate.LocateTerraform | finder/locate.go:31-42 | the root's `bin/terraform` |
| Locate.LocateRunSh | finder/locate.go:60-71 | the root's `run.sh` |
| Locate.BelowRoot | finder/locate_test.go:20-23 | a path below a root locates the root whatever follows |
| Locate.FirstIndexUnique | finder/locate.go:16-28 | the first occurrence is what FirstIndex names |
| ListConfig.Masked | misc/listConfig.go:45-57 | same length; each position keeps its character exactly when readable, else '*' |
| ListConfig.MaskPass | misc/listConfig.go:45-57 | the buffer filled position by position is the masked secret |
| ListConfig.ShortSecretHidden | misc/listConfig.go:50-54 | up to seven characters are masked entirely |
| ListConfig.EightShowsFirst | misc/listConfig.go:49-54 | eight characters show only the first |
| ListConfig.MiddleHidden | misc/listConfig.go:49-54 | the middle of any secret is masked |
| ListConfig.MaskIdempotent | misc/listConfig.go:45-57 | masking twice is masking once |
| ListConfig.Lower | misc/listConfig.go:59-71 | lower-casing keeps the length |
| ListConfig.MaskEnvValue | misc/listConfig.go:59-71 | the value is masked exactly when the key has a secret fragment, ignoring case |
| ListConfig.LowerIdempotent | misc/listConfig.go:59-71 | lower-casing twice is lower-casing once |
| ListConfig.SecretKeyIgnoresCase | misc/listConfig.go:59-71 | the decision does not depend on letter case |
| ListConfig.FragmentAtEnd | misc/listConfig.go:59-71 | any key ending in a fragment is secret |
| ReadWriter.ChanWriter.constructor | readwriter/readwriter.go:9-11 | an empty, open writer |
| ReadWriter.ChanWriter.Write | readwriter/readwriter.go:16-23 | every byte is queued in order and the full length returned |
| ReadWriter.ChanWriter.Close | readwriter/readwriter.go:25-28 | the writer is closed |
| ReadWriter.ChanWriter.Read | readwriter/readwriter.go:30-43 | the oldest bytes fill the buffer; fewer than asked, with EOF, exactly when closed and drained |
| ReadWriter.ReadsArePrefix | readwriter/readwriter.go:16-43 | the bytes read are a prefix of the bytes written |

## Left out

- Process execution, `os.Environ`, `os.Getwd`, the clock and `time.Sleep` are parameters: the command's error and output, the ambient environment, the working directory, and the sleeps recorded as a list.
- The iteration order of Go maps is a parameter, one per range: `order` for the checkout `getFirstGitManager` chooses in Run and for `prepareGitHub`, `pathOrder` for RUNSH_PATH, `reportOrder` for the ranges of Done, Fail and TimeoutFail, and `envOrder` for the context's variables. The failure report reaches the checkout's own repository for every choice of orders only when one origin alone holds `run.sh` (FirstGitManagerSoleHolder). `Api.FetchAuthors` lists authors in order of first appearance.
- Goroutines, locks and channels are run sequentially. `runTasks` is one `WorkerStep` per task. The one-second polling `Start`/`starter` loops are not modelled.
- Blocking channel sends are preconditions: the dispatcher's queue capacity of 50, and `ChanWriter.Read` needing enough buffered bytes or a closed writer. The task managers' per-key queues are unbounded, as the two Launch lines below say.
- Channel capacities above that bound are not modelled: 1024 in the writer, 2 per subscriber, 20 per GitHub manager.
- Calling a nil cancel function in `Close` is a precondition: every stored entry is non-nil. Every WorkerStep stores `None` under its task's id, so Close cannot be called once any task has run; in Go it would then call a nil function (`launcher/taskmanager.go:227`) and panic. `main.go`'s deferred `tm.Close()` never runs anyway, because `log.Fatal` exits first.
- Unlocking a webhook lock twice would close a closed channel, so it is a precondition.
- The sub-steps of `prepareGit` (`launcher/runshtask.go:327-398`) are the single outcome `gitPrep`: its goroutine fan-in, the wait for each webhook, the open or clone, and the branch switch.
- The `os.Stat` checks of `getFirstGitManager` appear as the sets `runsh` and `wtf`.
- `AddWebhookLocks`, called from `WtfTaskManagerImpl.AddRunSh` (`launcher/wtfTaskManager.go:96`), is the parameter `locks` there; the lock it registers on each git manager is not modelled.
- The certificate and lambda deliveries in Run (`launcher/runshtask.go:546-553`) are left out: their errors are only logged.
- go-git calls are outcomes given as parameters: clone, open, worktree, fetch, checkout, trackBranch and pull. The RefSpec validation error is left out.
- ANSI stripping in `GetCleanOut` is left out.
- The S3 upload is recorded only as the status name it is tagged with. The file store and S3 are parameters: paths, read results and the available keys.
- JSON decoding and response writing are left out. Only the status code and message are modelled.
- The `strconv` and `time.Parse` error texts in messages are left out. RFC 1123 date parsing is the parameter `dateParses` of ParseBefore and CleanupBranches: a date that parses stays text.
- The GitHub push payload is reduced to `created`, `ref` and the list of commit authors. An error from the webhook regexp match is ignored, as in the code.
- `AddWtfTask` and `WtfTask` are left out: they depend on an external package, or are unimplemented stubs.
- The debug flag is a parameter of `GenerateRunshPath`.
- A task timeout is the command error text "context deadline exceeded".
- `checkExecutable` is the parameter `executable`. Its test `Mode()|0111 == 0` never holds, so it amounts to "the file exists".
- `maskPass` treats every character as one byte, so non-ASCII runes are not modelled.
- Case-insensitive matching folds ASCII letters only.
- `giturls.Parse` (`github/manager.go:46`) is the parameter `parse`.
- The GitHub-download repository manager, `github/repomanager.go`, is not part of this model.
- Run: corrected: the environment is built with `ContextVars`, which reads the variables through the pointer `api/api.go:474` stores. As written, the `map[string]string` assertion at `launcher/runshtask.go:559` fails on that pointer, so a posted task's variables and `TFRESDIF_NOPB` never reach the process (`ContextVarsAsWritten`).
- RunScheduled: corrected: the same environment as Run, built from the posted variables that the code as written drops.
- RunPrepared: corrected: the same environment as Run, built from the posted variables that the code as written drops.
- RunFirst: corrected: the same environment as Run, built from the posted variables that the code as written drops.
- Execute: corrected: launches with `RunEnv` over `ContextVars`; as written the command gets no posted variables.
- WorkerStep (TaskManagerModel.TaskManagerImpl): corrected: runs the task through Run's corrected environment.
- WorkerStep (WtfTaskManagerModel.WtfTaskManagerImpl): corrected: runs the task through Run's corrected environment.
- Write (TaskManagerModel.SequenceStore): corrected: the file is truncated (`WriteSequence`). As written, `launcher/taskmanager.go:179` opens it without `O_TRUNC`, so a longer old text keeps its tail (`WriteSequenceAsWritten`).
- Add (TaskManagerModel.TaskManagerImpl): corrected: persists the sequence through the truncating write.
- Add (WtfTaskManagerModel.WtfTaskManagerImpl): corrected: persists through the truncating write, so `ReadSequence(store.text) == t.id` holds. As written, a stored "abc" becomes "1bc", reads back as 0, and id 1 is issued twice (`UntruncatedWriteRepeatsIds`).
- ReportDeletion: corrected: records through the corrected `SetRepoBranchStatus`. As written, `api/branch_delete_api.go:48` reads the missing entry of a fresh response and panics (`FirstReportPanics`).
- ReportDeletions: corrected: the same reporting as ReportDeletion; as written the first report panics.
- DeleteCIBranch: corrected: replies 202 with the full report. As written, with at least one GitHub manager the handler panics at its first report (lines 149 and 153).
- Launch (Launcher.Dispatcher): requires a non-empty command when an environment is given. Go's `cmd[0]` at `launcher/launcher.go:83` panics on an empty one; without an environment it answers -1 first.
- Write and Close (ReadWriter.ChanWriter) require an open writer. In Go, sending on or closing a closed channel panics.
- Send and Close (GitHubManager.Manager) require an open channel. In Go, sending on or closing a closed channel panics.
- Bridge and BridgeAsWritten go on consuming statuses when the follower cannot be created (`ok == false`). In Go, the send on the unbuffered `errs` channel at `launcher/emitter.go:51` has no reader, so the goroutine blocks for good at the first failed STARTED.
- Launch (Background.TaskManager) queues without bound. `launcher/background.go:170` and `176` use an unbuffered channel, so in Go the call waits until a worker takes the task.
- RunTask: a task that cannot start is modelled as blocked for good. The refused start is sent on `errc`, which is unbuffered (`launcher/runner.go:101`) and never read by `CommandRunner`, so the send at line 137 never completes. The goroutine's own send of a command error blocks the same way, after the status is set.
- LaunchedForPush: takes the task to be a `GitHubAwareTask`, so the authors are always set (`api/api.go:353`). The interface also demands `SetGitManager` and `GetOut` (`launcher/task.go:28`, `:38`), which `launcher/runshtask.go` does not define.
- GetFullRepoName: the unescaped `.` of the loose pattern matches any character here; Go's `.` does not match a newline.
- ParseBefore: whether `time.Parse(time.RFC1123, …)` accepts the text is the parameter `dateParses`; the parsed time itself is not computed.
- CleanupBranches: the cut-off time is not passed on; each repository's cleanup status and error are parameters (`results`).
- SwitchTo: requires a chosen remote whenever the repository is open and remotes are listed. In Go a nil `b.remote` is dereferenced at `git/manager.go:345` and panics; `initRemotes` always sets one in that case.
- Launch (TaskManagerModel.TaskManagerImpl) queues without bound. The per-key channel made at `launcher/taskmanager.go:213` has the configured `QueueLengthKey` capacity, and the send at line 218 blocks once it is full.
- Launch (WtfTaskManagerModel.WtfTaskManagerImpl) queues without bound. The channel made at `launcher/wtfTaskManager.go:194` has the configured `QueueLengthKey` capacity, and the send at line 202 blocks once it is full.
- Close (Background.TaskManager, TaskManagerModel.TaskManagerImpl, WtfTaskManagerModel.WtfTaskManagerImpl) requires a manager not yet stopped. In Go a second `close(tm.stop)` panics, and the second pass over `tm.cancel` would call the nil functions the first one stored. Close also requires every stored cancel function to be non-nil, which fails once any task has run (see the line on nil cancel functions above).
- DeleteManagerAsWritten takes a manager, never nil. Go's `manager.GetPath()` on a nil manager panics at `git/multimanager.go:59`.
- `misc.TaskPrefix` is not defined in the files modelled; it is taken to be `TASKPREFIX`, "tfci-", from `misc/consts.go:18`.
- ExtractRepoName: the lazy `(.*?)` here matches any character; Go's does not match a newline.

## Findings

| source | as written | input that shows it | evidently intended | confidence | as-written member | corrected member |
|---|---|---|---|---|---|---|
| git/utils.go:17 | the https pattern ends in an unescaped, unanchored `.git`, so any later "git" ends the name | "https://github.com/wix-system/git-tools" gives "wix-system" | the name "wix-system/git-tools"; ".git" only as the suffix | not executed | GitUtils.LooseEndingTruncatesName | GitUtils.AnchoredEndingKeepsName |
| launcher/runshtask.go:559 | the context variables are asserted to be `map[string]string`, but `submitCommand` stores a `*map[string]string` (api/api.go:474) | any task posted with variables: TFRESDIF_NOPB never reaches the process | the posted variables are in the process environment | not executed | RunShTaskModel.PointerContextDropped | RunShTaskModel.ContextVars |
| launcher/taskmanager.go:179 | the sequence file is opened without truncation | stored "abc", then id 1 written, leaves "1bc", which reads as 0, so id 1 is issued again | the file holds only the number written | not executed | TaskManagerModel.UntruncatedWriteRepeatsIds | TaskManagerModel.TruncatedWriteIncreasesIds |
| api/branch_delete_api.go:42-56 | `SetRepoBranchStatus` writes into the repository's entry before it exists | the first deletion report of a fresh `DeleteResponse` | the entry is created on first use | not executed | BranchDeleteApi.FirstReportPanics | BranchDeleteApi.DeleteResponse.SetRepoBranchStatus |
| git/multimanager.go:65 | the list after a delete is `managers[:i]` plus only `managers[i+1]`, and deleting the last element indexes past the end | deleting the first of managers a, b, c leaves the list [b] | every other manager is kept: [b, c] | not executed | MultiManager.DeleteFirstOfThree | MultiManager.MultiRepoManager.DeleteManager |
| git/multimanager.go:47 | re-adding a listed remote writes the new manager into the backing array at i+1; the loop visits it there, matches again, and finally indexes `managers[i+1]` past the end | re-adding the manager of any listed remote panics | a mapped remote that is listed has its entry replaced by the new manager, moved to the end; the list is left alone otherwise, since no code path lists a new remote | not executed | MultiManager.AddListedPanics | MultiManager.MultiRepoManager.AddManager |
| launcher/emitter.go:50 | `follower, err :=` declares a new follower inside the loop, so the outer one stays nil and `Stop` is never called | statuses STARTED then DONE (Emitter.StartedThenDone) | the started follower is stopped on a terminal status | not executed | Emitter.BridgeAsWritten | Emitter.Bridge |
