# StemRoller processing queue, modelled in Dafny

This project models the job-queue orchestrator of StemRoller (`main-src/processQueue.cjs`).
StemRoller takes a user-ordered list of videos, either YouTube videos or local audio files.
For the head of the list it runs a pipeline:

- download the video (YouTube only);
- separate it into stems with Demucs;
- mix an instrumental track with ffmpeg;
- copy the results to an output folder.

It reports each video's status through a callback and keeps the finished videos in a persistent store.

The module-level state of the source is the class `ProcessQueue.Queue`. Its fields are:

- `curItems`;
- `videosDb`;
- a flag for each of the two interruptible handles, `curChildProcess` and `curYtdlAbortController`;
- the electron-store settings;
- the persisted `videosDb` snapshot;
- a log of the status and donate callbacks;
- a log of the aborts and tree-kills;
- a log of the spawned commands;
- a counter of `setTimeout` starts that have not fired yet.

Each method of the class states its new state as a pure transition applied to the old state, through the ghost function `Model()`. The lemmas are about those transitions:

- `QueueState` holds the status store and `setItems`.
- `PipelineSpec` holds `processVideo`/`_processVideo`.
- `Helpers` and `StatusStore` hold the pure helpers.

`processVideo` suspends at its `await`s, so the model treats it as a step machine. `ProcessQueue.Queue.ProcessVideo` runs a pipeline from the moment `mkdtemp` has settled up to the next await; `FireStartTimer` is a timer firing followed at once by that. Each of `DownloadFinished`, `ChildProcessExited`, `OutputDirListed`, `PublishFinished` and `CleanupFinished` says what the module does when the awaited operation settles, with its outcome as a parameter. Any other call may come between two of these steps, which is how a run meets `setItems` or `deleteVideoStatusAndPath`. Two steps are coarser than the source's awaits, as the section "Left out" below says: the timer firing together with `mkdtemp`, and the whole publishing stage. `PipelineSpec.RunSpec` composes the steps of one run with nothing in between. `PipelineSpec.Continue` composes the rest of a run.

Behaviour of the code that the model follows:

- **Stem check.** `ensureDemucsPathsExist` calls the async `ensureFileExists` without `await`, so its check never fails. The "Demucs probably failed" branch can never run, and ffmpeg is spawned as soon as Demucs wrote an output directory.
- **Exit codes.** The exit code of Demucs and ffmpeg is never inspected. Only a signal, or a spawn `error` event, fails a stage (`PipelineSpec.ExitOk`).
- **Interrupted runs.** How a tree-killed process exits is not decided by this code, so the model takes the exit as a parameter. When the killed process exits on a signal, the catch sees the status still set and the run is recorded as `error` (`PipelineSpec.InterruptedRunIsRecordedAsError`). An exit with only a code lets the run go on to listing and publishing, and it can end `done` (`PipelineSpec.InterruptedRunExitingWithCodeGoesOn`). A failing run whose status was cleared first writes nothing about the video, at any stage (`PipelineSpec.ClearedCatchSendsNothing`, `PipelineSpec.CancelledRunStaysCleared`).
- **Repeated starts.** Every head change to a non-empty queue schedules one more `processVideo(curItems[0])`, and each timer reads the queue only when it fires (`QueueState.HeadFlipsStackStarts`).
- **Concurrent runs.** A head change while a run lists the Demucs output or publishes kills nothing, because those stages hold no handle. The new head's run then starts while the first one goes on, and the first run's ffmpeg spawn aborts the second run's download (`PipelineSpec.HeadChangeWhileListingStartsSecondRun`).
- **Donate request.** The donate callback fires on every save once three videos are `done` and the popup is not switched off, not only the first time (`QueueState.DonateOnEveryQualifyingSave`).

## Model

| member | source | states |
|---|---|---|
| Helpers.JobCount | main-src/processQueue.cjs:76-81 | the job count is between 1 and 4; above 1 it fits both the CPU count and the free memory at 2 GB per job; below 4 one of those two is the limit |
| Helpers.JobCountWithinResources | main-src/processQueue.cjs:76-81 | with at least one CPU and 2 GB free, the job count is at most the CPU count and at most the number of 2 GB blocks free |
| Helpers.ClassifyExit | main-src/processQueue.cjs:123-128 | an exit fails exactly when a signal is present, with the message naming the signal; otherwise it resolves with the exit code, whatever it is |
| Helpers.FirstDirectory | main-src/processQueue.cjs:151-155 | gives the index of a directory entry with no directory before it, or none exactly when no entry is a directory |
| Helpers.FindDemucsOutputDir | main-src/processQueue.cjs:147-157 | fails exactly when no entry is a directory; on success returns the base path joined with the name of a directory entry, the first one |
| Helpers.DemucsArgsRoundTrip | main-src/processQueue.cjs:202-209 | the Demucs command line carries the media path, the model `htdemucs_ft` and the job count; it carries `-d cpu` exactly when the backend is `cpu`, and `--repo` with the models path exactly when one is bundled |
| Helpers.IndexOfFrom | main-src/processQueue.cjs:491 | `indexOf` from a position: -1 exactly when the pattern occurs nowhere from there, otherwise the first position where it occurs |
| Helpers.HasTmpPrefixIsPrefix | main-src/processQueue.cjs:491 | `indexOf(TMP_PREFIX) === 0` holds exactly when the name starts with `StemRoller-` |
| Helpers.WorkspacesAreSwept | main-src/processQueue.cjs:284 | every workspace `mkdtemp` creates from the prefix is matched by the startup sweep |
| Helpers.SweepTargets | main-src/processQueue.cjs:487-505 | the sweep removes exactly the names starting with `StemRoller-`, in listing order |
| Helpers.OutputPath | main-src/processQueue.cjs:409-417 | the output path is never empty: the stored `outputPath` when truthy, else `~/Music/StemRoller` |
| Helpers.PyTorchBackend | main-src/processQueue.cjs:423-431 | the backend is never empty: the stored `pyTorchBackend` when truthy, else `auto` |
| StatusStore.StatusOf | main-src/processQueue.cjs:437-443 | null exactly for an unknown id, otherwise the recorded status |
| StatusStore.PathOf | main-src/processQueue.cjs:445-451 | null for an unknown id, otherwise the recorded path |
| StatusStore.DoneOnly | main-src/processQueue.cjs:376-381 | holds exactly the entries whose status is `done`, with their values |
| StatusStore.FinishedSnapshot | main-src/processQueue.cjs:374-381 | the loop collects exactly the `done` entries, and its counter equals their number |
| StatusStore.PruneMissing | main-src/processQueue.cjs:350-371 | the loaded store keeps exactly the stored entries whose path exists, unchanged; a missing store gives an empty one |
| StatusStore.RestartKnowsOnlyFinished | main-src/processQueue.cjs:350-389 | after a restart, the videos known are exactly those that were `done` and whose output path still exists |
| QueueState.SaveSnapshot | main-src/processQueue.cjs:373-389 | after a save, the persisted snapshot is exactly the `done` part of the store; the donate callback fires exactly when that part has at least 3 entries and the popup is not switched off; nothing else changes |
| QueueState.DonateOnEveryQualifyingSave | main-src/processQueue.cjs:384-388 | once 3 videos are done, every save that does not un-finish one fires the donate callback again |
| QueueState.SetStatusAndPathEffect | main-src/processQueue.cjs:391-402 | afterwards the id reads the new status and path; every other id reads as before; the snapshot is the `done` part; the status callback gets exactly one payload, `{id, status, path}` |
| QueueState.SetStatusAndPathDb | main-src/processQueue.cjs:391-396 | the write sets the id's status and path, leaves every other id alone, re-saves the `done` snapshot and changes nothing else |
| QueueState.SetStatusAndPathEvents | main-src/processQueue.cjs:391-402 | the write appends a donate check and then exactly one status payload, `{id, status, path}`; the donate callback fires exactly when the new `done` count is at least 3 and the popup is allowed |
| QueueState.SetStatusAndPathUpdatesFor | main-src/processQueue.cjs:391-402 | the payloads about any id grow by exactly the new one when it is that id, and by nothing otherwise |
| QueueState.DeleteStatusAndPathEffect | main-src/processQueue.cjs:453-468 | an unknown id changes nothing; a known id is removed, so it reads null, the snapshot is re-saved, and exactly one payload with null status and path is sent |
| QueueState.DeleteStatusAndPathUpdatesFor | main-src/processQueue.cjs:453-468 | the payloads about the id grow by the clearing payload exactly when the id was known |
| QueueState.NewIdsFacts | main-src/processQueue.cjs:324-331 | the ids that `setItems` registers are exactly the unknown ids among the items, each once |
| QueueState.RegisterAllFrame | main-src/processQueue.cjs:324-331 | the filter callbacks change neither the queue, nor the handles, the settings, the kills, the spawns or the pending starts |
| QueueState.RegisterAllDb | main-src/processQueue.cjs:324-331 | the filter callbacks add a `queued` entry with a null path for each new id and leave every known entry as it was |
| QueueState.RegisterAllKeepsDone | main-src/processQueue.cjs:324-331 | registering leaves the `done` part of the store unchanged |
| QueueState.RegisterAllPersisted | main-src/processQueue.cjs:324-331 | the snapshot is re-saved when anything was registered and is otherwise untouched |
| QueueState.RegisterAllEvents | main-src/processQueue.cjs:324-331 | per new id, one donate check and then one `queued` payload are sent, in item order |
| QueueState.RegistrationUpdates | main-src/processQueue.cjs:324-331 | the status payloads of the registration are exactly one `queued` payload per new id |
| QueueState.RegistrationSkipsKnown | main-src/processQueue.cjs:324-331 | the registration sends nothing about an id it does not register |
| QueueState.SetItemsFiltersQueue | main-src/processQueue.cjs:323-337 | the new queue holds exactly the items not recorded as `done`/`error`, as an order-preserving subsequence, and none of them is `done`/`error` afterwards |
| QueueState.SetItemsRegisters | main-src/processQueue.cjs:324-331 | every unknown id of the items becomes `queued` with a null path and gets one payload; known entries are unchanged; no other payload is sent |
| QueueState.SetItemsInterrupts | main-src/processQueue.cjs:333-344 | it interrupts exactly when the head id changes, with null for an empty queue; on an interrupt both handles are cleared, each live one killed, and one start scheduled exactly when the queue is non-empty; otherwise handles, kills and starts are unchanged |
| QueueState.SetItemsSkipsKnown | main-src/processQueue.cjs:324-331 | nothing is sent about an id that is already known or not listed, and its entry is unchanged |
| QueueState.SetItemsDropsTerminal | main-src/processQueue.cjs:324-331 | a video recorded as `done`/`error` is not in the new queue |
| QueueState.SetItemsSingle | main-src/processQueue.cjs:323-345 | a one-item queue of an unfinished video keeps it, as unfinished, and touches no other id |
| QueueState.HeadFlipsStackStarts | main-src/processQueue.cjs:338-343 | flipping the head from empty to `a`, `b` and back to `a` leaves three starts pending |
| PipelineSpec.CatchEffect | main-src/processQueue.cjs:287-295 | with a cleared status the catch writes nothing, which is a cancellation; otherwise the video becomes `error` with a null path and exactly that payload is sent; the queue and handles are untouched |
| PipelineSpec.StartSeparationEffect | main-src/processQueue.cjs:197-210 | starting Demucs sends `processing` and spawns exactly the Demucs command, leaving the queue alone |
| PipelineSpec.BeginDownloading | main-src/processQueue.cjs:181 | every run first sends `downloading` about its video |
| PipelineSpec.BeginRunFrame | main-src/processQueue.cjs:178-197 | `_processVideo` up to its first await leaves the queue, the settings and the pending starts alone and records the video; a YouTube run then awaits the download, a local run awaits Demucs, and an unsupported source is already recorded as `error` and goes to the cleanup |
| PipelineSpec.BeginRunUpdatesLocal | main-src/processQueue.cjs:181-197 | a local file goes `downloading`, then `processing` at once |
| PipelineSpec.BeginRunUpdatesUnsupported | main-src/processQueue.cjs:191-195 | an unsupported source goes `downloading`, then `error` |
| PipelineSpec.BeginRunUpdates | main-src/processQueue.cjs:178-197 | up to its first await a run sends exactly `downloading`, then `processing` for a local file or `error` for an unsupported source |
| PipelineSpec.FireStartTimerWithoutRun | main-src/processQueue.cjs:284-286 | a timer that fires on an empty queue, or whose `mkdtemp` fails, writes nothing and only uses up the pending start |
| PipelineSpec.FireStartTimerStartsHead | main-src/processQueue.cjs:340-343 | a firing timer processes the head of the queue as it is when it fires |
| PipelineSpec.CatchThenCleanup | main-src/processQueue.cjs:287-308 | a failing stage of a still-known video records `error` with a null path, sends exactly that payload, and the cleanup takes the video out of the queue |
| PipelineSpec.CleanupDropsRun | main-src/processQueue.cjs:307-308 | the final `setItems(curItems)` drops the finished video from the queue and sends nothing about it |
| PipelineSpec.FromPublishing | main-src/processQueue.cjs:240-270 | publishing ends in `done` with the output folder, or in `error`; the video then leaves the queue |
| PipelineSpec.FromMixing | main-src/processQueue.cjs:229-270 | from ffmpeg on, the run gives `done` exactly when ffmpeg ends without a signal and publishing succeeds, else `error` |
| PipelineSpec.FromLocating | main-src/processQueue.cjs:212-270 | from the listing on, the run also needs a directory among the Demucs outputs |
| PipelineSpec.FromSeparating | main-src/processQueue.cjs:210-270 | from Demucs on, the run gives `done` exactly when every later stage succeeds, and one final payload |
| PipelineSpec.FromFetching | main-src/processQueue.cjs:185-270 | from the download on, the run sends `processing` once the download succeeds, then the final payload |
| PipelineSpec.RunOutcome | main-src/processQueue.cjs:178-321 | a run with nothing between its steps sends `downloading`, then `processing` once Demucs starts, then `done` with the output folder if every stage succeeds or `error` as soon as one fails, and nothing else about the video; it ends recorded that way and out of the queue |
| PipelineSpec.RunOutcomeYouTube | main-src/processQueue.cjs:178-321 | a YouTube run sends `downloading`, then `processing` exactly when the download succeeds, then its final payload; `done` needs the download and every later stage |
| PipelineSpec.RunOutcomeLocal | main-src/processQueue.cjs:178-321 | a local run sends `downloading` and `processing` at once, then `done` when every stage from Demucs on succeeds, else `error` |
| PipelineSpec.RunOutcomeUnsupported | main-src/processQueue.cjs:191-195 | an unsupported source fails whatever the outcomes: `downloading`, then `error`, and the video leaves the queue |
| PipelineSpec.UnsupportedRunFails | main-src/processQueue.cjs:191-195 | an unsupported source sends exactly `downloading` and `error`, is recorded as `error` and is out of the queue (the step `RunOutcomeUnsupported` is proved from) |
| PipelineSpec.SuccessfulSeparationSpawns | main-src/processQueue.cjs:210-239 | from Demucs on, a successful run spawns only the ffmpeg mix of the first output directory |
| PipelineSpec.SuccessfulRunSpawns | main-src/processQueue.cjs:202-239 | a successful run spawns Demucs on the media file, then ffmpeg on its stems, and nothing else |
| PipelineSpec.YouTubeRunSpawns | main-src/processQueue.cjs:185-239 | a successful YouTube run spawns Demucs on the download in the workspace, then ffmpeg on the stems, and nothing else |
| PipelineSpec.LocalRunSpawns | main-src/processQueue.cjs:191-239 | a successful local run spawns Demucs on the local file, then ffmpeg on the stems, and nothing else |
| PipelineSpec.HeadChangeWhileListingStartsSecondRun | main-src/processQueue.cjs:323-345 | a head change while the current run lists the Demucs output kills nothing and schedules one start; the timer starts the new head's download while the first run goes on to ffmpeg, whose spawn aborts that download |
| PipelineSpec.ClearedCatchSendsNothing | main-src/processQueue.cjs:290-308 | from any state in which a failing stage reaches the catch, with the video's status cleared and the video out of the queue, the catch and the final `setItems` send nothing about it, do not record it and do not queue it |
| PipelineSpec.ClearedRunFails | main-src/processQueue.cjs:290-308 | the Demucs case: for a cleared, dequeued video, a separation that exits on a signal and the final `setItems` send nothing about it and do not record it again |
| PipelineSpec.CancelledRunStaysCleared | main-src/processQueue.cjs:287-295 | clearing the status, dequeuing the video and killing Demucs ends the run with only the clearing payload sent, and the video neither recorded nor queued |
| PipelineSpec.InterruptedRunIsRecordedAsError | main-src/processQueue.cjs:333-339 | a head change kills the running Demucs, and the signal exit records the still-known video as `error` |
| PipelineSpec.InterruptedRunExitingWithCodeGoesOn | main-src/processQueue.cjs:123-130 | a head change tree-kills the running Demucs; when it exits with a code and no signal, the exit handler resolves, the run goes on to listing the output, and the video's entry and payloads are unchanged |
| ProcessQueue.Queue.constructor | main-src/processQueue.cjs:350-371 | `loadVideosDb`: the store and its snapshot are the pruned stored entries; the queue is empty and no handle is set |
| ProcessQueue.Queue.GetVideoStatus | main-src/processQueue.cjs:437-443 | null exactly for an unknown id, otherwise its status |
| ProcessQueue.Queue.GetVideoPath | main-src/processQueue.cjs:445-451 | null for an unknown id, otherwise its path |
| ProcessQueue.Queue.GetOutputPath | main-src/processQueue.cjs:409-417 | never empty: the stored path when truthy, else `~/Music/StemRoller` |
| ProcessQueue.Queue.GetPyTorchBackend | main-src/processQueue.cjs:423-431 | never empty: the stored backend when truthy, else `auto` |
| ProcessQueue.Queue.IsBusy | main-src/processQueue.cjs:470-477 | busy exactly when some queued item is `downloading` or `processing` |
| ProcessQueue.Queue.SetOutputPath | main-src/processQueue.cjs:419-421 | only the `outputPath` setting changes |
| ProcessQueue.Queue.SetPyTorchBackend | main-src/processQueue.cjs:433-435 | only the `pyTorchBackend` setting changes |
| ProcessQueue.Queue.KillCurChildProcess | main-src/processQueue.cjs:83-99 | aborts the download if one is live, then tree-kills the process if one is live, and clears both handles |
| ProcessQueue.Queue.SaveFinishedToVideosDb | main-src/processQueue.cjs:373-389 | the new state is a save of the old one |
| ProcessQueue.Queue.SetVideoStatusAndPath | main-src/processQueue.cjs:391-402 | the new state is the write, the save and the payload |
| ProcessQueue.Queue.DeleteVideoStatusAndPath | main-src/processQueue.cjs:453-468 | the new state is the removal, the save and the clearing payload, or the old state for an unknown id |
| ProcessQueue.Queue.SetItems | main-src/processQueue.cjs:323-345 | the filter loop and the head comparison give exactly the `setItems` transition, whose properties the `QueueState.SetItems*` lemmas state |
| ProcessQueue.Queue.FilterItems | main-src/processQueue.cjs:324-331 | the `filter` pass runs every callback in item order and keeps exactly the items not recorded as `done`/`error` when the pass began |
| ProcessQueue.Queue.FilterItem | main-src/processQueue.cjs:324-331 | one callback registers an unknown id as `queued` with a null path and keeps the item exactly when it is not `done`/`error` |
| ProcessQueue.Queue.SpawnAndWait | main-src/processQueue.cjs:101-108 | kills whatever is current, then the new process is current and logged |
| ProcessQueue.Queue.CatchFailure | main-src/processQueue.cjs:287-295 | the catch transition: cancellation or `error` |
| ProcessQueue.Queue.StartDemucs | main-src/processQueue.cjs:197-210 | `processing`, then the Demucs spawn with the job count, backend flag and models path |
| ProcessQueue.Queue.ProcessVideo | main-src/processQueue.cjs:273-286 | `processVideo` once `mkdtemp` has settled, up to the next await: nothing if `mkdtemp` failed, else `downloading` and then the download, the Demucs start or the catch |
| ProcessQueue.Queue.FireStartTimer | main-src/processQueue.cjs:342 | the timer runs `processVideo` on the current head; on an empty queue only the `finally` remains |
| ProcessQueue.Queue.DownloadFinished | main-src/processQueue.cjs:141-144 | on success the abort handle is dropped and Demucs starts on the download, else the catch |
| ProcessQueue.Queue.ChildProcessExited | main-src/processQueue.cjs:118-130 | the exit handler drops the process handle and fails only on a signal; the error handler fails and kills |
| ProcessQueue.Queue.OutputDirListed | main-src/processQueue.cjs:212-239 | with an output directory ffmpeg is spawned on its stems, otherwise the catch |
| ProcessQueue.Queue.PublishFinished | main-src/processQueue.cjs:240-270 | `done` with the output folder when the instrumental exists and the copies succeed, otherwise the catch |
| ProcessQueue.Queue.CleanupFinished | main-src/processQueue.cjs:296-308 | the `finally` ends with `setItems(curItems)` |

Some members state one case or one part of another member's contract, so that each proof stays small enough to check: `BeginRunUpdatesLocal` and `BeginRunUpdatesUnsupported` are cases of `BeginRunUpdates`; `RunOutcomeYouTube`, `RunOutcomeLocal` and `RunOutcomeUnsupported` are cases of `RunOutcome`, and `UnsupportedRunFails` is the step the unsupported case is proved from; `YouTubeRunSpawns` and `LocalRunSpawns` are cases of `SuccessfulRunSpawns`; `SetStatusAndPathEffect` is the conjunction of `SetStatusAndPathDb` and `SetStatusAndPathEvents`; `ClearedRunFails` is the Demucs case of `ClearedCatchSendsNothing`.

## Left out

- `powerSaveBlocker` acquire and release (lines 274-282 and 310-319): Electron calls whose failures are only logged.
- ytdl streaming, `createWriteStream` and `pipeline` (lines 134-145): the outcome of a download is a boolean parameter, and only the presence of the abort handle is modelled.
- `child_process.spawn`, the stdout/stderr logging and `treeKill` (lines 101-122): a spawn is a logged `Command`, a kill is a logged `TreeKill`, and how the process ends is an `Exit` parameter. `CHILD_PROCESS_ENV` (lines 62-72) is not modelled.
- The filesystem calls `mkdtemp`, `rm`, `mkdir`, `copyFile`, `readdir` and `access` are outcomes passed as parameters:
  - the workspace path, or none when `mkdtemp` fails;
  - the directory listing, or none when `readdir` fails;
  - one boolean for the instrumental check;
  - one boolean for `mkdir` together with the copies.
- `loadVideosDb`'s `exists` test is a predicate on paths.
- `ensureDemucsPathsExist` (lines 168-176): it never fails as written, so the model has no stem check.
- `setTimeout` (line 342) is a counter of pending starts. Both times and concurrency are not modelled.
- Interleavings between steps:
  - Any call may run between two steps of a run.
  - The lemmas cover the run with nothing in between, a cancellation and an interruption.
  - No lemma quantifies over arbitrary interleavings.
- `sanitizeFilename` (line 247) is not modelled. The sanitised folder name is a parameter.
- `getPathToThirdPartyApps` and `getPathToModels` (lines 18-50) are inputs, as `Env.thirdPartyApps` and `Env.modelsPath`. `os.homedir`, `os.freemem` and the CPU count are inputs too. `PATH_TO_DEMUCS` and `PATH_TO_FFMPEG` only feed the child environment, which is not modelled.
- `path.join` is concatenation with `/`, without normalisation.
- `Date.now`, the `console` output and the floating-point `elapsedSeconds` (lines 179 and 264) are not modelled.
- `registerStatusUpdateCallback` and `registerDonateUpdateCallback` (lines 479-485) are not modelled. The callbacks are assumed registered, and each call is an entry in the event log.
- Calls made before `setElectronStore` (lines 404-407) are not modelled. The electron store always exists in this model.
- `loadVideosDb` is asynchronous, and calls that interleave with its `await`s are not modelled. The constructor is the whole load.
- `deleteVideoStatusAndPath` nulls the fields of the entry in place before deleting it (lines 455-458). The deleted entry is no longer reachable, so the model only removes it. The payload carries null status and null path.
- The filter of `setItems` reads each item's status from the store as updated by the earlier callbacks. The contract compares against the old store. The two agree, because a newly registered id is `queued` and so is kept.
- At most one active job at a time is not stated. The code does not guarantee it: a head change while a run lists its output or publishes does not interrupt that run, and the new head's run starts beside it (`PipelineSpec.HeadChangeWhileListingStartsSecondRun`).
- ProcessQueue.Queue.FireStartTimer: the timer reading `curItems[0]` (line 342) and `mkdtemp` settling (line 284) are one step. Nothing can run between them in the model, so it cannot reach the state where `setItems` or `deleteVideoStatusAndPath` runs in that gap and line 181 then writes `downloading` for a video that has left the queue or whose entry was cleared.
- ProcessQueue.Queue.PublishFinished: the instrumental check, `mkdir` and the five copies (lines 240, 249, 260 and 262) are one step, and `getOutputPath` is read when that step ends rather than at line 248. Calls that interleave with those awaits, such as `deleteVideoStatusAndPath` before the final write or `setOutputPath` between line 248 and the write, are not modelled.
- Ids that are `Object.prototype` names: `videosDb` is a plain object, so `videoId in videosDb` (lines 438, 446 and 454) is also true for names such as `constructor` or `toString`. For those, `getVideoStatus` returns `undefined`, `setItems` neither registers nor drops the item, and `deleteVideoStatusAndPath` acts on a prototype property. The model's store is a map and holds only the ids written to it.
- `canShowDonatePopup` is read from the electron store on every save (line 384), and another part of the application may change it. The model fixes it in the settings when the `Queue` is constructed, so an opt-out made during a session is not represented.
