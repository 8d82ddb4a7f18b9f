/**
 * The module state of `processQueue.cjs` as one object: the queue
 * (`curItems`), the status store (`videosDb`), the two handles through which
 * a run can be interrupted, the settings kept in the electron store, the
 * persisted 'videosDb' key, and logs of the callbacks fired, the kills
 * issued, the processes spawned and the starts scheduled with `setTimeout`.
 * Every method is tied to a transition of `QueueState` or `PipelineSpec`
 * through `Model()`, where the lemmas about those transitions apply.
 */
module ProcessQueue {
  import opened Wrappers
  import opened Types
  import opened Seqs
  import opened Helpers
  import opened StatusStore
  import opened QueueState
  import opened PipelineSpec

  class Queue {
    var curItems: seq<Item>
    var videosDb: map<string, Entry>
    var curChildProcess: bool          // a spawned process is current
    var curYtdlAbortController: bool   // a download can be aborted
    var settings: Settings             // 'outputPath', 'pyTorchBackend', 'canShowDonatePopup'
    var persisted: map<string, Entry>  // the electron store's 'videosDb'
    var events: seq<Event>             // status and donate callbacks, in order
    var interrupts: seq<Interrupt>     // aborts and tree-kills, in order
    var spawned: seq<Command>          // processes spawned, in order
    var pendingStarts: nat             // `setTimeout(() => processVideo(curItems[0]))` not yet fired
    const env: Env

    ghost function Model(): State
      reads this
    {
      State(curItems, videosDb, curChildProcess, curYtdlAbortController, settings, persisted,
            events, interrupts, spawned, pendingStarts)
    }

    /**
     * `setElectronStore` with the module freshly loaded: `loadVideosDb`
     * keeps the stored entries whose path exists and writes them back.
     */
    constructor(env: Env, settings: Settings, stored: Option<map<string, Entry>>, onDisk: string -> bool)
      ensures this.env == env
      ensures Model() == State([], Pruned(stored, onDisk), false, false, settings, Pruned(stored, onDisk),
                               [], [], [], 0)
    {
      this.env := env;
      this.settings := settings;
      curItems := [];
      curChildProcess := false;
      curYtdlAbortController := false;
      events := [];
      interrupts := [];
      spawned := [];
      pendingStarts := 0;
      videosDb := map[];
      persisted := map[];
      new;
      var filtered := PruneMissing(stored, onDisk);
      videosDb := filtered;
      persisted := filtered;
    }

    /** `getVideoStatus`: null for an unknown id. */
    function GetVideoStatus(videoId: string): (r: Option<Status>)
      reads this
      ensures r.None? <==> videoId !in videosDb
      ensures r.Some? ==> r.value == videosDb[videoId].status
    {
      StatusOf(videosDb, videoId)
    }

    /** `getVideoPath`: null for an unknown id. */
    function GetVideoPath(videoId: string): (r: Option<string>)
      reads this
      ensures videoId !in videosDb ==> r.None?
      ensures videoId in videosDb ==> r == videosDb[videoId].path
    {
      PathOf(videosDb, videoId)
    }

    /** `getOutputPath`. */
    function GetOutputPath(): (r: string)
      reads this
      ensures r != ""
      ensures Truthy(settings.outputPath) ==> r == settings.outputPath.value
      ensures !Truthy(settings.outputPath) ==> r == Join(Join(env.home, "Music"), "StemRoller")
    {
      OutputPath(Some(settings), env.home)
    }

    /** `getPyTorchBackend`. */
    function GetPyTorchBackend(): (r: string)
      reads this
      ensures r != ""
      ensures Truthy(settings.pyTorchBackend) ==> r == settings.pyTorchBackend.value
      ensures !Truthy(settings.pyTorchBackend) ==> r == "auto"
    {
      PyTorchBackend(Some(settings))
    }

    /** `isBusy`: some queued item is downloading or processing. */
    function IsBusy(): (r: bool)
      reads this
      ensures r <==> exists i :: 0 <= i < |curItems| && IsActiveIn(videosDb, curItems[i].videoId)
    {
      var db := videosDb;
      var active := (x: Item) => IsActiveIn(db, x.videoId);
      FilterNonEmpty(curItems, active);
      |Filter(curItems, active)| > 0
    }

    /** `setOutputPath`. */
    method SetOutputPath(outputPath: Option<string>)
      modifies this
      ensures Model() == old(Model()).(settings := old(settings).(outputPath := outputPath))
    {
      settings := settings.(outputPath := outputPath);
    }

    /** `setPyTorchBackend`. */
    method SetPyTorchBackend(backend: Option<string>)
      modifies this
      ensures Model() == old(Model()).(settings := old(settings).(pyTorchBackend := backend))
    {
      settings := settings.(pyTorchBackend := backend);
    }

    /** `killCurChildProcess`. */
    method KillCurChildProcess()
      modifies this
      ensures Model() == Kill(old(Model()))
    {
      if curYtdlAbortController {
        interrupts := interrupts + [AbortDownload];
        curYtdlAbortController := false;
      }
      if curChildProcess {
        interrupts := interrupts + [TreeKill];
        curChildProcess := false;
      }
    }

    /** `saveFinishedToVideosDb`. */
    method SaveFinishedToVideosDb()
      modifies this
      ensures Model() == Save(old(Model()))
    {
      var filtered, numFinished := FinishedSnapshot(videosDb);
      persisted := filtered;
      if numFinished >= DONATE_THRESHOLD && DonateAllowed(settings.canShowDonatePopup) {
        events := events + [DonateUpdate];
      }
    }

    /** `setVideoStatusAndPath`. */
    method SetVideoStatusAndPath(videoId: string, status: Status, path: Option<string>)
      modifies this
      ensures Model() == SetStatusAndPath(old(Model()), videoId, status, path)
    {
      videosDb := videosDb[videoId := Entry(status, path)];
      SaveFinishedToVideosDb();
      events := events + [StatusUpdate(videoId, Some(status), path)];
    }

    /** `deleteVideoStatusAndPath`. */
    method DeleteVideoStatusAndPath(videoId: string)
      modifies this
      ensures Model() == DeleteStatusAndPath(old(Model()), videoId)
    {
      if videoId in videosDb {
        videosDb := videosDb - {videoId};
        SaveFinishedToVideosDb();
        events := events + [StatusUpdate(videoId, None, None)];
      }
    }

    /**
     * `setItems`: the filter registers unknown ids as 'queued' and drops
     * finished items; a changed head interrupts and schedules a start.
     */
    method SetItems(items: seq<Item>)
      modifies this
      ensures Model() == SetItemsSpec(old(Model()), items)
    {
      ghost var st0 := Model();
      var kept := FilterItems(items);
      RegisterAllFrame(st0, items);
      var oldVideoId := HeadId(curItems);
      var newVideoId := HeadId(kept);
      curItems := kept;
      ghost var after := RegisterAll(st0, items).(items := kept);
      assert Model() == after;
      if oldVideoId != newVideoId {
        KillCurChildProcess();
        assert Model() == Kill(after);
        if |curItems| > 0 {
          pendingStarts := pendingStarts + 1;
        }
      }
    }

    /** `items.filter(...)` in `setItems`: every callback in order, keeping the unfinished items. */
    method FilterItems(items: seq<Item>) returns (kept: seq<Item>)
      modifies this
      ensures Model() == RegisterAll(old(Model()), items)
      ensures kept == Kept(old(videosDb), items)
    {
      ghost var st0 := Model();
      kept := [];
      var i := 0;
      while i < |items|
        invariant 0 <= i <= |items|
        invariant Model() == RegisterAll(st0, items[..i])
        invariant kept == Kept(st0.db, items[..i])
      {
        var video := items[i];
        RegisterStep(st0, items, i);
        var keep := FilterItem(video);
        if keep {
          kept := kept + [video];
        }
        i := i + 1;
      }
      assert items[..|items|] == items;
    }

    /**
     * The filter callback of `setItems` for one item: an unknown id is
     * registered as 'queued'; the item stays unless it is finished.
     */
    method FilterItem(video: Item) returns (keep: bool)
      modifies this
      ensures Model() == RegisterOne(old(Model()), video)
      ensures keep <==> !IsTerminalIn(old(videosDb), video.videoId)
    {
      var status := GetVideoStatus(video.videoId);
      if status.None? {
        status := Some(Queued);
        SetVideoStatusAndPath(video.videoId, Queued, None);
      }
      keep := status.value != Done && status.value != Error;
    }

    /** The synchronous part of `spawnAndWait`. */
    method SpawnAndWait(cmd: Command)
      modifies this
      ensures Model() == Spawn(old(Model()), cmd)
    {
      KillCurChildProcess();
      curChildProcess := true;
      spawned := spawned + [cmd];
    }

    /** The `catch` of `processVideo`. */
    method CatchFailure(videoId: string)
      modifies this
      ensures Model() == Catch(old(Model()), videoId)
    {
      var status := GetVideoStatus(videoId);
      if status.Some? {
        SetVideoStatusAndPath(videoId, Error, None);
      }
    }

    /** Status 'processing', then Demucs on `mediaPath` with the job count the host allows. */
    method StartDemucs(host: Host, video: Item, tmpDir: string, mediaPath: string)
      modifies this
      ensures Model() == StartSeparation(old(Model()), env, host, video, tmpDir, mediaPath)
    {
      SetVideoStatusAndPath(video.videoId, Processing, None);
      var jobCount := JobCount(host.freeMem, host.cpus);
      var args := DemucsArgs(mediaPath, jobCount, GetPyTorchBackend(), env.modelsPath);
      SpawnAndWait(Command(tmpDir, DemucsExe(env), args));
    }

    /** `processVideo(video)` up to its first await, once `mkdtemp` settled. */
    method ProcessVideo(host: Host, video: Item, tmpDir: Option<string>) returns (run: Option<Run>)
      modifies this
      ensures var b := ProcessVideoSpec(old(Model()), env, host, video, tmpDir);
        Model() == b.state && run == b.run
    {
      if tmpDir.None? {
        return None;
      }
      var dir := tmpDir.value;
      SetVideoStatusAndPath(video.videoId, Downloading, None);
      match video.mediaSource
      case YouTube =>
        curYtdlAbortController := true;
        run := Some(Active(video, dir, Fetching));
      case Local(localInputPath) =>
        StartDemucs(host, video, dir, localInputPath);
        run := Some(Active(video, dir, Separating));
      case Unsupported(_) =>
        CatchFailure(video.videoId);
        run := Some(CleaningUp);
    }

    /** A start scheduled by `setItems` fires and processes the current head of the queue. */
    method FireStartTimer(host: Host, tmpDir: Option<string>) returns (run: Option<Run>)
      requires pendingStarts > 0
      modifies this
      ensures var b := FireStartTimerSpec(old(Model()), env, host, tmpDir);
        Model() == b.state && run == b.run
    {
      pendingStarts := pendingStarts - 1;
      ghost var fired := Model();
      assert fired == old(Model()).(pendingStarts := old(Model()).pendingStarts - 1);
      if |curItems| > 0 {
        assert FireStartTimerSpec(old(Model()), env, host, tmpDir) ==
          ProcessVideoSpec(fired, env, host, curItems[0], tmpDir);
        run := ProcessVideo(host, curItems[0], tmpDir);
      } else if tmpDir.None? {
        run := None;
      } else {
        run := Some(CleaningUp);
      }
    }

    /** The download of a YouTube run settled. */
    method DownloadFinished(host: Host, run: Run, ok: bool) returns (next: Run)
      requires run.Active? && run.stage == Fetching
      modifies this
      ensures var s := DownloadFinishedSpec(old(Model()), env, host, run, ok);
        Model() == s.state && next == s.run
    {
      if ok {
        curYtdlAbortController := false;
        StartDemucs(host, run.video, run.tmpDir, YtPath(run.tmpDir));
        next := Active(run.video, run.tmpDir, Separating);
      } else {
        CatchFailure(run.video.videoId);
        next := CleaningUp;
      }
    }

    /** The process a run awaits ended (its `exit` or `error` event). */
    method ChildProcessExited(run: Run, exit: Exit) returns (next: Run)
      requires run.Active? && (run.stage == Separating || run.stage == Mixing)
      modifies this
      ensures var s := ChildExitedSpec(old(Model()), run, exit);
        Model() == s.state && next == s.run
    {
      match exit
      case Exited(code, signal) =>
        curChildProcess := false;
        var outcome := ClassifyExit(code, signal);
        if outcome.Success? {
          next := Active(run.video, run.tmpDir, if run.stage == Separating then Locating else Publishing);
        } else {
          CatchFailure(run.video.videoId);
          next := CleaningUp;
        }
      case SpawnError =>
        KillCurChildProcess();
        CatchFailure(run.video.videoId);
        next := CleaningUp;
    }

    /** The listing of the Demucs output directory settled; `findDemucsOutputDir` picks the stems. */
    method OutputDirListed(run: Run, entries: Option<seq<DirEntry>>) returns (next: Run)
      requires run.Active? && run.stage == Locating
      modifies this
      ensures var s := OutputDirListedSpec(old(Model()), run, entries);
        Model() == s.state && next == s.run
    {
      if entries.None? {
        CatchFailure(run.video.videoId);
        return CleaningUp;
      }
      var found := FindDemucsOutputDir(SeparatedDir(run.tmpDir), entries.value);
      match found
      case Failure(_) =>
        CatchFailure(run.video.videoId);
        next := CleaningUp;
      case Success(stemsDir) =>
        SpawnAndWait(MixCommand(run.tmpDir, stemsDir));
        next := Active(run.video, run.tmpDir, Mixing);
    }

    /** The instrumental check, mkdir and copies settled. */
    method PublishFinished(run: Run, instrumentalExists: bool, folderName: string, copied: bool) returns (next: Run)
      requires run.Active? && run.stage == Publishing
      modifies this
      ensures var s := PublishFinishedSpec(old(Model()), env, run, instrumentalExists, folderName, copied);
        Model() == s.state && next == s.run
    {
      if instrumentalExists && copied {
        var outputBasePath := Join(GetOutputPath(), folderName);
        SetVideoStatusAndPath(run.video.videoId, Done, Some(outputBasePath));
      } else {
        CatchFailure(run.video.videoId);
      }
      next := CleaningUp;
    }

    /** The workspace removal in `finally` settled: `setItems(curItems)`. */
    method CleanupFinished()
      modifies this
      ensures Model() == CleanupFinishedSpec(old(Model()))
    {
      SetItems(curItems);
    }
  }
}
