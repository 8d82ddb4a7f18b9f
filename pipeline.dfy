/**
 * `processVideo` and `_processVideo` as a step machine. A run is suspended
 * at each `await` (download, child-process exit, directory listing, the
 * checks and copies of the publishing stage, the workspace removal in
 * `finally`); each step function says what the module does when that await
 * settles, with the awaited operation's outcome as a parameter. Between two
 * steps of a run any other call (setItems, deleteVideoStatusAndPath, a step
 * of another run) may happen. Two places are coarser than the source: the
 * timer firing and `mkdtemp` settling are one step, and the checks, mkdir and
 * copies of the publishing stage are one step.
 */
module PipelineSpec {
  import opened Wrappers
  import opened Types
  import opened Seqs
  import opened Helpers
  import opened StatusStore
  import opened QueueState

  /** Where an active run is suspended. */
  datatype Stage =
    | Fetching    // awaiting the ytdl download pipeline
    | Separating  // awaiting the exit of Demucs
    | Locating    // awaiting the listing of the Demucs output directory
    | Mixing      // awaiting the exit of ffmpeg
    | Publishing  // awaiting the instrumental check, mkdir and the five copies

  /** A run of `processVideo`: inside the `try`, or in the `finally` awaiting the workspace removal. */
  datatype Run = Active(video: Item, tmpDir: string, stage: Stage) | CleaningUp

  /** How a spawned process ended: its `exit` event, or its `error` event. */
  datatype Exit = Exited(code: Option<int>, signal: Option<string>) | SpawnError

  /** The state after a step and where the run is now. */
  datatype Step = Step(state: State, run: Run)

  /** The state after a run was started, and the run (none if `mkdtemp` failed). */
  datatype Begun = Begun(state: State, run: Option<Run>)

  function YtPath(tmpDir: string): string {
    Join(tmpDir, "yt-audio")
  }

  function SeparatedDir(tmpDir: string): string {
    Join(Join(tmpDir, "separated"), DEMUCS_MODEL_NAME)
  }

  function InstrumentalPath(tmpDir: string): string {
    Join(tmpDir, "instrumental.wav")
  }

  /** `path.join(getOutputPath(), sanitizeFilename(title + '-' + videoId))`, the name given. */
  function OutputBase(settings: Settings, env: Env, folderName: string): string {
    Join(OutputPath(Some(settings), env.home), folderName)
  }

  /** The Demucs command for a media file. */
  function DemucsCommand(st: State, env: Env, host: Host, tmpDir: string, mediaPath: string): Command {
    Command(tmpDir, DemucsExe(env),
            DemucsArgs(mediaPath, JobCount(host.freeMem, host.cpus), PyTorchBackend(Some(st.settings)), env.modelsPath))
  }

  /** The ffmpeg command that mixes the three non-vocal stems. */
  function MixCommand(tmpDir: string, stemsDir: string): Command {
    Command(tmpDir, FFMPEG_EXE_NAME,
            FfmpegArgs(Join(stemsDir, "bass.wav"), Join(stemsDir, "drums.wav"), Join(stemsDir, "other.wav"),
                       InstrumentalPath(tmpDir)))
  }

  /** The synchronous part of `spawnAndWait`: kill whatever is current, then spawn. */
  function Spawn(st: State, cmd: Command): State {
    var killed := Kill(st);
    killed.(childProcess := true, spawned := killed.spawned + [cmd])
  }

  /** The `catch` of `processVideo`: a cleared status means cancellation, otherwise 'error'. */
  function Catch(st: State, id: string): State {
    if StatusOf(st.db, id).None? then st else SetStatusAndPath(st, id, Error, None)
  }

  /** Status 'processing', then the Demucs spawn. */
  function StartSeparation(st: State, env: Env, host: Host, video: Item, tmpDir: string, mediaPath: string): State {
    var processing := SetStatusAndPath(st, video.videoId, Processing, None);
    Spawn(processing, DemucsCommand(processing, env, host, tmpDir, mediaPath))
  }

  /** `_processVideo` up to its first await. */
  function BeginRun(st: State, env: Env, host: Host, video: Item, tmpDir: string): Step {
    var downloading := SetStatusAndPath(st, video.videoId, Downloading, None);
    match video.mediaSource
    case YouTube => Step(downloading.(abortController := true), Active(video, tmpDir, Fetching))
    case Local(p) => Step(StartSeparation(downloading, env, host, video, tmpDir, p), Active(video, tmpDir, Separating))
    case Unsupported(_) => Step(Catch(downloading, video.videoId), CleaningUp)
  }

  /** `processVideo(video)` once `mkdtemp` settled (`None`: it failed, outside the `try`). */
  function ProcessVideoSpec(st: State, env: Env, host: Host, video: Item, tmpDir: Option<string>): Begun {
    if tmpDir.None? then Begun(st, None)
    else
      var b := BeginRun(st, env, host, video, tmpDir.value);
      Begun(b.state, Some(b.run))
  }

  /**
   * The timer set by `setItems` fires: `processVideo(curItems[0])` with the
   * queue as it is now. On an empty queue the video is undefined, the `try`
   * and the `catch` both throw, and only the `finally` runs.
   */
  function FireStartTimerSpec(st: State, env: Env, host: Host, tmpDir: Option<string>): Begun
    requires st.pendingStarts > 0
  {
    var fired := st.(pendingStarts := st.pendingStarts - 1);
    if |fired.items| > 0 then ProcessVideoSpec(fired, env, host, fired.items[0], tmpDir)
    else if tmpDir.None? then Begun(fired, None)
    else Begun(fired, Some(CleaningUp))
  }

  /** The ytdl pipeline settled: on success the controller is dropped and Demucs starts. */
  function DownloadFinishedSpec(st: State, env: Env, host: Host, run: Run, ok: bool): Step
    requires run.Active? && run.stage == Fetching
  {
    if ok then
      Step(StartSeparation(st.(abortController := false), env, host, run.video, run.tmpDir, YtPath(run.tmpDir)),
           Active(run.video, run.tmpDir, Separating))
    else Step(Catch(st, run.video.videoId), CleaningUp)
  }

  /**
   * Demucs or ffmpeg ended. `exit` drops the process handle and rejects only
   * on a signal (the exit code is not looked at); `error` rejects and kills.
   */
  function ChildExitedSpec(st: State, run: Run, exit: Exit): Step
    requires run.Active? && (run.stage == Separating || run.stage == Mixing)
  {
    match exit
    case Exited(code, signal) =>
      var exited := st.(childProcess := false);
      if ClassifyExit(code, signal).Success? then
        Step(exited, Active(run.video, run.tmpDir, if run.stage == Separating then Locating else Publishing))
      else Step(Catch(exited, run.video.videoId), CleaningUp)
    case SpawnError => Step(Catch(Kill(st), run.video.videoId), CleaningUp)
  }

  /**
   * The listing of the Demucs output directory settled (`None`: `readdir`
   * failed). The stem check that follows never fails as written, so with an
   * output directory ffmpeg is spawned at once.
   */
  function OutputDirListedSpec(st: State, run: Run, entries: Option<seq<DirEntry>>): Step
    requires run.Active? && run.stage == Locating
  {
    if entries.None? then Step(Catch(st, run.video.videoId), CleaningUp)
    else match DemucsOutputDir(SeparatedDir(run.tmpDir), entries.value)
      case Failure(_) => Step(Catch(st, run.video.videoId), CleaningUp)
      case Success(stemsDir) => Step(Spawn(st, MixCommand(run.tmpDir, stemsDir)), Active(run.video, run.tmpDir, Mixing))
  }

  /** The instrumental check, mkdir and copies settled: 'done' with the output folder, or the catch. */
  function PublishFinishedSpec(st: State, env: Env, run: Run, instrumentalExists: bool, folderName: string, copied: bool): Step
    requires run.Active? && run.stage == Publishing
  {
    if instrumentalExists && copied then
      Step(SetStatusAndPath(st, run.video.videoId, Done, Some(OutputBase(st.settings, env, folderName))), CleaningUp)
    else Step(Catch(st, run.video.videoId), CleaningUp)
  }

  /** The workspace removal in `finally` settled (its failure is only logged): `setItems(curItems)`. */
  function CleanupFinishedSpec(st: State): State {
    SetItemsSpec(st, st.items)
  }

  // ---------------------------------------------------------------------------
  // What a run guarantees

  /**
   * The `catch` of `processVideo`: when the status was cleared meanwhile it
   * is a cancellation and nothing is written; otherwise the status becomes
   * 'error' with a null path and the status callback gets that one payload.
   * The queue and the handles are not touched.
   */
  lemma CatchEffect(st: State, id: string)
    ensures StatusOf(st.db, id).None? ==> Catch(st, id) == st
    ensures StatusOf(st.db, id).Some? ==>
      && Catch(st, id).db == st.db[id := Entry(Error, None)]
      && UpdatesFor(id, Catch(st, id).events) == UpdatesFor(id, st.events) + [StatusUpdate(id, Some(Error), None)]
    ensures var r := Catch(st, id);
      && r.items == st.items && r.childProcess == st.childProcess && r.abortController == st.abortController
      && r.interrupts == st.interrupts && r.spawned == st.spawned && r.pendingStarts == st.pendingStarts
      && r.settings == st.settings
  {
    if StatusOf(st.db, id).Some? {
      SetStatusAndPathUpdatesFor(st, id, Error, None, id);
    }
  }

  // ---------------------------------------------------------------------------
  // A run with nothing interleaved

  /** How each await of a run settles. */
  datatype Outcomes = Outcomes(
    downloaded: bool,                 // the ytdl pipeline resolves
    demucs: Exit,                     // how Demucs ends
    listing: Option<seq<DirEntry>>,   // what `readdir` of the Demucs output gives
    mix: Exit,                        // how ffmpeg ends
    instrumentalExists: bool,         // `ensureFileExists(instrumental.wav)`
    folderName: string,               // `sanitizeFilename(title + '-' + videoId)`
    copied: bool)                     // `mkdir` and the five copies resolve

  function Rank(run: Run): nat {
    match run
    case CleaningUp => 0
    case Active(_, _, stage) =>
      match stage
      case Publishing => 1
      case Mixing => 2
      case Locating => 3
      case Separating => 4
      case Fetching => 5
  }

  /** The rest of a run, each await settling as `o` says, up to the end of its `finally`. */
  function Continue(st: State, env: Env, host: Host, run: Run, o: Outcomes): State
    decreases Rank(run)
  {
    match run
    case CleaningUp => CleanupFinishedSpec(st)
    case Active(_, _, stage) =>
      match stage
      case Fetching =>
        var n := DownloadFinishedSpec(st, env, host, run, o.downloaded);
        Continue(n.state, env, host, n.run, o)
      case Separating =>
        var n := ChildExitedSpec(st, run, o.demucs);
        Continue(n.state, env, host, n.run, o)
      case Locating =>
        var n := OutputDirListedSpec(st, run, o.listing);
        Continue(n.state, env, host, n.run, o)
      case Mixing =>
        var n := ChildExitedSpec(st, run, o.mix);
        Continue(n.state, env, host, n.run, o)
      case Publishing =>
        var n := PublishFinishedSpec(st, env, run, o.instrumentalExists, o.folderName, o.copied);
        Continue(n.state, env, host, n.run, o)
  }

  /** `processVideo(video)` from its start to the end of its `finally` (`tmpDir`: what `mkdtemp` gave). */
  function RunSpec(st: State, env: Env, host: Host, video: Item, tmpDir: string, o: Outcomes): State {
    var b := BeginRun(st, env, host, video, tmpDir);
    Continue(b.state, env, host, b.run, o)
  }

  /** A spawned process counts as successful when it exits without a signal, whatever its code. */
  predicate ExitOk(e: Exit) {
    e.Exited? && e.signal.None?
  }

  /** Every await from Demucs onwards settles well. */
  predicate SeparationSucceeds(o: Outcomes) {
    && ExitOk(o.demucs)
    && o.listing.Some? && (exists i :: 0 <= i < |o.listing.value| && o.listing.value[i].isDirectory)
    && ExitOk(o.mix)
    && o.instrumentalExists && o.copied
  }

  /** Every await of the run settles well. */
  predicate RunSucceeds(video: Item, o: Outcomes) {
    ReachesSeparation(video, o) && SeparationSucceeds(o)
  }

  /** Demucs is started for the video. */
  predicate ReachesSeparation(video: Item, o: Outcomes) {
    video.mediaSource.Local? || (video.mediaSource.YouTube? && o.downloaded)
  }

  /** What a run leaves recorded for its video: 'done' with the output folder, or 'error' with no path. */
  function FinalEntry(ok: bool, out: string): Entry {
    if ok then Entry(Done, Some(out)) else Entry(Error, None)
  }

  /** The status payload announcing an entry. */
  function Announce(id: string, e: Entry): Event {
    StatusUpdate(id, Some(e.status), e.path)
  }

  /** The final `setItems(curItems)`: the video, recorded as finished, leaves the queue. */
  lemma CleanupDropsRun(st: State, id: string)
    requires IsTerminalIn(st.db, id)
    ensures var r := CleanupFinishedSpec(st);
      && UpdatesFor(id, r.events) == UpdatesFor(id, st.events)
      && id in r.db && r.db[id] == st.db[id]
      && (forall x :: x in r.items ==> x.videoId != id)
  {
    SetItemsSkipsKnown(st, st.items, id);
    SetItemsDropsTerminal(st, st.items, id);
  }

  /** A stage that fails: the `catch` records 'error' and the cleanup drops the video from the queue. */
  lemma CatchThenCleanup(st: State, id: string)
    requires id in st.db
    ensures var r := CleanupFinishedSpec(Catch(st, id));
      && UpdatesFor(id, r.events) == UpdatesFor(id, st.events) + [Announce(id, Entry(Error, None))]
      && id in r.db && r.db[id] == Entry(Error, None)
      && (forall x :: x in r.items ==> x.videoId != id)
  {
    CatchEffect(st, id);
    CleanupDropsRun(Catch(st, id), id);
  }

  /** The publishing stage: 'done' with the output folder, or 'error'. */
  lemma {:induction false} FromPublishing(st: State, env: Env, host: Host, video: Item, tmpDir: string, o: Outcomes)
    requires video.videoId in st.db
    ensures var id := video.videoId; var r := Continue(st, env, host, Active(video, tmpDir, Publishing), o);
      var e := FinalEntry(o.instrumentalExists && o.copied, OutputBase(st.settings, env, o.folderName));
      && UpdatesFor(id, r.events) == UpdatesFor(id, st.events) + [Announce(id, e)]
      && id in r.db && r.db[id] == e
      && (forall x :: x in r.items ==> x.videoId != id)
  {
    var id := video.videoId;
    var run := Active(video, tmpDir, Publishing);
    var n := PublishFinishedSpec(st, env, run, o.instrumentalExists, o.folderName, o.copied);
    if o.instrumentalExists && o.copied {
      SetStatusAndPathUpdatesFor(st, id, Done, Some(OutputBase(st.settings, env, o.folderName)), id);
    } else {
      CatchEffect(st, id);
    }
    CleanupDropsRun(n.state, id);
  }

  /** The ffmpeg stage and after. */
  lemma {:induction false} FromMixing(st: State, env: Env, host: Host, video: Item, tmpDir: string, o: Outcomes)
    requires video.videoId in st.db
    ensures var id := video.videoId; var r := Continue(st, env, host, Active(video, tmpDir, Mixing), o);
      var e := FinalEntry(ExitOk(o.mix) && o.instrumentalExists && o.copied, OutputBase(st.settings, env, o.folderName));
      && UpdatesFor(id, r.events) == UpdatesFor(id, st.events) + [Announce(id, e)]
      && id in r.db && r.db[id] == e
      && (forall x :: x in r.items ==> x.videoId != id)
  {
    var id := video.videoId;
    var run := Active(video, tmpDir, Mixing);
    var n := ChildExitedSpec(st, run, o.mix);
    assert Continue(st, env, host, run, o) == Continue(n.state, env, host, n.run, o);
    if ExitOk(o.mix) {
      assert n == Step(st.(childProcess := false), Active(video, tmpDir, Publishing));
      assert n.state.db == st.db && n.state.events == st.events && n.state.settings == st.settings;
      FromPublishing(n.state, env, host, video, tmpDir, o);
    } else {
      var pre := if o.mix.Exited? then st.(childProcess := false) else Kill(st);
      assert n == Step(Catch(pre, id), CleaningUp);
      CatchThenCleanup(pre, id);
    }
  }

  /** The listing of the Demucs output and after. */
  lemma {:induction false} FromLocating(st: State, env: Env, host: Host, video: Item, tmpDir: string, o: Outcomes)
    requires video.videoId in st.db
    ensures var id := video.videoId; var r := Continue(st, env, host, Active(video, tmpDir, Locating), o);
      var listed := o.listing.Some? && (exists i :: 0 <= i < |o.listing.value| && o.listing.value[i].isDirectory);
      var e := FinalEntry(listed && ExitOk(o.mix) && o.instrumentalExists && o.copied,
                          OutputBase(st.settings, env, o.folderName));
      && UpdatesFor(id, r.events) == UpdatesFor(id, st.events) + [Announce(id, e)]
      && id in r.db && r.db[id] == e
      && (forall x :: x in r.items ==> x.videoId != id)
  {
    var id := video.videoId;
    var run := Active(video, tmpDir, Locating);
    var n := OutputDirListedSpec(st, run, o.listing);
    assert Continue(st, env, host, run, o) == Continue(n.state, env, host, n.run, o);
    if o.listing.Some? && FirstDirectory(o.listing.value).Some? {
      FromMixing(n.state, env, host, video, tmpDir, o);
    } else {
      assert n == Step(Catch(st, id), CleaningUp);
      CatchThenCleanup(st, id);
    }
  }

  /** Demucs running and after. */
  lemma {:induction false} FromSeparating(st: State, env: Env, host: Host, video: Item, tmpDir: string, o: Outcomes)
    requires video.videoId in st.db
    ensures var id := video.videoId; var r := Continue(st, env, host, Active(video, tmpDir, Separating), o);
      var e := FinalEntry(SeparationSucceeds(o), OutputBase(st.settings, env, o.folderName));
      && UpdatesFor(id, r.events) == UpdatesFor(id, st.events) + [Announce(id, e)]
      && id in r.db && r.db[id] == e
      && (forall x :: x in r.items ==> x.videoId != id)
  {
    var id := video.videoId;
    var run := Active(video, tmpDir, Separating);
    var n := ChildExitedSpec(st, run, o.demucs);
    assert Continue(st, env, host, run, o) == Continue(n.state, env, host, n.run, o);
    if ExitOk(o.demucs) {
      assert n == Step(st.(childProcess := false), Active(video, tmpDir, Locating));
      assert n.state.db == st.db && n.state.events == st.events && n.state.settings == st.settings;
      FromLocating(n.state, env, host, video, tmpDir, o);
      assert SeparationSucceeds(o) == (o.listing.Some? && (exists i :: 0 <= i < |o.listing.value| && o.listing.value[i].isDirectory)
                                       && ExitOk(o.mix) && o.instrumentalExists && o.copied);
    } else {
      var pre := if o.demucs.Exited? then st.(childProcess := false) else Kill(st);
      assert n == Step(Catch(pre, id), CleaningUp);
      assert pre.events == st.events && !SeparationSucceeds(o);
      CatchThenCleanup(pre, id);
    }
  }

  /** The download and after. */
  lemma {:induction false} FromFetching(st: State, env: Env, host: Host, video: Item, tmpDir: string, o: Outcomes)
    requires video.videoId in st.db
    ensures var id := video.videoId; var r := Continue(st, env, host, Active(video, tmpDir, Fetching), o);
      var e := FinalEntry(o.downloaded && SeparationSucceeds(o), OutputBase(st.settings, env, o.folderName));
      && UpdatesFor(id, r.events) == UpdatesFor(id, st.events)
           + (if o.downloaded then [StatusUpdate(id, Some(Processing), None)] else []) + [Announce(id, e)]
      && id in r.db && r.db[id] == e
      && (forall x :: x in r.items ==> x.videoId != id)
  {
    var id := video.videoId;
    var run := Active(video, tmpDir, Fetching);
    var n := DownloadFinishedSpec(st, env, host, run, o.downloaded);
    assert Continue(st, env, host, run, o) == Continue(n.state, env, host, n.run, o);
    if o.downloaded {
      var dropped := st.(abortController := false);
      SetStatusAndPathUpdatesFor(dropped, id, Processing, None, id);
      FromSeparating(n.state, env, host, video, tmpDir, o);
    } else {
      assert n == Step(Catch(st, id), CleaningUp);
      CatchThenCleanup(st, id);
    }
  }

  /**
   * A whole run with nothing interleaved: the status callback gets
   * 'downloading', then 'processing' once Demucs starts, then 'done' with
   * the output folder when every stage succeeds and 'error' as soon as one
   * fails (an unsupported source fails at once); nothing else about the
   * video. The video is recorded as that final entry and has left the
   * queue.
   */
  lemma RunOutcome(st: State, env: Env, host: Host, video: Item, tmpDir: string, o: Outcomes)
    ensures var id := video.videoId; var r := RunSpec(st, env, host, video, tmpDir, o);
      var e := FinalEntry(RunSucceeds(video, o), OutputBase(st.settings, env, o.folderName));
      && UpdatesFor(id, r.events) == UpdatesFor(id, st.events)
           + [StatusUpdate(id, Some(Downloading), None)]
           + (if ReachesSeparation(video, o) then [StatusUpdate(id, Some(Processing), None)] else [])
           + [Announce(id, e)]
      && id in r.db && r.db[id] == e
      && (forall x :: x in r.items ==> x.videoId != id)
  {
    if video.mediaSource.YouTube? {
      RunOutcomeYouTube(st, env, host, video, tmpDir, o);
    } else if video.mediaSource.Local? {
      RunOutcomeLocal(st, env, host, video, tmpDir, o);
    } else {
      RunOutcomeUnsupported(st, env, host, video, tmpDir, o);
    }
  }

  /** A YouTube run: fetching, then the same as a local run once the download is in. */
  lemma RunOutcomeYouTube(st: State, env: Env, host: Host, video: Item, tmpDir: string, o: Outcomes)
    requires video.mediaSource.YouTube?
    ensures var id := video.videoId; var r := RunSpec(st, env, host, video, tmpDir, o);
      var e := FinalEntry(RunSucceeds(video, o), OutputBase(st.settings, env, o.folderName));
      && UpdatesFor(id, r.events) == UpdatesFor(id, st.events)
           + [StatusUpdate(id, Some(Downloading), None)]
           + (if ReachesSeparation(video, o) then [StatusUpdate(id, Some(Processing), None)] else [])
           + [Announce(id, e)]
      && id in r.db && r.db[id] == e
      && (forall x :: x in r.items ==> x.videoId != id)
  {
    var b := BeginRun(st, env, host, video, tmpDir);
    BeginRunFrame(st, env, host, video, tmpDir);
    BeginRunUpdates(st, env, host, video, tmpDir);
    assert RunSpec(st, env, host, video, tmpDir, o) == Continue(b.state, env, host, Active(video, tmpDir, Fetching), o);
    FromFetching(b.state, env, host, video, tmpDir, o);
    assert ReachesSeparation(video, o) == o.downloaded;
    assert RunSucceeds(video, o) == (o.downloaded && SeparationSucceeds(o));
  }

  /** A local run: 'processing' at once, then Demucs and the later stages. */
  lemma RunOutcomeLocal(st: State, env: Env, host: Host, video: Item, tmpDir: string, o: Outcomes)
    requires video.mediaSource.Local?
    ensures var id := video.videoId; var r := RunSpec(st, env, host, video, tmpDir, o);
      var e := FinalEntry(RunSucceeds(video, o), OutputBase(st.settings, env, o.folderName));
      && UpdatesFor(id, r.events) == UpdatesFor(id, st.events)
           + [StatusUpdate(id, Some(Downloading), None)]
           + (if ReachesSeparation(video, o) then [StatusUpdate(id, Some(Processing), None)] else [])
           + [Announce(id, e)]
      && id in r.db && r.db[id] == e
      && (forall x :: x in r.items ==> x.videoId != id)
  {
    var b := BeginRun(st, env, host, video, tmpDir);
    BeginRunFrame(st, env, host, video, tmpDir);
    BeginRunUpdates(st, env, host, video, tmpDir);
    assert RunSpec(st, env, host, video, tmpDir, o) == Continue(b.state, env, host, Active(video, tmpDir, Separating), o);
    FromSeparating(b.state, env, host, video, tmpDir, o);
    var id := video.videoId;
    var a := UpdatesFor(id, st.events);
    var d := StatusUpdate(id, Some(Downloading), None);
    var p := StatusUpdate(id, Some(Processing), None);
    assert a + [d, p] == a + [d] + [p];
    assert ReachesSeparation(video, o) && RunSucceeds(video, o) == SeparationSucceeds(o);
  }

  /** An unsupported source: 'error' straight after 'downloading', and the cleanup drops it from the queue. */
  lemma RunOutcomeUnsupported(st: State, env: Env, host: Host, video: Item, tmpDir: string, o: Outcomes)
    requires video.mediaSource.Unsupported?
    ensures var id := video.videoId; var r := RunSpec(st, env, host, video, tmpDir, o);
      var e := FinalEntry(RunSucceeds(video, o), OutputBase(st.settings, env, o.folderName));
      && UpdatesFor(id, r.events) == UpdatesFor(id, st.events)
           + [StatusUpdate(id, Some(Downloading), None)]
           + (if ReachesSeparation(video, o) then [StatusUpdate(id, Some(Processing), None)] else [])
           + [Announce(id, e)]
      && id in r.db && r.db[id] == e
      && (forall x :: x in r.items ==> x.videoId != id)
  {
    var id := video.videoId;
    var a := UpdatesFor(id, st.events);
    assert !ReachesSeparation(video, o);
    assert FinalEntry(RunSucceeds(video, o), OutputBase(st.settings, env, o.folderName)) == Entry(Error, None);
    assert a + BeginUpdates(video) == a + [StatusUpdate(id, Some(Downloading), None)] + [] + [Announce(id, Entry(Error, None))];
    UnsupportedRunFails(st, env, host, video, tmpDir, o);
  }

  /** The run of an unsupported source, whatever the outcomes: the updates are those of `BeginUpdates`. */
  lemma UnsupportedRunFails(st: State, env: Env, host: Host, video: Item, tmpDir: string, o: Outcomes)
    requires video.mediaSource.Unsupported?
    ensures var id := video.videoId; var r := RunSpec(st, env, host, video, tmpDir, o);
      && UpdatesFor(id, r.events) == UpdatesFor(id, st.events) + BeginUpdates(video)
      && id in r.db && r.db[id] == Entry(Error, None)
      && (forall x :: x in r.items ==> x.videoId != id)
  {
    var id := video.videoId;
    var downloading := SetStatusAndPath(st, id, Downloading, None);
    assert id in downloading.db;
    BeginDownloading(st, id);
    RunSpecUnsupported(st, env, host, video, tmpDir, o);
    CatchThenCleanup(downloading, id);
    var a := UpdatesFor(id, st.events);
    var d, e := StatusUpdate(id, Some(Downloading), None), StatusUpdate(id, Some(Error), None);
    assert BeginUpdates(video) == [d, e];
    assert a + [d] + [e] == a + [d, e];
  }

  /** The file Demucs separates: the download for YouTube, the file itself for a local source. */
  function MediaPath(video: Item, tmpDir: string): string
    requires !video.mediaSource.Unsupported?
  {
    if video.mediaSource.YouTube? then YtPath(tmpDir) else video.mediaSource.localInputPath
  }

  /** From Demucs onwards a successful run spawns exactly the ffmpeg mix of the first output directory. */
  lemma SuccessfulSeparationSpawns(st: State, env: Env, host: Host, video: Item, tmpDir: string, o: Outcomes)
    requires SeparationSucceeds(o)
    ensures FirstDirectory(o.listing.value).Some?
    ensures Continue(st, env, host, Active(video, tmpDir, Separating), o).spawned == st.spawned
      + [MixCommand(tmpDir, Join(SeparatedDir(tmpDir), o.listing.value[FirstDirectory(o.listing.value).value].name))]
  {
    var s3 := ChildExitedSpec(st, Active(video, tmpDir, Separating), o.demucs);
    assert s3 == Step(st.(childProcess := false), Active(video, tmpDir, Locating));
    var i := FirstDirectory(o.listing.value).value;
    var mix := MixCommand(tmpDir, Join(SeparatedDir(tmpDir), o.listing.value[i].name));
    var s4 := OutputDirListedSpec(s3.state, s3.run, o.listing);
    assert s4 == Step(Spawn(s3.state, mix), Active(video, tmpDir, Mixing));
    assert s4.state.spawned == st.spawned + [mix];
    var s5 := ChildExitedSpec(s4.state, s4.run, o.mix);
    assert s5 == Step(s4.state.(childProcess := false), Active(video, tmpDir, Publishing));
    var s6 := PublishFinishedSpec(s5.state, env, s5.run, o.instrumentalExists, o.folderName, o.copied);
    SetStatusAndPathDb(s5.state, video.videoId, Done, Some(OutputBase(s5.state.settings, env, o.folderName)));
    assert s6.state.spawned == s5.state.spawned;
    assert s6.run == CleaningUp;
    assert Continue(st, env, host, Active(video, tmpDir, Separating), o) == Continue(s3.state, env, host, s3.run, o);
    assert Continue(s3.state, env, host, s3.run, o) == Continue(s4.state, env, host, s4.run, o);
    assert Continue(s4.state, env, host, s4.run, o) == Continue(s5.state, env, host, s5.run, o);
    assert Continue(s5.state, env, host, s5.run, o) == CleanupFinishedSpec(s6.state);
    SetItemsInterrupts(s6.state, s6.state.items);
  }

  /**
   * A successful run spawns Demucs on the media file and then ffmpeg on the
   * stems of the first directory Demucs wrote, and nothing else.
   */
  lemma SuccessfulRunSpawns(st: State, env: Env, host: Host, video: Item, tmpDir: string, o: Outcomes)
    requires RunSucceeds(video, o)
    ensures !video.mediaSource.Unsupported? && FirstDirectory(o.listing.value).Some?
    ensures RunSpec(st, env, host, video, tmpDir, o).spawned == st.spawned + [
      DemucsCommand(st, env, host, tmpDir, MediaPath(video, tmpDir)),
      MixCommand(tmpDir, Join(SeparatedDir(tmpDir), o.listing.value[FirstDirectory(o.listing.value).value].name))]
  {
    if video.mediaSource.YouTube? {
      YouTubeRunSpawns(st, env, host, video, tmpDir, o);
    } else {
      LocalRunSpawns(st, env, host, video, tmpDir, o);
    }
  }

  /** A successful YouTube run: Demucs on the download, then the mix. */
  lemma YouTubeRunSpawns(st: State, env: Env, host: Host, video: Item, tmpDir: string, o: Outcomes)
    requires video.mediaSource.YouTube? && o.downloaded && SeparationSucceeds(o)
    ensures FirstDirectory(o.listing.value).Some?
    ensures RunSpec(st, env, host, video, tmpDir, o).spawned == st.spawned + [
      DemucsCommand(st, env, host, tmpDir, MediaPath(video, tmpDir)),
      MixCommand(tmpDir, Join(SeparatedDir(tmpDir), o.listing.value[FirstDirectory(o.listing.value).value].name))]
  {
    var id := video.videoId;
    var downloading := SetStatusAndPath(st, id, Downloading, None);
    SetStatusAndPathDb(st, id, Downloading, None);
    var fetching := downloading.(abortController := true);
    var fetched := fetching.(abortController := false);
    RunSpecFetching(st, env, host, video, tmpDir, o);
    DownloadedThenSeparates(fetching, env, host, video, tmpDir, o);
    StartSeparationEffect(fetched, env, host, video, tmpDir, YtPath(tmpDir));
    assert DemucsCommand(fetched, env, host, tmpDir, YtPath(tmpDir)) == DemucsCommand(st, env, host, tmpDir, MediaPath(video, tmpDir));
    SuccessfulSeparationSpawns(StartSeparation(fetched, env, host, video, tmpDir, YtPath(tmpDir)), env, host, video, tmpDir, o);
  }

  /** A YouTube run starts by fetching, with the controller set. */
  lemma RunSpecFetching(st: State, env: Env, host: Host, video: Item, tmpDir: string, o: Outcomes)
    requires video.mediaSource.YouTube?
    ensures RunSpec(st, env, host, video, tmpDir, o) ==
      Continue(SetStatusAndPath(st, video.videoId, Downloading, None).(abortController := true), env, host,
               Active(video, tmpDir, Fetching), o)
  {
  }

  /** A local run starts Demucs on the file at once. */
  lemma RunSpecSeparating(st: State, env: Env, host: Host, video: Item, tmpDir: string, o: Outcomes)
    requires video.mediaSource.Local?
    ensures RunSpec(st, env, host, video, tmpDir, o) ==
      Continue(StartSeparation(SetStatusAndPath(st, video.videoId, Downloading, None), env, host, video, tmpDir,
                               video.mediaSource.localInputPath), env, host, Active(video, tmpDir, Separating), o)
  {
  }

  /** An unsupported source goes straight from the `catch` to the cleanup. */
  lemma RunSpecUnsupported(st: State, env: Env, host: Host, video: Item, tmpDir: string, o: Outcomes)
    requires video.mediaSource.Unsupported?
    ensures RunSpec(st, env, host, video, tmpDir, o) ==
      CleanupFinishedSpec(Catch(SetStatusAndPath(st, video.videoId, Downloading, None), video.videoId))
  {
  }

  /** A finished download starts Demucs on it, without the controller. */
  lemma DownloadedThenSeparates(st: State, env: Env, host: Host, video: Item, tmpDir: string, o: Outcomes)
    requires o.downloaded
    ensures Continue(st, env, host, Active(video, tmpDir, Fetching), o) ==
      Continue(StartSeparation(st.(abortController := false), env, host, video, tmpDir, YtPath(tmpDir)), env, host,
               Active(video, tmpDir, Separating), o)
  {
  }

  /** A successful local run: Demucs on the file itself, then the mix. */
  lemma LocalRunSpawns(st: State, env: Env, host: Host, video: Item, tmpDir: string, o: Outcomes)
    requires video.mediaSource.Local? && SeparationSucceeds(o)
    ensures FirstDirectory(o.listing.value).Some?
    ensures RunSpec(st, env, host, video, tmpDir, o).spawned == st.spawned + [
      DemucsCommand(st, env, host, tmpDir, MediaPath(video, tmpDir)),
      MixCommand(tmpDir, Join(SeparatedDir(tmpDir), o.listing.value[FirstDirectory(o.listing.value).value].name))]
  {
    var id := video.videoId;
    var downloading := SetStatusAndPath(st, id, Downloading, None);
    SetStatusAndPathDb(st, id, Downloading, None);
    var path := video.mediaSource.localInputPath;
    var started := StartSeparation(downloading, env, host, video, tmpDir, path);
    StartSeparationEffect(downloading, env, host, video, tmpDir, path);
    RunSpecSeparating(st, env, host, video, tmpDir, o);
    SuccessfulSeparationSpawns(started, env, host, video, tmpDir, o);
  }

  // ---------------------------------------------------------------------------
  // Runs that other calls interleave with

  /**
   * Every failing stage ends in `Catch` followed by the `finally` block's
   * `setItems(curItems)`. Whatever the state at the failure, when the
   * video's status was cleared and the video is out of the queue, neither
   * writes anything about it.
   */
  lemma ClearedCatchSendsNothing(pre: State, id: string)
    requires id !in pre.db
    requires forall x :: x in pre.items ==> x.videoId != id
    ensures Catch(pre, id) == pre
    ensures var fin := CleanupFinishedSpec(Catch(pre, id));
      && UpdatesFor(id, fin.events) == UpdatesFor(id, pre.events)
      && id !in fin.db
      && (forall x :: x in fin.items ==> x.videoId != id)
  {
    CatchEffect(pre, id);
    var c := Catch(pre, id);
    assert id !in Ids(c.items);
    SetItemsSkipsKnown(c, c.items, id);
    SetItemsFiltersQueue(c, c.items);
  }

  /**
   * The Demucs case of `ClearedCatchSendsNothing`: with its status cleared
   * and the video out of the queue, a separation that exits on a signal
   * writes nothing about the video, nor does the `setItems` that ends it.
   */
  lemma ClearedRunFails(st: State, env: Env, host: Host, video: Item, tmpDir: string, signal: string)
    requires video.videoId !in st.db
    requires forall x :: x in st.items ==> x.videoId != video.videoId
    ensures var id := video.videoId;
      var s3 := ChildExitedSpec(st, Active(video, tmpDir, Separating), Exited(None, Some(signal)));
      var fin := CleanupFinishedSpec(s3.state);
      && s3.run == CleaningUp
      && UpdatesFor(id, fin.events) == UpdatesFor(id, st.events)
      && id !in fin.db
      && (forall x :: x in fin.items ==> x.videoId != id)
  {
    var id := video.videoId;
    var s3 := ChildExitedSpec(st, Active(video, tmpDir, Separating), Exited(None, Some(signal)));
    assert s3.state == Catch(st.(childProcess := false), id);
    ClearedCatchSendsNothing(st.(childProcess := false), id);
  }

  /**
   * Cancelling a running separation: the UI clears the video's status and
   * removes it from the queue, the `setItems` kills Demucs, and the process
   * exits on the signal. The catch sees the cleared status and writes
   * nothing, so the only payload about the video is the clearing one, and
   * the video is neither recorded nor queued at the end of the run.
   */
  lemma CancelledRunStaysCleared(st: State, env: Env, host: Host, video: Item, tmpDir: string,
                                 items: seq<Item>, signal: string)
    requires forall i :: 0 <= i < |items| ==> items[i].videoId != video.videoId
    ensures var id := video.videoId;
      var s2 := SetItemsSpec(DeleteStatusAndPath(st, id), items);
      var s3 := ChildExitedSpec(s2, Active(video, tmpDir, Separating), Exited(None, Some(signal)));
      var fin := CleanupFinishedSpec(s3.state);
      && s3.run == CleaningUp
      && UpdatesFor(id, fin.events) ==
           UpdatesFor(id, st.events) + (if id in st.db then [StatusUpdate(id, None, None)] else [])
      && id !in fin.db
      && (forall x :: x in fin.items ==> x.videoId != id)
  {
    var id := video.videoId;
    var s1 := DeleteStatusAndPath(st, id);
    var s2 := SetItemsSpec(s1, items);
    DeleteStatusAndPathUpdatesFor(st, id);
    assert id !in s1.db;
    assert id !in Ids(items);
    SetItemsSkipsKnown(s1, items, id);
    assert forall x :: x in s2.items ==> x.videoId != id by {
      SetItemsFiltersQueue(s1, items);
    }
    ClearedRunFails(s2, env, host, video, tmpDir, signal);
  }

  /**
   * Reordering the queue while a run lists the Demucs output: that stage
   * holds no handle, so `setItems` with another head kills nothing and only
   * schedules a start. When the timer fires the new head's run begins while
   * the first run is still going; the first run then spawns ffmpeg, and
   * `spawnAndWait` aborts the second run's download on the way.
   */
  lemma HeadChangeWhileListingStartsSecondRun(st: State, env: Env, host: Host, a: Item, tmpA: string,
                                              b: Item, tmpB: string, entries: seq<DirEntry>)
    requires HeadId(st.items) == Some(a.videoId)
    requires !st.childProcess && !st.abortController
    requires b.videoId != a.videoId && !IsTerminalIn(st.db, b.videoId) && b.mediaSource.YouTube?
    requires FirstDirectory(entries).Some?
    ensures var s1 := SetItemsSpec(st, [b]);
      && s1.interrupts == st.interrupts
      && s1.pendingStarts == st.pendingStarts + 1
      && var f := FireStartTimerSpec(s1, env, host, Some(tmpB));
         && f.run == Some(Active(b, tmpB, Fetching))
         && var n := OutputDirListedSpec(f.state, Active(a, tmpA, Locating), Some(entries));
            && n.run == Active(a, tmpA, Mixing)
            && n.state.interrupts == st.interrupts + [AbortDownload]
  {
    var s1 := SetItemsSpec(st, [b]);
    SetItemsSingle(st, b);
    SetItemsInterrupts(st, [b]);
    assert KillSignals(false, false) == [];
    var fired := s1.(pendingStarts := s1.pendingStarts - 1);
    assert fired.items == [b];
    var downloading := SetStatusAndPath(fired, b.videoId, Downloading, None);
    SetStatusAndPathDb(fired, b.videoId, Downloading, None);
    var f := FireStartTimerSpec(s1, env, host, Some(tmpB));
    assert f == Begun(downloading.(abortController := true), Some(Active(b, tmpB, Fetching)));
    assert f.state.interrupts == st.interrupts && f.state.abortController && !f.state.childProcess;
    assert KillSignals(true, false) == [AbortDownload];
  }

  /**
   * Reordering the queue while Demucs runs: a `setItems` whose new head is
   * another video kills the running process, and when it exits on the
   * signal the catch finds the status still set and records the
   * interrupted video as 'error', even if it is still in the queue.
   */
  lemma InterruptedRunIsRecordedAsError(st: State, video: Item, tmpDir: string, items: seq<Item>, signal: string)
    requires video.videoId in st.db
    requires st.childProcess
    requires HeadId(st.items) != HeadId(SetItemsSpec(st, items).items)
    ensures var id := video.videoId;
      var s1 := SetItemsSpec(st, items);
      var s2 := ChildExitedSpec(s1, Active(video, tmpDir, Separating), Exited(None, Some(signal)));
      && s1.interrupts == st.interrupts + KillSignals(st.abortController, true)
      && TreeKill in s1.interrupts[|st.interrupts|..]
      && s2.run == CleaningUp
      && id in s2.state.db && s2.state.db[id] == Entry(Error, None)
      && UpdatesFor(id, s2.state.events) == UpdatesFor(id, st.events) + [StatusUpdate(id, Some(Error), None)]
      && s2.state.items == s1.items
  {
    var id := video.videoId;
    var s1 := SetItemsSpec(st, items);
    SetItemsInterrupts(st, items);
    SetItemsSkipsKnown(st, items, id);
    assert s1.interrupts[|st.interrupts|..] == KillSignals(st.abortController, true);
    CatchEffect(s1.(childProcess := false), id);
  }

  /**
   * The same interruption when the killed Demucs reports an exit code and
   * no signal: the exit handler resolves, so the run is not caught and
   * goes on to list the output directory with nothing written about it.
   */
  lemma InterruptedRunExitingWithCodeGoesOn(st: State, video: Item, tmpDir: string, items: seq<Item>, code: int)
    requires video.videoId in st.db
    requires st.childProcess
    requires HeadId(st.items) != HeadId(SetItemsSpec(st, items).items)
    ensures var id := video.videoId;
      var s1 := SetItemsSpec(st, items);
      var s2 := ChildExitedSpec(s1, Active(video, tmpDir, Separating), Exited(Some(code), None));
      && s1.interrupts == st.interrupts + KillSignals(st.abortController, true)
      && TreeKill in s1.interrupts[|st.interrupts|..]
      && s2.run == Active(video, tmpDir, Locating)
      && id in s2.state.db && s2.state.db[id] == st.db[id]
      && UpdatesFor(id, s2.state.events) == UpdatesFor(id, st.events)
  {
    var id := video.videoId;
    var s1 := SetItemsSpec(st, items);
    SetItemsInterrupts(st, items);
    SetItemsSkipsKnown(st, items, id);
    assert s1.interrupts[|st.interrupts|..] == KillSignals(st.abortController, true);
  }

  /**
   * A scheduled start that fires on an empty queue, or whose `mkdtemp`
   * fails, writes nothing: it only uses up the timer. On an empty queue the
   * run goes straight to its `finally`.
   */
  lemma FireStartTimerWithoutRun(st: State, env: Env, host: Host, tmpDir: Option<string>)
    requires st.pendingStarts > 0
    requires tmpDir.None? || |st.items| == 0
    ensures var b := FireStartTimerSpec(st, env, host, tmpDir);
      && b.state == st.(pendingStarts := st.pendingStarts - 1)
      && b.run == (if tmpDir.None? then None else Some(CleaningUp))
  {
  }

  /** The status payloads `_processVideo` sends before its first await. */
  function BeginUpdates(video: Item): seq<Event> {
    var id := video.videoId;
    var downloading := StatusUpdate(id, Some(Downloading), None);
    if video.mediaSource.YouTube? then [downloading]
    else if video.mediaSource.Local? then [downloading, StatusUpdate(id, Some(Processing), None)]
    else [downloading, StatusUpdate(id, Some(Error), None)]
  }

  /**
   * Starting Demucs sends 'processing' about the video and nothing else,
   * spawns exactly the Demucs command and leaves the queue alone.
   */
  lemma StartSeparationEffect(st: State, env: Env, host: Host, video: Item, tmpDir: string, mediaPath: string)
    ensures var r := StartSeparation(st, env, host, video, tmpDir, mediaPath); var id := video.videoId;
      && UpdatesFor(id, r.events) == UpdatesFor(id, st.events) + [StatusUpdate(id, Some(Processing), None)]
      && r.items == st.items && r.pendingStarts == st.pendingStarts && r.settings == st.settings
      && r.spawned == st.spawned + [DemucsCommand(st, env, host, tmpDir, mediaPath)]
      && r.childProcess && !r.abortController
      && id in r.db && r.db[id] == Entry(Processing, None)
  {
    SetStatusAndPathUpdatesFor(st, video.videoId, Processing, None, video.videoId);
  }

  /**
   * `_processVideo` up to its first await leaves the queue, the settings and
   * the scheduled starts alone and records the video; the run awaits the
   * download, awaits Demucs, or has failed already.
   */
  lemma BeginRunFrame(st: State, env: Env, host: Host, video: Item, tmpDir: string)
    ensures var b := BeginRun(st, env, host, video, tmpDir);
      && b.state.pendingStarts == st.pendingStarts
      && b.state.items == st.items
      && b.state.settings == st.settings
      && video.videoId in b.state.db
      && b.run == (if video.mediaSource.YouTube? then Active(video, tmpDir, Fetching)
                   else if video.mediaSource.Local? then Active(video, tmpDir, Separating)
                   else CleaningUp)
      && (video.mediaSource.Unsupported? ==> b.state.db[video.videoId] == Entry(Error, None))
  {
    if video.mediaSource.Local? {
      StartSeparationEffect(SetStatusAndPath(st, video.videoId, Downloading, None), env, host, video, tmpDir,
                            video.mediaSource.localInputPath);
    }
  }

  /** The first payload of every run: 'downloading'. */
  lemma BeginDownloading(st: State, id: string)
    ensures UpdatesFor(id, SetStatusAndPath(st, id, Downloading, None).events) ==
      UpdatesFor(id, st.events) + [StatusUpdate(id, Some(Downloading), None)]
  {
    SetStatusAndPathUpdatesFor(st, id, Downloading, None, id);
  }

  lemma BeginRunUpdatesLocal(st: State, env: Env, host: Host, video: Item, tmpDir: string)
    requires video.mediaSource.Local?
    ensures UpdatesFor(video.videoId, BeginRun(st, env, host, video, tmpDir).state.events) ==
      UpdatesFor(video.videoId, st.events) + BeginUpdates(video)
  {
    var id := video.videoId;
    var downloading := SetStatusAndPath(st, id, Downloading, None);
    var path := video.mediaSource.localInputPath;
    assert BeginRun(st, env, host, video, tmpDir).state == StartSeparation(downloading, env, host, video, tmpDir, path);
    BeginDownloading(st, id);
    StartSeparationEffect(downloading, env, host, video, tmpDir, path);
    var a := UpdatesFor(id, st.events);
    var d, q := StatusUpdate(id, Some(Downloading), None), StatusUpdate(id, Some(Processing), None);
    assert BeginUpdates(video) == [d, q];
    assert a + [d] + [q] == a + [d, q];
  }

  lemma BeginRunUpdatesUnsupported(st: State, env: Env, host: Host, video: Item, tmpDir: string)
    requires video.mediaSource.Unsupported?
    ensures UpdatesFor(video.videoId, BeginRun(st, env, host, video, tmpDir).state.events) ==
      UpdatesFor(video.videoId, st.events) + BeginUpdates(video)
  {
    var id := video.videoId;
    BeginDownloading(st, id);
    CatchEffect(SetStatusAndPath(st, id, Downloading, None), id);
  }

  /** `_processVideo` up to its first await sends exactly the payloads of `BeginUpdates`. */
  lemma BeginRunUpdates(st: State, env: Env, host: Host, video: Item, tmpDir: string)
    ensures UpdatesFor(video.videoId, BeginRun(st, env, host, video, tmpDir).state.events) ==
      UpdatesFor(video.videoId, st.events) + BeginUpdates(video)
  {
    if video.mediaSource.Local? {
      BeginRunUpdatesLocal(st, env, host, video, tmpDir);
    } else if video.mediaSource.Unsupported? {
      BeginRunUpdatesUnsupported(st, env, host, video, tmpDir);
    } else {
      BeginDownloading(st, video.videoId);
    }
  }

  /**
   * When a scheduled start fires, `processVideo` runs on the head of the
   * queue as it is at that moment: the head's status becomes 'downloading'
   * and its run begins (a local file goes on to 'processing', an
   * unsupported source to 'error').
   */
  lemma FireStartTimerStartsHead(st: State, env: Env, host: Host, tmpDir: string)
    requires st.pendingStarts > 0
    requires |st.items| > 0
    ensures var b := FireStartTimerSpec(st, env, host, Some(tmpDir)); var id := st.items[0].videoId;
      && b.state.pendingStarts == st.pendingStarts - 1
      && b.state.items == st.items
      && b.run.Some? && (b.run.value.Active? ==> b.run.value.video == st.items[0])
      && UpdatesFor(id, b.state.events) == UpdatesFor(id, st.events) + BeginUpdates(st.items[0])
  {
    var fired := st.(pendingStarts := st.pendingStarts - 1);
    BeginRunFrame(fired, env, host, st.items[0], tmpDir);
    BeginRunUpdates(fired, env, host, st.items[0], tmpDir);
  }
}
