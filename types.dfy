/**
 * The values the queue module of StemRoller works with: queue items, status
 * entries, callback payloads and the settings read from the persistent store.
 */
module Types {
  import opened Wrappers

  /** The status strings 'queued', 'downloading', 'processing', 'done', 'error'. */
  datatype Status = Queued | Downloading | Processing | Done | Error

  /** One value of `videosDb`: `{status, path}`; `path` is null until a run is done. */
  datatype Entry = Entry(status: Status, path: Option<string>)

  /** `video.mediaSource`: 'youtube', 'local' (with `localInputPath`), or anything else. */
  datatype MediaSource = YouTube | Local(localInputPath: string) | Unsupported(name: string)

  /** One element of `curItems`. */
  datatype Item = Item(videoId: string, title: string, mediaSource: MediaSource)

  /**
   * What the module hands to its two registered callbacks: a status payload
   * `{videoId, status, path}` (both fields null on deletion), or `{showDonatePopup: true}`.
   */
  datatype Event =
    | StatusUpdate(videoId: string, status: Option<Status>, path: Option<string>)
    | DonateUpdate

  /** What `killCurChildProcess` does to a handle it finds: abort the download, tree-kill the process. */
  datatype Interrupt = AbortDownload | TreeKill

  /** An element of an argument array: a string, or a number such as the Demucs job count. */
  datatype Arg = Str(s: string) | Num(n: int)

  /** One `childProcess.spawn(command, args, {cwd})`. */
  datatype Command = Command(cwd: string, exe: string, args: seq<Arg>)

  /** One result of `fs.readdir(path, {withFileTypes: true})`. */
  datatype DirEntry = DirEntry(name: string, isDirectory: bool)

  /** The keys 'outputPath', 'pyTorchBackend' and 'canShowDonatePopup' of the persistent store. */
  datatype Settings = Settings(
    outputPath: Option<string>,
    pyTorchBackend: Option<string>,
    canShowDonatePopup: Option<bool>)

  /**
   * What the module computes once at load time from the platform: the home
   * directory, the bundled third-party-apps directory and the bundled models
   * directory (null when not bundled).
   */
  datatype Env = Env(home: string, thirdPartyApps: Option<string>, modelsPath: Option<string>)

  /** `os.freemem()` in bytes and `os.cpus().length` at the moment a job count is computed. */
  datatype Host = Host(freeMem: nat, cpus: nat)

  /** An entry that `setItems` drops: its status is 'done' or 'error'. */
  predicate IsTerminal(s: Status) {
    s == Done || s == Error
  }

  /** A status that `isBusy` looks for. */
  predicate IsActive(s: Status) {
    s == Downloading || s == Processing
  }
}
