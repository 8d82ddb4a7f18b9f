/**
 * The small computations of the queue module that do not touch its state:
 * the Demucs job count, the classification of a child-process exit, the
 * search for the Demucs output directory, the argument lists of the two
 * external tools, the temporary-folder prefix test and the settings defaults.
 */
module Helpers {
  import opened Wrappers
  import opened Types
  import opened Seqs

  const TMP_PREFIX: string := "StemRoller-"
  const DEMUCS_MODEL_NAME: string := "htdemucs_ft"
  const FFMPEG_EXE_NAME: string := "ffmpeg"
  const MAX_NUM_JOBS: nat := 4
  /** About 2 GB of free memory per Demucs job. */
  const BYTES_PER_JOB: nat := 2000000000
  const NO_OUTPUT_DIR: string := "Unable to find Demucs output directory"

  /** `path.join(base, name)`; separator normalisation is not modelled. */
  function Join(base: string, name: string): string {
    base + "/" + name
  }

  /** JavaScript truthiness of an optional string: present and not empty. */
  predicate Truthy(o: Option<string>) {
    o.Some? && o.value != ""
  }

  function Min(a: int, b: int): int {
    if a <= b then a else b
  }

  function Max(a: int, b: int): int {
    if a >= b then a else b
  }

  /**
   * `getJobCount`: `max(1, min(cpus, floor(freeMem / 2e9), 4))`. The result is
   * in [1, 4]; above 1 it respects both the CPU and the memory bound; below 4
   * it reaches one of the two bounds (so it is the largest count allowed).
   */
  function JobCount(freeMem: nat, cpus: nat): (r: nat)
    ensures 1 <= r <= MAX_NUM_JOBS
    ensures r > 1 ==> r <= cpus && r <= freeMem / BYTES_PER_JOB
    ensures r < MAX_NUM_JOBS ==> cpus <= r || freeMem / BYTES_PER_JOB <= r
  {
    var numMemories := freeMem / BYTES_PER_JOB;
    Max(1, Min(Min(cpus, numMemories), MAX_NUM_JOBS))
  }

  /** With at least one CPU and 2 GB free, the job count never exceeds either bound. */
  lemma JobCountWithinResources(freeMem: nat, cpus: nat)
    requires cpus >= 1 && freeMem >= BYTES_PER_JOB
    ensures JobCount(freeMem, cpus) <= cpus
    ensures JobCount(freeMem, cpus) <= freeMem / BYTES_PER_JOB
  {
  }

  /**
   * The `exit` handler of `spawnAndWait`: a termination by signal rejects;
   * any exit code, zero or not, resolves with that code.
   */
  function ClassifyExit(code: Option<int>, signal: Option<string>): (r: Result<Option<int>, string>)
    ensures r.Failure? <==> signal.Some?
    ensures signal.None? ==> r.value == code
    ensures signal.Some? ==> r.error == "Child process exited due to signal: " + signal.value
  {
    if signal.Some? then Failure("Child process exited due to signal: " + signal.value)
    else Success(code)
  }

  /** The index of the first directory among `entries`, if there is one. */
  function FirstDirectory(entries: seq<DirEntry>): (r: Option<nat>)
    ensures r.Some? ==> r.value < |entries| && entries[r.value].isDirectory
    ensures r.Some? ==> forall j :: 0 <= j < r.value ==> !entries[j].isDirectory
    ensures r.None? ==> forall j :: 0 <= j < |entries| ==> !entries[j].isDirectory
    decreases |entries|
  {
    if entries == [] then None
    else if entries[0].isDirectory then Some(0)
    else match FirstDirectory(entries[1..])
      case None => None
      case Some(i) => Some(i + 1)
  }

  /** What `findDemucsOutputDir` returns or throws for a given directory listing. */
  function DemucsOutputDir(basePath: string, entries: seq<DirEntry>): Result<string, string> {
    match FirstDirectory(entries)
    case Some(i) => Success(Join(basePath, entries[i].name))
    case None => Failure(NO_OUTPUT_DIR)
  }

  /**
   * `findDemucsOutputDir` after its `readdir`: the path of the first entry
   * that is a directory, or the error 'Unable to find Demucs output directory'
   * when no entry is one.
   */
  method FindDemucsOutputDir(basePath: string, entries: seq<DirEntry>) returns (r: Result<string, string>)
    ensures r == DemucsOutputDir(basePath, entries)
    ensures r.Failure? <==> forall j :: 0 <= j < |entries| ==> !entries[j].isDirectory
    ensures r.Success? ==>
      (exists i :: 0 <= i < |entries| && entries[i].isDirectory && r.value == Join(basePath, entries[i].name))
  {
    var i := 0;
    while i < |entries|
      invariant 0 <= i <= |entries|
      invariant forall j :: 0 <= j < i ==> !entries[j].isDirectory
    {
      if entries[i].isDirectory {
        return Success(Join(basePath, entries[i].name));
      }
      i := i + 1;
    }
    return Failure(NO_OUTPUT_DIR);
  }

  /** The Demucs options that an argument list carries. */
  datatype DemucsOptions = DemucsOptions(mediaPath: string, jobCount: int, forceCpu: bool, repo: Option<string>)

  /**
   * The Demucs argument list: `[mediaPath, '-n', model, '-j', jobCount]`, then
   * `'-d', 'cpu'` when the backend setting is 'cpu', then `'--repo', modelsPath`
   * when a models directory is bundled.
   */
  function DemucsArgs(mediaPath: string, jobCount: int, backend: string, modelsPath: Option<string>): seq<Arg> {
    [Str(mediaPath), Str("-n"), Str(DEMUCS_MODEL_NAME), Str("-j"), Num(jobCount)]
    + (if backend == "cpu" then [Str("-d"), Str("cpu")] else [])
    + (if Truthy(modelsPath) then [Str("--repo"), Str(modelsPath.value)] else [])
  }

  /** How Demucs reads its command line (for the options this module passes). */
  function ParseDemucsArgs(args: seq<Arg>): Option<DemucsOptions> {
    if |args| < 5 || !args[0].Str? || args[1] != Str("-n") || args[2] != Str(DEMUCS_MODEL_NAME)
       || args[3] != Str("-j") || !args[4].Num?
    then None
    else
      var rest := args[5..];
      var forceCpu := |rest| >= 2 && rest[0] == Str("-d") && rest[1] == Str("cpu");
      var tail := if forceCpu then rest[2..] else rest;
      if tail == [] then Some(DemucsOptions(args[0].s, args[4].n, forceCpu, None))
      else if |tail| == 2 && tail[0] == Str("--repo") && tail[1].Str? then
        Some(DemucsOptions(args[0].s, args[4].n, forceCpu, Some(tail[1].s)))
      else None
  }

  /**
   * The argument list says what the module means: the media path, the job
   * count, CPU forcing exactly for the backend 'cpu', and the models
   * directory exactly when one is bundled.
   */
  lemma DemucsArgsRoundTrip(mediaPath: string, jobCount: int, backend: string, modelsPath: Option<string>)
    ensures ParseDemucsArgs(DemucsArgs(mediaPath, jobCount, backend, modelsPath))
         == Some(DemucsOptions(mediaPath, jobCount, backend == "cpu",
                               if Truthy(modelsPath) then modelsPath else None))
  {
    var args := DemucsArgs(mediaPath, jobCount, backend, modelsPath);
    var rest := args[5..];
    if backend == "cpu" {
      assert rest[..2] == [Str("-d"), Str("cpu")];
      if Truthy(modelsPath) {
        assert rest[2..] == [Str("--repo"), Str(modelsPath.value)];
      } else {
        assert rest[2..] == [];
      }
    } else if Truthy(modelsPath) {
      assert rest == [Str("--repo"), Str(modelsPath.value)];
    } else {
      assert rest == [];
    }
  }

  /** The ffmpeg argument list: mix bass, drums and other (not vocals) into the instrumental. */
  function FfmpegArgs(bass: string, drums: string, other: string, instrumental: string): seq<Arg>
  {
    [Str("-i"), Str(bass), Str("-i"), Str(drums), Str("-i"), Str(other),
     Str("-filter_complex"), Str("amix=inputs=3:normalize=0"), Str(instrumental)]
  }

  /** `s.indexOf(p, from)`: the first position at or after `from` where `p` occurs, or -1. */
  function IndexOfFrom(s: string, p: string, from: nat): (r: int)
    requires from <= |s|
    ensures r == -1 || (from <= r <= |s| && p <= s[r..])
    ensures r == -1 ==> forall j :: from <= j <= |s| ==> !(p <= s[j..])
    ensures r != -1 ==> forall j :: from <= j < r ==> !(p <= s[j..])
    decreases |s| - from
  {
    if p <= s[from..] then from
    else if from == |s| then -1
    else IndexOfFrom(s, p, from + 1)
  }

  /** `s.indexOf(p)`. */
  function IndexOf(s: string, p: string): int {
    IndexOfFrom(s, p, 0)
  }

  /** The test of `deleteTmpFolders`: `itemName.indexOf(TMP_PREFIX) === 0`. */
  predicate HasTmpPrefix(name: string) {
    IndexOf(name, TMP_PREFIX) == 0
  }

  /** The `indexOf` test holds exactly for the names that start with the prefix. */
  lemma HasTmpPrefixIsPrefix(name: string)
    ensures HasTmpPrefix(name) <==> TMP_PREFIX <= name
  {
    assert name[0..] == name;
  }

  /** Every workspace `mkdtemp` creates under the prefix is swept at the next start-up. */
  lemma WorkspacesAreSwept(suffix: string)
    ensures HasTmpPrefix(TMP_PREFIX + suffix)
  {
    HasTmpPrefixIsPrefix(TMP_PREFIX + suffix);
  }

  /**
   * `deleteTmpFolders` over the listing of the temporary directory: the names
   * it removes, in listing order. A failing removal is caught and the loop
   * goes on, so every prefixed name is attempted.
   */
  method SweepTargets(names: seq<string>) returns (targets: seq<string>)
    ensures targets == Filter(names, HasTmpPrefix)
    ensures forall n :: n in targets <==> n in names && TMP_PREFIX <= n
    ensures IsSubsequence(targets, names)
  {
    targets := [];
    var i := 0;
    while i < |names|
      invariant 0 <= i <= |names|
      invariant targets == Filter(names[..i], HasTmpPrefix)
    {
      assert names[..i + 1][..i] == names[..i];
      if IndexOf(names[i], TMP_PREFIX) == 0 {
        targets := targets + [names[i]];
      }
      i := i + 1;
    }
    assert names[..i] == names;
    forall n
      ensures n in targets <==> n in names && TMP_PREFIX <= n
    {
      FilterMembership(names, HasTmpPrefix, n);
      HasTmpPrefixIsPrefix(n);
    }
    FilterIsSubsequence(names, HasTmpPrefix);
  }

  /** `getOutputPath`: the stored 'outputPath' when truthy, else `~/Music/StemRoller`. */
  function OutputPath(store: Option<Settings>, home: string): (r: string)
    ensures r != ""
    ensures store.Some? && Truthy(store.value.outputPath) ==> r == store.value.outputPath.value
    ensures !(store.Some? && Truthy(store.value.outputPath)) ==> r == Join(Join(home, "Music"), "StemRoller")
  {
    if store.Some? && Truthy(store.value.outputPath) then store.value.outputPath.value
    else Join(Join(home, "Music"), "StemRoller")
  }

  /** `getPyTorchBackend`: the stored 'pyTorchBackend' when truthy, else 'auto'. */
  function PyTorchBackend(store: Option<Settings>): (r: string)
    ensures r != ""
    ensures r == "auto" || (store.Some? && store.value.pyTorchBackend == Some(r))
    ensures store.Some? && Truthy(store.value.pyTorchBackend) ==> r == store.value.pyTorchBackend.value
  {
    if store.Some? && Truthy(store.value.pyTorchBackend) then store.value.pyTorchBackend.value
    else "auto"
  }

  /** `DEMUCS_EXE_NAME`: the bundled executable when third-party apps are bundled. */
  function DemucsExe(env: Env): string {
    if Truthy(env.thirdPartyApps) then "demucs-cxfreeze" else "demucs"
  }
}
