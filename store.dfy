/**
 * The status store of the queue module: `videosDb` as a map from video id to
 * `{status, path}`, the snapshot of finished entries written to the persistent
 * store, the donation threshold, and the pruning done when the store is loaded.
 */
module StatusStore {
  import opened Wrappers
  import opened Types
  import opened Seqs

  /** Number of finished videos from which the donate popup is requested. */
  const DONATE_THRESHOLD: nat := 3

  /** `getVideoStatus` on a given `videosDb`: the status of a known id, null for an unknown one. */
  function StatusOf(db: map<string, Entry>, id: string): (r: Option<Status>)
    ensures r.None? <==> id !in db
    ensures r.Some? ==> r.value == db[id].status
  {
    if id in db then Some(db[id].status) else None
  }

  /** `getVideoPath` on a given `videosDb`: null for an unknown id and for a known id without a path. */
  function PathOf(db: map<string, Entry>, id: string): (r: Option<string>)
    ensures id !in db ==> r == None
    ensures id in db ==> r == db[id].path
  {
    if id in db then db[id].path else None
  }

  /** The id is recorded as 'done' or 'error'. */
  predicate IsTerminalIn(db: map<string, Entry>, id: string) {
    StatusOf(db, id).Some? && IsTerminal(StatusOf(db, id).value)
  }

  /** The id is recorded as 'downloading' or 'processing'. */
  predicate IsActiveIn(db: map<string, Entry>, id: string) {
    StatusOf(db, id).Some? && IsActive(StatusOf(db, id).value)
  }

  /** The entries with status 'done': what `saveFinishedToVideosDb` persists. */
  function DoneOnly(db: map<string, Entry>): (r: map<string, Entry>)
    ensures forall id :: id in r <==> id in db && db[id].status == Done
    ensures forall id :: id in r ==> r[id] == db[id]
  {
    map id | id in db && db[id].status == Done :: db[id]
  }

  /** `electronStore.get('canShowDonatePopup') !== false`. */
  predicate DonateAllowed(canShow: Option<bool>) {
    canShow != Some(false)
  }

  /** The donate callback fired by one save: once per save with at least three finished entries. */
  function DonateEvents(db: map<string, Entry>, canShow: Option<bool>): seq<Event> {
    if |DoneOnly(db)| >= DONATE_THRESHOLD && DonateAllowed(canShow) then [DonateUpdate] else []
  }

  /**
   * The loop of `saveFinishedToVideosDb`: walks the keys of `videosDb` and
   * collects the 'done' entries, counting them in `numFinished`.
   */
  method FinishedSnapshot(db: map<string, Entry>) returns (filtered: map<string, Entry>, numFinished: nat)
    ensures filtered == DoneOnly(db)
    ensures numFinished == |filtered|
    ensures forall id :: id in filtered ==> filtered[id].status == Done
  {
    filtered, numFinished := map[], 0;
    var remaining := db.Keys;
    while remaining != {}
      invariant remaining <= db.Keys
      invariant forall id :: id in filtered <==> id in db && id !in remaining && db[id].status == Done
      invariant forall id :: id in filtered ==> filtered[id] == db[id]
      invariant numFinished == |filtered|
      decreases remaining
    {
      var id :| id in remaining;
      if db[id].status == Done {
        assert id !in filtered;
        filtered := filtered[id := db[id]];
        numFinished := numFinished + 1;
      }
      remaining := remaining - {id};
    }
    assert filtered.Keys == DoneOnly(db).Keys;
  }

  /** `fs.access(entry.path)` succeeds: the path is set and exists on disk. */
  predicate PathExists(path: Option<string>, onDisk: string -> bool) {
    path.Some? && onDisk(path.value)
  }

  /** What `loadVideosDb` keeps: the stored entries (none if nothing is stored) whose path exists. */
  function Pruned(loaded: Option<map<string, Entry>>, onDisk: string -> bool): map<string, Entry> {
    var db := if loaded.Some? then loaded.value else map[];
    map id | id in db && PathExists(db[id].path, onDisk) :: db[id]
  }

  /**
   * The loop of `loadVideosDb`: walks the stored entries and keeps those whose
   * path can be accessed.
   */
  method PruneMissing(loaded: Option<map<string, Entry>>, onDisk: string -> bool) returns (filtered: map<string, Entry>)
    ensures filtered == Pruned(loaded, onDisk)
    ensures forall id :: id in filtered <==> loaded.Some? && id in loaded.value && PathExists(loaded.value[id].path, onDisk)
    ensures forall id :: id in filtered ==> filtered[id] == loaded.value[id]
  {
    var db := if loaded.Some? then loaded.value else map[];
    filtered := map[];
    var remaining := db.Keys;
    while remaining != {}
      invariant remaining <= db.Keys
      invariant forall id :: id in filtered <==> id in db && id !in remaining && PathExists(db[id].path, onDisk)
      invariant forall id :: id in filtered ==> filtered[id] == db[id]
      decreases remaining
    {
      var id :| id in remaining;
      var found := PathExists(db[id].path, onDisk);
      if found {
        filtered := filtered[id := db[id]];
      }
      remaining := remaining - {id};
    }
    assert filtered.Keys == Pruned(loaded, onDisk).Keys;
  }

  /**
   * Only 'done' entries are ever persisted, so after a restart only finished
   * videos whose output still exists are known: 'error' does not survive.
   */
  lemma RestartKnowsOnlyFinished(db: map<string, Entry>, onDisk: string -> bool, id: string)
    ensures id in Pruned(Some(DoneOnly(db)), onDisk) <==>
              id in db && db[id].status == Done && PathExists(db[id].path, onDisk)
    ensures id in Pruned(Some(DoneOnly(db)), onDisk) ==> Pruned(Some(DoneOnly(db)), onDisk)[id] == db[id]
  {
  }

  /** The payloads given to the status callback, in order. */
  function StatusUpdates(evs: seq<Event>): seq<Event> {
    Filter(evs, (e: Event) => e.StatusUpdate?)
  }

  /** The payloads given to the status callback about one video id, in order. */
  function UpdatesFor(id: string, evs: seq<Event>): seq<Event> {
    Filter(evs, (e: Event) => e.StatusUpdate? && e.videoId == id)
  }

  /** A status payload is about `id` exactly when it names `id`; nothing else is. */
  lemma UpdatesForSnoc(id: string, evs: seq<Event>, e: Event)
    ensures UpdatesFor(id, evs + [e]) ==
      UpdatesFor(id, evs) + (if e.StatusUpdate? && e.videoId == id then [e] else [])
  {
    FilterSnoc(evs, e, (e: Event) => e.StatusUpdate? && e.videoId == id);
  }

  /** The donate callback is not a status payload. */
  lemma UpdatesForDonate(id: string, evs: seq<Event>, d: seq<Event>)
    requires d == [] || d == [DonateUpdate]
    ensures UpdatesFor(id, evs + d) == UpdatesFor(id, evs)
  {
    if d == [DonateUpdate] {
      UpdatesForSnoc(id, evs, DonateUpdate);
    } else {
      assert evs + d == evs;
    }
  }
}
