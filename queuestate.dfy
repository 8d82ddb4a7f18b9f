/**
 * The module-level state of the queue module as one value, and the pure
 * transitions that specify the status store, `killCurChildProcess` and
 * `setItems`. The class in ProcessQueue implements each transition; the
 * lemmas here state what the transitions guarantee.
 */
module QueueState {
  import opened Wrappers
  import opened Types
  import opened Seqs
  import opened StatusStore

  /**
   * `curItems`, `videosDb`, whether `curChildProcess` and `curYtdlAbortController`
   * are set, the store settings, the persisted 'videosDb' snapshot, what the
   * callbacks and `killCurChildProcess` were given so far, the processes spawned
   * so far, and the number of `setTimeout` starts not yet fired.
   */
  datatype State = State(
    items: seq<Item>,
    db: map<string, Entry>,
    childProcess: bool,
    abortController: bool,
    settings: Settings,
    persisted: map<string, Entry>,
    events: seq<Event>,
    interrupts: seq<Interrupt>,
    spawned: seq<Command>,
    pendingStarts: nat)

  /** `saveFinishedToVideosDb`. */
  function Save(st: State): State {
    st.(persisted := DoneOnly(st.db),
        events := st.events + DonateEvents(st.db, st.settings.canShowDonatePopup))
  }

  /** `setVideoStatusAndPath`: write the entry, save, then notify. */
  function SetStatusAndPath(st: State, id: string, s: Status, p: Option<string>): State {
    var saved := Save(st.(db := st.db[id := Entry(s, p)]));
    saved.(events := saved.events + [StatusUpdate(id, Some(s), p)])
  }

  /** `deleteVideoStatusAndPath`: for a known id, remove it, save, then notify with null fields. */
  function DeleteStatusAndPath(st: State, id: string): State {
    if id !in st.db then st
    else
      var saved := Save(st.(db := st.db - {id}));
      saved.(events := saved.events + [StatusUpdate(id, None, None)])
  }

  /** What `killCurChildProcess` does to the handles it finds: abort first, then tree-kill. */
  function KillSignals(abortController: bool, childProcess: bool): seq<Interrupt> {
    (if abortController then [AbortDownload] else []) + (if childProcess then [TreeKill] else [])
  }

  /** `killCurChildProcess`. */
  function Kill(st: State): State {
    st.(childProcess := false, abortController := false,
        interrupts := st.interrupts + KillSignals(st.abortController, st.childProcess))
  }

  /** The filter callback of `setItems` for one item: an unknown id is registered as 'queued'. */
  function RegisterOne(st: State, item: Item): State {
    if item.videoId in st.db then st else SetStatusAndPath(st, item.videoId, Queued, None)
  }

  /** The filter callbacks of `setItems` for all items, in order. */
  function RegisterAll(st: State, items: seq<Item>): State {
    if items == [] then st
    else RegisterOne(RegisterAll(st, items[..|items| - 1]), items[|items| - 1])
  }

  /**
   * The items `setItems` keeps. The callback sees the status an item had
   * before the call, or 'queued' if it was unknown, so an item is kept exactly
   * when it was not recorded as 'done' or 'error'.
   */
  function Kept(db: map<string, Entry>, items: seq<Item>): seq<Item> {
    Filter(items, (x: Item) => !IsTerminalIn(db, x.videoId))
  }

  /** `items.length > 0 ? items[0].videoId : null`. */
  function HeadId(items: seq<Item>): Option<string> {
    if |items| > 0 then Some(items[0].videoId) else None
  }

  /** `setItems(items)`. */
  function SetItemsSpec(st: State, items: seq<Item>): State {
    var registered := RegisterAll(st, items);
    var kept := Kept(st.db, items);
    var after := registered.(items := kept);
    if HeadId(st.items) != HeadId(kept) then
      var killed := Kill(after);
      if |kept| > 0 then killed.(pendingStarts := killed.pendingStarts + 1) else killed
    else after
  }

  /** The ids of a list of items. */
  function Ids(items: seq<Item>): set<string> {
    set i | 0 <= i < |items| :: items[i].videoId
  }

  /** The ids `setItems` registers: unknown ids, at their first occurrence, in order. */
  function NewIds(db: map<string, Entry>, items: seq<Item>): seq<string> {
    if items == [] then []
    else
      var prev := NewIds(db, items[..|items| - 1]);
      var id := items[|items| - 1].videoId;
      if id in db || id in prev then prev else prev + [id]
  }

  predicate NoDuplicates<T(==)>(s: seq<T>) {
    forall i, j :: 0 <= i < j < |s| ==> s[i] != s[j]
  }

  /** One 'queued' notification per id, in order. */
  function QueuedUpdates(ids: seq<string>): seq<Event> {
    if ids == [] then []
    else QueuedUpdates(ids[..|ids| - 1]) + [StatusUpdate(ids[|ids| - 1], Some(Queued), None)]
  }

  /** The callbacks fired while registering `ids`: each save's donate signal, then the status. */
  function RegistrationEvents(ids: seq<string>, donate: seq<Event>): seq<Event> {
    if ids == [] then []
    else RegistrationEvents(ids[..|ids| - 1], donate) + donate + [StatusUpdate(ids[|ids| - 1], Some(Queued), None)]
  }

  // ---------------------------------------------------------------------------
  // The status store

  /**
   * After a save the persisted snapshot is exactly the 'done' part of
   * `videosDb`, and the donate popup is requested exactly when that part has
   * at least three entries and the popup was not switched off.
   */
  lemma SaveSnapshot(st: State)
    ensures Save(st).persisted == DoneOnly(st.db)
    ensures forall id :: id in Save(st).persisted ==> Save(st).persisted[id].status == Done
    ensures Save(st).events[..|st.events|] == st.events
    ensures DonateUpdate in Save(st).events[|st.events|..] <==>
              |DoneOnly(st.db)| >= DONATE_THRESHOLD && DonateAllowed(st.settings.canShowDonatePopup)
    ensures Save(st) == st.(persisted := Save(st).persisted, events := Save(st).events)
  {
    assert Save(st).events[|st.events|..] == DonateEvents(st.db, st.settings.canShowDonatePopup);
  }

  /**
   * `setVideoStatusAndPath(id, s, p)`: afterwards `getVideoStatus(id)` is `s`
   * and `getVideoPath(id)` is `p`, every other id reads as before, the
   * snapshot is the 'done' part, and the status callback got exactly one
   * payload, `{id, s, p}`; the donate callback fired exactly when the new
   * 'done' count is at least three and the popup is allowed.
   */
  lemma SetStatusAndPathEffect(st: State, id: string, s: Status, p: Option<string>)
    ensures var r := SetStatusAndPath(st, id, s, p);
      && StatusOf(r.db, id) == Some(s) && PathOf(r.db, id) == p
      && (forall other :: other != id ==>
            StatusOf(r.db, other) == StatusOf(st.db, other) && PathOf(r.db, other) == PathOf(st.db, other))
      && r.persisted == DoneOnly(r.db)
      && |st.events| <= |r.events| && r.events[..|st.events|] == st.events
      && StatusUpdates(r.events[|st.events|..]) == [StatusUpdate(id, Some(s), p)]
      && (DonateUpdate in r.events[|st.events|..] <==>
            |DoneOnly(r.db)| >= DONATE_THRESHOLD && DonateAllowed(st.settings.canShowDonatePopup))
      && r == st.(db := r.db, persisted := r.persisted, events := r.events)
  {
    SetStatusAndPathDb(st, id, s, p);
    SetStatusAndPathEvents(st, id, s, p);
  }

  /** The store side of `setVideoStatusAndPath`: one entry written, the snapshot re-saved, nothing else changed. */
  lemma SetStatusAndPathDb(st: State, id: string, s: Status, p: Option<string>)
    ensures var r := SetStatusAndPath(st, id, s, p);
      && StatusOf(r.db, id) == Some(s) && PathOf(r.db, id) == p
      && (forall other :: other != id ==>
            StatusOf(r.db, other) == StatusOf(st.db, other) && PathOf(r.db, other) == PathOf(st.db, other))
      && r.persisted == DoneOnly(r.db)
      && r == st.(db := r.db, persisted := r.persisted, events := r.events)
  {
    var r := SetStatusAndPath(st, id, s, p);
    assert r.db == st.db[id := Entry(s, p)];
  }

  /** The callback side of `setVideoStatusAndPath`: a donate check, then the one status payload. */
  lemma SetStatusAndPathEvents(st: State, id: string, s: Status, p: Option<string>)
    ensures var r := SetStatusAndPath(st, id, s, p);
      && |st.events| <= |r.events| && r.events[..|st.events|] == st.events
      && StatusUpdates(r.events[|st.events|..]) == [StatusUpdate(id, Some(s), p)]
      && (DonateUpdate in r.events[|st.events|..] <==>
            |DoneOnly(r.db)| >= DONATE_THRESHOLD && DonateAllowed(st.settings.canShowDonatePopup))
  {
    var r := SetStatusAndPath(st, id, s, p);
    var db := st.db[id := Entry(s, p)];
    var d := DonateEvents(db, st.settings.canShowDonatePopup);
    var su := StatusUpdate(id, Some(s), p);
    assert r.db == db;
    assert r.events == st.events + (d + [su]);
    assert r.events[|st.events|..] == d + [su];
    assert DonateUpdate in d + [su] <==> d == [DonateUpdate];
    NoStatusInDonate(d, su);
  }

  /** A save's donate signal followed by a status payload holds that one status payload. */
  lemma NoStatusInDonate(d: seq<Event>, su: Event)
    requires d == [] || d == [DonateUpdate]
    requires su.StatusUpdate?
    ensures StatusUpdates(d + [su]) == [su]
  {
    var isStatus := (e: Event) => e.StatusUpdate?;
    FilterSnoc(d, su, isStatus);
    if d != [] {
      FilterSnoc([], DonateUpdate, isStatus);
      assert [] + [DonateUpdate] == d;
    }
  }

  /**
   * The donate request is not a one-time signal: once three videos are
   * finished, every later save that does not un-finish one requests it again.
   */
  lemma DonateOnEveryQualifyingSave(st: State, id: string, s: Status, p: Option<string>)
    requires |DoneOnly(st.db)| >= DONATE_THRESHOLD
    requires DonateAllowed(st.settings.canShowDonatePopup)
    requires s == Done || id !in DoneOnly(st.db)
    ensures DonateUpdate in SetStatusAndPath(st, id, s, p).events[|st.events|..]
  {
    var r := SetStatusAndPath(st, id, s, p);
    assert DoneOnly(st.db).Keys <= DoneOnly(r.db).Keys;
    SubsetCard(DoneOnly(st.db).Keys, DoneOnly(r.db).Keys);
    assert |DoneOnly(r.db)| == |DoneOnly(r.db).Keys|;
    assert |DoneOnly(st.db)| == |DoneOnly(st.db).Keys|;
    SetStatusAndPathEffect(st, id, s, p);
  }

  lemma SubsetCard<T>(a: set<T>, b: set<T>)
    requires a <= b
    ensures |a| <= |b|
  {
    assert b == a + (b - a);
  }

  /**
   * `deleteVideoStatusAndPath(id)`: an unknown id changes nothing and
   * notifies nobody; a known id is removed (so `getVideoStatus` returns null),
   * the snapshot is re-saved, and the status callback gets exactly one
   * payload, with null status and null path.
   */
  lemma DeleteStatusAndPathEffect(st: State, id: string)
    ensures id !in st.db ==> DeleteStatusAndPath(st, id) == st
    ensures id in st.db ==> var r := DeleteStatusAndPath(st, id);
      && StatusOf(r.db, id) == None && PathOf(r.db, id) == None
      && r.db == st.db - {id}
      && r.persisted == DoneOnly(r.db)
      && |st.events| <= |r.events| && r.events[..|st.events|] == st.events
      && StatusUpdates(r.events[|st.events|..]) == [StatusUpdate(id, None, None)]
      && r == st.(db := r.db, persisted := r.persisted, events := r.events)
  {
    if id in st.db {
      var r := DeleteStatusAndPath(st, id);
      var d := DonateEvents(r.db, st.settings.canShowDonatePopup);
      assert r.events[|st.events|..] == d + [StatusUpdate(id, None, None)];
      NoStatusInDonate(d, StatusUpdate(id, None, None));
    }
  }

  // ---------------------------------------------------------------------------
  // setItems

  /** The ids `setItems` registers are the unknown ids of the items, each once. */
  lemma {:induction false} NewIdsFacts(db: map<string, Entry>, items: seq<Item>)
    ensures forall id :: id in NewIds(db, items) <==> id !in db && id in Ids(items)
    ensures NoDuplicates(NewIds(db, items))
  {
    if items != [] {
      var init := items[..|items| - 1];
      NewIdsFacts(db, init);
      assert Ids(items) == Ids(init) + {items[|items| - 1].videoId} by {
        forall id | id in Ids(items) ensures id in Ids(init) + {items[|items| - 1].videoId} {
          var i :| 0 <= i < |items| && items[i].videoId == id;
          if i < |init| { assert init[i] == items[i]; }
        }
        forall id | id in Ids(init) ensures id in Ids(items) {
          var i :| 0 <= i < |init| && init[i].videoId == id;
          assert items[i] == init[i];
        }
      }
    }
  }


  /** One registration step on the store. */
  lemma RegisterOneDb(st: State, item: Item)
    ensures RegisterOne(st, item).db ==
      if item.videoId in st.db then st.db else st.db[item.videoId := Entry(Queued, None)]
  {
  }

  /** The registration loop of `setItems` touches only the store and the callbacks. */
  lemma {:induction false} RegisterAllFrame(st: State, items: seq<Item>)
    ensures var r := RegisterAll(st, items);
      && r.items == st.items && r.childProcess == st.childProcess
      && r.abortController == st.abortController && r.settings == st.settings
      && r.interrupts == st.interrupts && r.spawned == st.spawned
      && r.pendingStarts == st.pendingStarts
  {
    if items != [] {
      RegisterAllFrame(st, items[..|items| - 1]);
    }
  }

  /**
   * The registration loop of `setItems` adds a 'queued' entry with a null
   * path for each new id and changes no other entry.
   */
  lemma {:induction false} RegisterAllDb(st: State, items: seq<Item>)
    ensures var r := RegisterAll(st, items); var ids := NewIds(st.db, items);
      && (forall id :: id in r.db <==> id in st.db || id in ids)
      && (forall id :: id in st.db ==> r.db[id] == st.db[id])
      && (forall id :: id in ids ==> r.db[id] == Entry(Queued, None))
  {
    if items != [] {
      var init, last := items[..|items| - 1], items[|items| - 1];
      RegisterAllDb(st, init);
      NewIdsFacts(st.db, init);
      var r' := RegisterAll(st, init);
      RegisterOneDb(r', last);
    }
  }

  /** The registration loop of `setItems` leaves the 'done' part of the store as it was. */
  lemma RegisterAllKeepsDone(st: State, items: seq<Item>)
    ensures DoneOnly(RegisterAll(st, items).db) == DoneOnly(st.db)
  {
    RegisterAllDb(st, items);
    NewIdsFacts(st.db, items);
    var a, b := DoneOnly(RegisterAll(st, items).db), DoneOnly(st.db);
    assert a.Keys == b.Keys;
  }

  /**
   * The registration loop of `setItems` re-saves the snapshot if it
   * registered anything, and fires, per new id, one donate check and one
   * 'queued' payload.
   */
  lemma {:induction false} RegisterAllPersisted(st: State, items: seq<Item>)
    ensures RegisterAll(st, items).persisted ==
      if NewIds(st.db, items) == [] then st.persisted else DoneOnly(st.db)
  {
    if items != [] {
      var init, last := items[..|items| - 1], items[|items| - 1];
      RegisterAllPersisted(st, init);
      var r' := RegisterAll(st, init);
      var id := last.videoId;
      if id !in r'.db {
        RegisterAllDb(st, init);
        assert NewIds(st.db, items) != [];
        RegisterAllKeepsDone(st, items);
        assert RegisterAll(st, items).persisted == DoneOnly(RegisterAll(st, items).db);
      } else {
        NewIdsFacts(st.db, init);
        RegisterAllDb(st, init);
        assert NewIds(st.db, items) == NewIds(st.db, init);
      }
    }
  }

  /**
   * The callbacks fired by the registration loop of `setItems`: per new id,
   * one donate check and one 'queued' payload.
   */
  lemma {:induction false} RegisterAllEvents(st: State, items: seq<Item>)
    ensures RegisterAll(st, items).events ==
      st.events + RegistrationEvents(NewIds(st.db, items), DonateEvents(st.db, st.settings.canShowDonatePopup))
  {
    if items != [] {
      var init, last := items[..|items| - 1], items[|items| - 1];
      var prev := NewIds(st.db, init);
      var r' := RegisterAll(st, init);
      var d := DonateEvents(st.db, st.settings.canShowDonatePopup);
      RegisterAllEvents(st, init);
      RegisterAllDb(st, init);
      if last.videoId !in r'.db {
        assert NewIds(st.db, items) == prev + [last.videoId];
        assert DonateEvents(r'.db[last.videoId := Entry(Queued, None)], r'.settings.canShowDonatePopup) == d by {
          RegisterAllFrame(st, items);
          RegisterAllFrame(st, init);
          RegisterAllKeepsDone(st, items);
        }
        RegisterEventsStep(r', last, d, st.events, prev);
      } else {
        assert NewIds(st.db, items) == prev;
      }
    }
  }

  lemma RegisterEventsStep(r': State, last: Item, d: seq<Event>, base: seq<Event>, prev: seq<string>)
    requires last.videoId !in r'.db
    requires r'.events == base + RegistrationEvents(prev, d)
    requires DonateEvents(r'.db[last.videoId := Entry(Queued, None)], r'.settings.canShowDonatePopup) == d
    ensures RegisterOne(r', last).events == base + RegistrationEvents(prev + [last.videoId], d)
  {
    var id := last.videoId;
    var ids := prev + [id];
    var su := StatusUpdate(id, Some(Queued), None);
    assert ids[..|ids| - 1] == prev;
    assert RegistrationEvents(ids, d) == RegistrationEvents(prev, d) + d + [su];
    var written := r'.(db := r'.db[id := Entry(Queued, None)]);
    assert RegisterOne(r', last) == SetStatusAndPath(r', id, Queued, None);
    assert Save(written).events == r'.events + d;
    assert SetStatusAndPath(r', id, Queued, None).events == r'.events + d + [su];
  }

  /** The status callback sees one 'queued' payload per registered id. */
  lemma {:induction false} RegistrationUpdates(ids: seq<string>, donate: seq<Event>)
    requires donate == [] || donate == [DonateUpdate]
    ensures StatusUpdates(RegistrationEvents(ids, donate)) == QueuedUpdates(ids)
  {
    if ids != [] {
      var init := ids[..|ids| - 1];
      var su := StatusUpdate(ids[|ids| - 1], Some(Queued), None);
      RegistrationUpdates(init, donate);
      var isStatus := (e: Event) => e.StatusUpdate?;
      FilterAppend(RegistrationEvents(init, donate) + donate, [su], isStatus);
      FilterAppend(RegistrationEvents(init, donate), donate, isStatus);
      assert [su][..0] == [];
      if donate == [DonateUpdate] { assert donate[..0] == []; }
    }
  }

  /**
   * The callbacks fired while registering never mention an id that was
   * already known before the call.
   */
  lemma {:induction false} RegistrationSkipsKnown(ids: seq<string>, donate: seq<Event>, id: string)
    requires donate == [] || donate == [DonateUpdate]
    requires id !in ids
    ensures UpdatesFor(id, RegistrationEvents(ids, donate)) == []
  {
    if ids != [] {
      var init := ids[..|ids| - 1];
      var su := StatusUpdate(ids[|ids| - 1], Some(Queued), None);
      assert id !in init by { assert forall x :: x in init ==> x in ids; }
      RegistrationSkipsKnown(init, donate, id);
      var about := (e: Event) => e.StatusUpdate? && e.videoId == id;
      FilterAppend(RegistrationEvents(init, donate) + donate, [su], about);
      FilterAppend(RegistrationEvents(init, donate), donate, about);
      assert [su][..0] == [];
      if donate == [DonateUpdate] { assert donate[..0] == []; }
    }
  }

  /**
   * After `setItems(items)` the queue holds exactly the items that were not
   * recorded as 'done' or 'error', in their original order, and none of them
   * is 'done' or 'error' in the new store.
   */
  lemma SetItemsFiltersQueue(st: State, items: seq<Item>)
    ensures var r := SetItemsSpec(st, items);
      && r.items == Kept(st.db, items)
      && IsSubsequence(r.items, items)
      && (forall x :: x in r.items <==> x in items && !IsTerminalIn(st.db, x.videoId))
      && (forall i :: 0 <= i < |r.items| ==> !IsTerminalIn(r.db, r.items[i].videoId))
  {
    SetItemsStore(st, items);
    KeptFacts(st, items);
  }

  /** The facts behind `SetItemsFiltersQueue`, about the registration loop and the kept items. */
  lemma KeptFacts(st: State, items: seq<Item>)
    ensures var kept := Kept(st.db, items); var db := RegisterAll(st, items).db;
      && IsSubsequence(kept, items)
      && (forall x :: x in kept <==> x in items && !IsTerminalIn(st.db, x.videoId))
      && (forall i :: 0 <= i < |kept| ==> !IsTerminalIn(db, kept[i].videoId))
  {
    var kept := Kept(st.db, items);
    var db := RegisterAll(st, items).db;
    var keep := (x: Item) => !IsTerminalIn(st.db, x.videoId);
    FilterIsSubsequence(items, keep);
    forall x ensures x in kept <==> x in items && !IsTerminalIn(st.db, x.videoId) {
      FilterMembership(items, keep, x);
    }
    RegisterAllDb(st, items);
    NewIdsFacts(st.db, items);
    forall i | 0 <= i < |kept| ensures !IsTerminalIn(db, kept[i].videoId) {
      var id := kept[i].videoId;
      assert kept[i] in kept;
      assert !IsTerminalIn(st.db, id);
      if id !in st.db {
        assert id in db ==> db[id] == Entry(Queued, None);
      }
    }
  }

  /**
   * `setItems` gives every previously unknown id of the items status 'queued'
   * with a null path and leaves every known entry as it was; the status
   * callback receives one 'queued' payload per new id, each id once, and no
   * other payload.
   */
  lemma SetItemsRegisters(st: State, items: seq<Item>)
    ensures var r := SetItemsSpec(st, items); var ids := NewIds(st.db, items);
      && (forall id :: id in st.db ==> id in r.db && r.db[id] == st.db[id])
      && (forall id :: id !in st.db ==> (id in r.db <==> id in Ids(items)))
      && (forall id :: id in r.db && id !in st.db ==> r.db[id] == Entry(Queued, None))
      && (forall id :: id in ids <==> id !in st.db && id in Ids(items))
      && NoDuplicates(ids)
      && |st.events| <= |r.events| && r.events[..|st.events|] == st.events
      && StatusUpdates(r.events[|st.events|..]) == QueuedUpdates(ids)
      && r.persisted == (if ids == [] then st.persisted else DoneOnly(r.db))
  {
    var ids := NewIds(st.db, items);
    SetItemsStore(st, items);
    var g := RegisterAll(st, items);
    RegisterAllDb(st, items);
    RegisterAllKeepsDone(st, items);
    RegisterAllPersisted(st, items);
    RegisterAllEvents(st, items);
    NewIdsFacts(st.db, items);
    var d := DonateEvents(st.db, st.settings.canShowDonatePopup);
    assert g.events[|st.events|..] == RegistrationEvents(ids, d);
    RegistrationUpdates(ids, d);
  }

  /**
   * The interrupt rule of `setItems`: it interrupts exactly when the head id
   * changes (null for an empty queue). On an interrupt both handles are
   * cleared, `killCurChildProcess` acts on the handles that were set, and one
   * start is scheduled if and only if the new queue is non-empty. Without an
   * interrupt the handles, the kills and the scheduled starts are unchanged.
   * No process is spawned either way.
   */
  lemma SetItemsInterrupts(st: State, items: seq<Item>)
    ensures var r := SetItemsSpec(st, items);
      && r.spawned == st.spawned && r.settings == st.settings
      && (HeadId(st.items) != HeadId(r.items) ==>
            && !r.childProcess && !r.abortController
            && r.interrupts == st.interrupts + KillSignals(st.abortController, st.childProcess)
            && r.pendingStarts == st.pendingStarts + (if |r.items| > 0 then 1 else 0))
      && (HeadId(st.items) == HeadId(r.items) ==>
            && r.childProcess == st.childProcess && r.abortController == st.abortController
            && r.interrupts == st.interrupts
            && r.pendingStarts == st.pendingStarts)
  {
    RegisterAllFrame(st, items);
  }

  /**
   * In the status callback's history of any one id, `setVideoStatusAndPath`
   * appends exactly its own payload when it is about that id, and nothing
   * otherwise.
   */
  lemma SetStatusAndPathUpdatesFor(st: State, id: string, s: Status, p: Option<string>, other: string)
    ensures UpdatesFor(other, SetStatusAndPath(st, id, s, p).events) ==
      UpdatesFor(other, st.events) + (if other == id then [StatusUpdate(id, Some(s), p)] else [])
  {
    var d := DonateEvents(st.db[id := Entry(s, p)], st.settings.canShowDonatePopup);
    assert SetStatusAndPath(st, id, s, p).events == st.events + d + [StatusUpdate(id, Some(s), p)];
    UpdatesForSnoc(other, st.events + d, StatusUpdate(id, Some(s), p));
    UpdatesForDonate(other, st.events, d);
  }

  /** The store and the callbacks after `setItems` are those of its registration loop. */
  lemma SetItemsStore(st: State, items: seq<Item>)
    ensures SetItemsSpec(st, items).items == Kept(st.db, items)
    ensures SetItemsSpec(st, items).db == RegisterAll(st, items).db
    ensures SetItemsSpec(st, items).events == RegisterAll(st, items).events
    ensures SetItemsSpec(st, items).persisted == RegisterAll(st, items).persisted
  {
  }

  /**
   * `setItems` never adds a payload about an id that was already known or
   * that none of the items has, and leaves every known entry as it was.
   */
  lemma SetItemsSkipsKnown(st: State, items: seq<Item>, id: string)
    requires id in st.db || id !in Ids(items)
    ensures UpdatesFor(id, SetItemsSpec(st, items).events) == UpdatesFor(id, st.events)
    ensures id in SetItemsSpec(st, items).db <==> id in st.db
    ensures id in st.db ==> SetItemsSpec(st, items).db[id] == st.db[id]
  {
    var ids := NewIds(st.db, items);
    var d := DonateEvents(st.db, st.settings.canShowDonatePopup);
    SetItemsStore(st, items);
    NewIdsFacts(st.db, items);
    assert id !in ids;
    RegisterAllDb(st, items);
    RegisterAllEvents(st, items);
    RegistrationSkipsKnown(ids, d, id);
    FilterAppend(st.events, RegistrationEvents(ids, d), (e: Event) => e.StatusUpdate? && e.videoId == id);
  }

  /** After `setItems` no queue item has an id recorded as 'done' or 'error' before the call. */
  lemma SetItemsDropsTerminal(st: State, items: seq<Item>, id: string)
    requires IsTerminalIn(st.db, id)
    ensures forall x :: x in SetItemsSpec(st, items).items ==> x.videoId != id
  {
    SetItemsFiltersQueue(st, items);
  }

  /** `deleteVideoStatusAndPath` sends one payload with null fields about a known id, and none otherwise. */
  lemma DeleteStatusAndPathUpdatesFor(st: State, id: string)
    ensures UpdatesFor(id, DeleteStatusAndPath(st, id).events) ==
      UpdatesFor(id, st.events) + (if id in st.db then [StatusUpdate(id, None, None)] else [])
  {
    if id in st.db {
      var d := DonateEvents(st.db - {id}, st.settings.canShowDonatePopup);
      var clear := StatusUpdate(id, None, None);
      var about := (e: Event) => e.StatusUpdate? && e.videoId == id;
      assert DeleteStatusAndPath(st, id).events == st.events + d + [clear];
      FilterAppend(st.events + d, [clear], about);
      FilterAppend(st.events, d, about);
      assert [clear][..0] == [];
      if d != [] { assert d[..0] == []; }
    }
  }

  /** A one-item `setItems` of an item not recorded as finished keeps it and puts it in front. */
  lemma SetItemsSingle(st: State, x: Item)
    requires !IsTerminalIn(st.db, x.videoId)
    ensures var r := SetItemsSpec(st, [x]);
      && r.items == [x]
      && !IsTerminalIn(r.db, x.videoId)
      && (forall id :: id != x.videoId ==> (id in r.db <==> id in st.db))
      && (forall id :: id != x.videoId && id in st.db ==> r.db[id] == st.db[id])
  {
    assert [x][..0] == [];
    SetItemsStore(st, [x]);
    assert RegisterAll(st, [x]) == RegisterOne(st, x);
    assert Kept(st.db, [x]) == [x];
  }

  /**
   * The scheduled starts are not deduplicated: flipping the head from an
   * empty queue to `a`, to `b` and back to `a` leaves three starts pending,
   * each of which will process the head `a` when it fires.
   */
  lemma HeadFlipsStackStarts(st: State, a: Item, b: Item)
    requires st.items == [] && a.videoId != b.videoId
    requires !IsTerminalIn(st.db, a.videoId) && !IsTerminalIn(st.db, b.videoId)
    ensures var s1 := SetItemsSpec(st, [a]); var s2 := SetItemsSpec(s1, [b]); var s3 := SetItemsSpec(s2, [a]);
      s3.items == [a] && s3.pendingStarts == st.pendingStarts + 3
  {
    var s1 := SetItemsSpec(st, [a]);
    SetItemsSingle(st, a);
    SetItemsInterrupts(st, [a]);
    var s2 := SetItemsSpec(s1, [b]);
    SetItemsSingle(s1, b);
    SetItemsInterrupts(s1, [b]);
    SetItemsSingle(s2, a);
    SetItemsInterrupts(s2, [a]);
  }

  /**
   * One turn of the filter of `setItems`: the callback registers the item
   * when its id is unknown, and the status it reads from the store, as the
   * earlier turns left it, is terminal exactly when it was before the call.
   */
  lemma RegisterStep(st: State, items: seq<Item>, i: nat)
    requires i < |items|
    ensures RegisterAll(st, items[..i + 1]) == RegisterOne(RegisterAll(st, items[..i]), items[i])
    ensures Kept(st.db, items[..i + 1]) ==
      Kept(st.db, items[..i]) + (if IsTerminalIn(st.db, items[i].videoId) then [] else [items[i]])
    ensures IsTerminalIn(RegisterAll(st, items[..i]).db, items[i].videoId) <==> IsTerminalIn(st.db, items[i].videoId)
  {
    assert items[..i + 1][..i] == items[..i];
    RegisterAllDb(st, items[..i]);
    NewIdsFacts(st.db, items[..i]);
  }
}
