/**
 * The grid's session state and the autosave tick that reconciles the live
 * order with the last loaded snapshot.
 */
module Autosave {
  import opened MockApi
  import opened Reorder
  import opened Storage

  /**
   * Everything a tick reads or writes: the persisted value, the files of the
   * query's data (`base`), the live order (`live`), the instant shown as last
   * saved, whether a write is in progress, and whether the grid component
   * is mounted at all (it is not while the query's data lacks files).
   */
  datatype SyncState = SyncState(store: Stored, base: seq<Tile>, live: seq<Tile>, lastSaved: string, isUpdating: bool, mounted: bool)

  /**
   * The query reloading (after an invalidation): the loader runs again and
   * `base` becomes the files of what it returns. A loader that throws leaves
   * the previous data in the cache and changes nothing. A document without
   * files makes the page show the error view, which unmounts the grid and
   * clears its poll; a document with files mounts the grid again when it was
   * unmounted, with its state started from that document.
   */
  function Refresh(st: SyncState, seed: AppData): (r: SyncState)
    ensures r.store == StoredAfterLoad(st.store, seed)
    ensures LoadResultOf(st.store, seed).Threw? ==> r == st
    ensures LoadResultOf(st.store, seed).Loaded? ==>
      var doc := LoadResultOf(st.store, seed).doc;
      && r.mounted == DocHasFiles(doc)
      && (DocHasFiles(doc) ==> r.base == doc.files.value)
      && (DocHasFiles(doc) && st.mounted ==>
            r.live == st.live && r.lastSaved == st.lastSaved && r.isUpdating == st.isUpdating)
      && (DocHasFiles(doc) && !st.mounted ==>
            r.live == doc.files.value && r.lastSaved == doc.timestamp && !r.isUpdating)
  {
    var res := LoadResultOf(st.store, seed);
    var v := StoredAfterLoad(st.store, seed);
    if res.Threw? then st.(store := v)
    else if !DocHasFiles(res.doc) then st.(store := v, base := FilesOrEmpty(res.doc), mounted := false)
    else if st.mounted then st.(store := v, base := FilesOrEmpty(res.doc))
    else
      var files := FilesOrEmpty(res.doc);
      SyncState(v, files, files, res.doc.timestamp, false, true)
  }

  /**
   * One reconcile tick at instant `now`. With the grid unmounted there is no
   * poll, and in sync there is nothing to do: nothing changes.
   * Otherwise the live order is persisted with `now` as its timestamp,
   * `lastSaved` becomes `now`, the write is over, and after the cache
   * refresh the base is the live order: the next tick is quiet.
   */
  function Reconcile(st: SyncState, now: string, seed: AppData): (r: SyncState)
    ensures r.live == st.live && r.mounted == st.mounted
    ensures !st.mounted || st.live == st.base ==> r == st
    ensures st.mounted && st.live != st.base ==>
      && r.store == Json(Serialize(AppData(st.live, now)))
      && r.lastSaved == now
      && !r.isUpdating
      && r.base == st.live
  {
    if !st.mounted || st.live == st.base then st
    else
      var written := st.(store := Json(Serialize(AppData(st.live, now))), lastSaved := now, isUpdating := false);
      Refresh(written, seed)
  }

  /** A drop event applied to the session; with the grid unmounted no monitor listens. */
  function Drop(st: SyncState, source: Tile, dropTargets: seq<Tile>): SyncState
  {
    if st.mounted then st.(live := AfterDrop(st.live, source, dropTargets)) else st
  }

  /** Once a tick has run, further ticks with no drop in between write nothing. */
  lemma TickSettles(st: SyncState, t1: string, t2: string, seed: AppData)
    ensures var r := Reconcile(st, t1, seed); Reconcile(r, t2, seed) == r
  {
  }

  /**
   * Two drops that undo each other between two ticks (a onto b, then b onto
   * a) leave the session in sync, so the tick writes nothing.
   */
  lemma CoalescedSwapsWriteNothing(st: SyncState, a: Tile, b: Tile, now: string, seed: AppData)
    requires st.mounted && st.live == st.base
    requires Distinct(st.live) && a in st.live && b in st.live
    ensures var st2 := Drop(Drop(st, a, [b]), b, [a]);
      st2 == st && Reconcile(st2, now, seed) == st
  {
    var s1 := Swapped(st.live, a, b);
    SwapExchanges(st.live, a, b);
    assert a in s1 by { assert s1[IndexOf(st.live, b)] == a; }
    assert b in s1 by { assert s1[IndexOf(st.live, a)] == b; }
    SwapSymmetric(s1, b, a);
    SwapTwiceRestores(st.live, a, b);
  }

  /**
   * While the grid is mounted its live order is never reloaded from the
   * cache: when another writer
   * replaces the stored files with a different order and the cache is
   * refreshed, the base follows the store but the next tick writes the live
   * order back over it.
   */
  lemma ExternalOverwriteIsReverted(st: SyncState, other: AppData, now: string, seed: AppData)
    requires st.mounted && other.files != st.live
    ensures var st1 := Refresh(st.(store := Json(Serialize(other))), seed);
      && st1.base == other.files
      && st1.live == st.live
      && Reconcile(st1, now, seed).store == Json(Serialize(AppData(st.live, now)))
  {
  }

  /**
   * A reload that yields data without files (another writer stored `null`
   * or an object without `files`) unmounts the grid: the stored value stays,
   * and from then on neither ticks nor drops change anything.
   */
  lemma ReloadWithoutFilesStopsAutosave(st: SyncState, doc: Document, now: string, seed: AppData, source: Tile, dropTargets: seq<Tile>)
    requires !DocHasFiles(doc)
    ensures var r := Refresh(st.(store := Json(doc)), seed);
      && !r.mounted
      && r.store == Json(doc)
      && Reconcile(r, now, seed) == r
      && Drop(r, source, dropTargets) == r
  {
  }

  /** A later reload that yields files mounts the grid again, its live order taken from them. */
  lemma ReloadRemountsFromFiles(st: SyncState, data: AppData, seed: AppData)
    requires !st.mounted
    ensures var r := Refresh(st.(store := Json(Serialize(data))), seed);
      && r.mounted
      && r.live == data.files == r.base
      && r.lastSaved == data.timestamp
      && !r.isUpdating
  {
  }

  /** What can happen to a session between two renders. */
  datatype Event = DropEv(drop: DropEvent) | TickEv(now: string)

  /** One event applied to the session. */
  function Step(st: SyncState, e: Event, seed: AppData): SyncState
  {
    match e
    case DropEv(d) => Drop(st, d.source, d.dropTargets)
    case TickEv(now) => Reconcile(st, now, seed)
  }

  function Run(st: SyncState, events: seq<Event>, seed: AppData): SyncState
    decreases |events|
  {
    if |events| == 0 then st else Run(Step(st, events[0], seed), events[1..], seed)
  }

  /** The store holds a snapshot whose files are exactly the tiles `tiles`. */
  predicate StoresTiles(v: Stored, tiles: multiset<Tile>)
  {
    v.Json? && v.doc.Record? && v.doc.files.Some? && multiset(v.doc.files.value) == tiles
  }

  /** One drop among the grid's tiles, or one tick, keeps the tiles of the live order and of the store. */
  lemma StepPreservesTiles(st: SyncState, e: Event, seed: AppData)
    requires e.DropEv? ==> DropUses(e.drop, multiset(st.live))
    ensures multiset(Step(st, e, seed).live) == multiset(st.live)
    ensures StoresTiles(st.store, multiset(st.live)) ==> StoresTiles(Step(st, e, seed).store, multiset(st.live))
  {
    if e.DropEv? && st.mounted {
      DropsPreserveTiles(st.live, [e.drop]);
      assert ApplyDrops(st.live, [e.drop]) == Step(st, e, seed).live by {
        assert [e.drop][1..] == [];
      }
    }
  }

  /**
   * Under any interleaving of drops among the grid's own tiles and ticks,
   * the live order stays a permutation of the tiles it started with, and a
   * store that held a permutation of them still holds one.
   */
  lemma {:induction false} RunPreservesTiles(st: SyncState, events: seq<Event>, seed: AppData)
    requires forall e :: e in events && e.DropEv? ==> DropUses(e.drop, multiset(st.live))
    ensures multiset(Run(st, events, seed).live) == multiset(st.live)
    ensures StoresTiles(st.store, multiset(st.live)) ==> StoresTiles(Run(st, events, seed).store, multiset(st.live))
    decreases |events|
  {
    if |events| > 0 {
      assert events[0] in events;
      StepPreservesTiles(st, events[0], seed);
      assert forall x :: x in events[1..] ==> x in events;
      RunPreservesTiles(Step(st, events[0], seed), events[1..], seed);
    }
  }

  /** The grid component's state together with the store it saves to. */
  class Session {
    const storage: LocalStore
    const seed: AppData
    var base: seq<Tile>
    var live: seq<Tile>
    var lastSaved: string
    var isUpdating: bool
    var mounted: bool

    function State(): SyncState
      reads this, storage
    {
      SyncState(storage.value, base, live, lastSaved, isUpdating, mounted)
    }

    /** Mounting the grid with the loaded `data`: the live order starts as its files. */
    constructor (storage: LocalStore, seed: AppData, data: AppData)
      ensures this.storage == storage && this.seed == seed
      ensures State() == SyncState(storage.value, data.files, data.files, data.timestamp, false, true)
    {
      this.storage := storage;
      this.seed := seed;
      base := data.files;
      live := data.files;
      lastSaved := data.timestamp;
      isUpdating := false;
      mounted := true;
    }

    /** The monitor's `onDrop` followed by `setGridItems`. */
    method HandleDrop(source: Tile, dropTargets: seq<Tile>)
      modifies this
      ensures State() == Drop(old(State()), source, dropTargets)
    {
      if mounted {
        live := OnDrop(live, source, dropTargets);
      }
    }

    /**
     * `queryClient.invalidateQueries()`: reload and take the loaded files as
     * the base; data without files unmounts the grid, data with files mounts
     * it again if it was unmounted.
     */
    method Invalidate()
      modifies this, storage
      ensures State() == Refresh(old(State()), seed)
    {
      var r := storage.QueryFn(seed);
      if r.Loaded? {
        base := FilesOrEmpty(r.doc);
        if !DocHasFiles(r.doc) {
          mounted := false;
        } else if !mounted {
          live := base;
          lastSaved := r.doc.timestamp;
          isUpdating := false;
          mounted := true;
        }
      }
    }

    /** One reconcile tick at instant `now`, the write delay elapsed at once. */
    method Tick(now: string)
      modifies this, storage
      ensures State() == Reconcile(old(State()), now, seed)
    {
      if !mounted || live == base {
        return;
      }
      isUpdating := true;
      var appData := AppData(live, now);
      storage.SetItem(appData);
      lastSaved := appData.timestamp;
      isUpdating := false;
      Invalidate();
    }
  }
}
