/**
 * The synchronization engine: a full run copies every item to the lake and records the
 * checkpoints a later run starts from; an incremental run copies the changes since the stored
 * delta cursor, as tagged records and deletion tombstones, and moves that cursor on.
 *
 * Each run is specified by a function from the observable world (the GraphQL transport's
 * remaining replies and request log, the lake, the configuration store) to the world after
 * the run and the error it raised, if any.
 */
module Synchronization {
  import opened Wrappers
  import opened Errors
  import opened Json
  import opened Sets
  import opened GqlClient
  import opened DeltaFetching
  import opened ItemFetching
  import opened DataTransformation
  import opened Configuration
  import opened DataLake

  const MutationTypeKey := "mutationType"
  const FileSystemName := "filesystem"
  const Separator := "."
  /** The page size of an incremental run's delta walk. */
  const ChangesPageSize: int := 10000

  datatype World = World(script: seq<Attempt>, log: seq<Request>, lake: Lake, store: Store)

  /** What a synchronizer is built from: its name, its three queries and its state key prefix. */
  datatype Setup = Setup(name: string, deltaQuery: string, byIdsQuery: string, afterCursorQuery: string, prefix: string)

  /** A value computed by one step of a run, or the error it raised, and the world after it. */
  datatype Step<T> = Step(result: Result<T, Error>, world: World)

  /** The world after a run, and the error that ended it early, if any. */
  datatype Run = Run(world: World, err: Option<Error>)

  /** The order in which the run listed each of the three id sets. */
  datatype Orders = Orders(additions: seq<Json>, updates: seq<Json>, deletions: seq<Json>)

  /** The file a run writes, from the timestamp it is given and the synchronizer's name. */
  function FileName(now: string, name: string): string {
    now + "-" + name + ".parquet"
  }

  /* ---------- the steps of a run ---------- */

  function Paginated(w: World, query: string, vars: Variables): Step<PaginationQueryResult> {
    var walk := Walk(w.script, query, vars);
    Step(walk.result, w.(script := walk.remaining, log := w.log + walk.requests))
  }

  function FetchedDeltas(w: World, s: Setup, vars: Variables): Step<DeltasResult> {
    var p := Paginated(w, s.deltaQuery, vars);
    Step(Deltas(p.result), p.world)
  }

  /** The items of a walk and its last cursor. */
  function FetchedItems(w: World, query: string, vars: Variables): Step<(seq<Json>, Cursor)> {
    var p := Paginated(w, query, vars);
    if p.result.Failure? then Step(Failure(p.result.error), p.world)
    else Step(Success((p.result.value.GetNodes(), p.result.value.GetLastCursor())), p.world)
  }

  function FetchedByIds(w: World, s: Setup, ids: seq<Json>): Step<(seq<Json>, Cursor)> {
    if ids == [] then Step(Success(([], None)), w)
    else FetchedItems(w, s.byIdsQuery, ByIdsVariables(ids, DefaultPageSize))
  }

  /** `add_key_value_to_items("mutationType", tag)`: the tagged items, or ValueError at a non-dict. */
  function TaggedBatch(items: seq<Json>, tag: string): Result<seq<Json>, Error> {
    if FirstNonDict(items) < |items| then Failure(ValueError(NotADictMessage))
    else Success(Tagged(items, MutationTypeKey, Str(tag)))
  }

  /** The items with the given ids, fetched and tagged. */
  function Resolved(w: World, s: Setup, ids: seq<Json>, tag: string): Step<seq<Json>> {
    var it := FetchedByIds(w, s, ids);
    if it.result.Failure? then Step(Failure(it.result.error), it.world)
    else Step(TaggedBatch(it.result.value.0, tag), it.world)
  }

  function Tombstone(dbId: Json): Json {
    Obj([("dbId", dbId), (MutationTypeKey, Str(Deleted))])
  }

  /** One tombstone per deleted id, in the order given. */
  function Tombstones(ids: seq<Json>): (ts: seq<Json>)
    ensures |ts| == |ids| && forall i :: 0 <= i < |ids| ==> ts[i] == Tombstone(ids[i])
  {
    if ids == [] then [] else Tombstones(ids[..|ids| - 1]) + [Tombstone(ids[|ids| - 1])]
  }

  /** The batch flattened and written to `filesystem/<name>/<now>-<name>.parquet`. */
  function WrittenBatch(w: World, s: Setup, now: string, dicts: seq<Json>): Result<World, Error> {
    var written := Written(w.lake, FileSystemName, s.name, FileName(now, s.name), FlattenedAll(dicts, Separator));
    if written.Failure? then Failure(written.error) else Success(w.(lake := written.value))
  }

  /** The checkpoints saved in order, the first failure ending the run. */
  function SavedStates(w: World, s: Setup, saves: seq<(string, Value)>): Run
    decreases |saves|
  {
    if saves == [] then Run(w, None)
    else
      var a := Assign(w.store, s.prefix + saves[0].0, saves[0].1);
      if a.Failure? then Run(w, Some(a.error))
      else SavedStates(w.(store := a.value), s, saves[1..])
  }

  /** The batch written, and only then the checkpoints. */
  function Checkpointed(w: World, s: Setup, now: string, dicts: seq<Json>, saves: seq<(string, Value)>): Run {
    var written := WrittenBatch(w, s, now, dicts);
    if written.Failure? then Run(w, Some(written.error))
    else SavedStates(written.value, s, saves)
  }

  /* ---------- the two runs ---------- */

  const LastDeltaRequest: Variables := map["last" := Num(1)]

  /** The high-water mark of a full run: the last delta, fetched before anything else. */
  function FullDeltas(w: World, s: Setup): Step<DeltasResult> {
    FetchedDeltas(w, s, LastDeltaRequest)
  }

  /** The full item walk, from no cursor, after the high-water mark. */
  function FullItems(w: World, s: Setup): Step<(seq<Json>, Cursor)> {
    FetchedItems(FullDeltas(w, s).world, s.afterCursorQuery, AfterCursorVariables(None, DefaultPageSize))
  }

  /** `_full_syncronization`. */
  function FullSync(w: World, s: Setup, now: string): Run {
    var d := FullDeltas(w, s);
    if d.result.Failure? then Run(d.world, Some(d.result.error))
    else
      var it := FullItems(w, s);
      if it.result.Failure? then Run(it.world, Some(it.result.error))
      else if it.result.value.0 == [] then Run(it.world, None)
      else
        var tagged := TaggedBatch(it.result.value.0, Added);
        if tagged.Failure? then Run(it.world, Some(tagged.error))
        else Checkpointed(it.world, s, now, tagged.value, FullCheckpoints(it.result.value.1, d.result.value.lastCursor))
  }

  /** The checkpoints of a full run, in the order they are saved. */
  function FullCheckpoints(itemsCursor: Cursor, deltasCursor: Cursor): seq<(string, Value)> {
    [(InitialSyncCursorKey, itemsCursor), (InitialSyncCompleteKey, CompleteValue(true)), (DeltasCursorKey, deltasCursor)]
  }

  function ChangesRequest(cursor: Value): Variables {
    map["first" := Num(ChangesPageSize), "after" := CursorValue(cursor)]
  }

  /** The stored delta cursor read, then the deltas since it fetched. */
  function ChangesFetched(w: World, s: Setup): Step<DeltasResult> {
    var c := ReadState(w.store, s.prefix + DeltasCursorKey);
    if c.Failure? then Step(Failure(c.error), w)
    else FetchedDeltas(w, s, ChangesRequest(c.value))
  }

  /** The run's listings of the three id sets list the sets it fetched. */
  predicate OrdersFit(o: Orders, d: Step<DeltasResult>) {
    d.result.Success? ==>
      Lists(o.additions, d.result.value.additions) && Lists(o.updates, d.result.value.updates)
      && Lists(o.deletions, d.result.value.deletions)
  }

  /** `_syncronize_changes`. */
  function IncrementalSync(w: World, s: Setup, now: string, o: Orders): Run {
    var d := ChangesFetched(w, s);
    if d.result.Failure? then Run(d.world, Some(d.result.error))
    else if !d.result.value.HasChanges() then Run(d.world, None)
    else ChangesBatch(d.world, s, now, d.result.value, o)
  }

  /** One part of an incremental batch: the ids resolved and tagged when the set is non-empty, else nothing. */
  function Part(w: World, s: Setup, present: bool, ids: seq<Json>, tag: string): Step<seq<Json>> {
    if present then Resolved(w, s, ids, tag) else Step(Success([]), w)
  }

  /** The batch of an incremental run: resolved additions, then resolved updates, then tombstones. */
  function Collected(w: World, s: Setup, deltas: DeltasResult, o: Orders): Step<seq<Json>> {
    var a := Part(w, s, deltas.HasAdditions(), o.additions, Added);
    if a.result.Failure? then a
    else
      var u := Part(a.world, s, deltas.HasUpdates(), o.updates, Updated);
      if u.result.Failure? then u
      else
        var t := if deltas.HasDeletions() then Tombstones(o.deletions) else [];
        Step(Success(a.result.value + u.result.value + t), u.world)
  }

  /** The batch collected and written; then the delta cursor moved on. */
  function ChangesBatch(w: World, s: Setup, now: string, deltas: DeltasResult, o: Orders): Run {
    var c := Collected(w, s, deltas, o);
    if c.result.Failure? then Run(c.world, Some(c.result.error))
    else Checkpointed(c.world, s, now, c.result.value, [(DeltasCursorKey, deltas.lastCursor)])
  }

  /** `syncronize(sync_from_scratch)`. */
  function Synchronized(w: World, s: Setup, syncFromScratch: bool, now: string, o: Orders): Run {
    if syncFromScratch then FullSync(w, s, now) else IncrementalSync(w, s, now, o)
  }

  /* ---------- the engine ---------- */

  class DataSynchronizer {
    const name: string
    const deltaFetcher: DeltaFetcher
    const itemFetcher: ItemFetcher
    const dataLakeWriter: DataLakeWriter
    const stateManager: SynchronizerStateManager

    constructor(name: string, deltaFetcher: DeltaFetcher, itemFetcher: ItemFetcher,
                dataLakeWriter: DataLakeWriter, stateManager: SynchronizerStateManager)
      ensures this.name == name && this.deltaFetcher == deltaFetcher && this.itemFetcher == itemFetcher
      ensures this.dataLakeWriter == dataLakeWriter && this.stateManager == stateManager
    {
      this.name := name;
      this.deltaFetcher := deltaFetcher;
      this.itemFetcher := itemFetcher;
      this.dataLakeWriter := dataLakeWriter;
      this.stateManager := stateManager;
    }

    /** Both fetchers talk to the API through one client. */
    predicate Valid() {
      itemFetcher.graphqlClient == deltaFetcher.graphqlClient
    }

    function Wiring(): Setup {
      Setup(name, deltaFetcher.query, itemFetcher.queryByDbids, itemFetcher.queryByCursor, stateManager.prefix)
    }

    function Observe(): World
      reads deltaFetcher.graphqlClient, dataLakeWriter, stateManager.client
    {
      World(deltaFetcher.graphqlClient.script, deltaFetcher.graphqlClient.log,
            dataLakeWriter.Contents(), stateManager.client.Snapshot())
    }

    method Syncronize(syncFromScratch: bool, now: string) returns (err: Option<Error>, ghost orders: Orders)
      requires Valid()
      modifies deltaFetcher.graphqlClient, dataLakeWriter, stateManager.client
      ensures !syncFromScratch ==> OrdersFit(orders, ChangesFetched(old(Observe()), Wiring()))
      ensures Run(Observe(), err) == Synchronized(old(Observe()), Wiring(), syncFromScratch, now, orders)
    {
      if syncFromScratch {
        orders := Orders([], [], []);
        err := FullSyncronization(now);
      } else {
        err, orders := SyncronizeChanges(now);
      }
    }

    method FullSyncronization(now: string) returns (err: Option<Error>)
      requires Valid()
      modifies deltaFetcher.graphqlClient, dataLakeWriter, stateManager.client
      ensures Run(Observe(), err) == FullSync(old(Observe()), Wiring(), now)
    {
      ghost var w0 := Observe();
      var deltas := deltaFetcher.FetchDeltas(map["last" := Num(1)]);
      ghost var d := FullDeltas(w0, Wiring());
      assert deltas == d.result && Observe() == d.world;
      if deltas.Failure? {
        return Some(deltas.error);
      }
      var items := itemFetcher.FetchAllItemsAfterCursor();
      ghost var it := FullItems(w0, Wiring());
      assert Observe() == it.world;
      if items.Failure? {
        return Some(items.error);
      }
      assert it.result == Success((items.value.items, items.value.cursor));
      if !items.value.HasItems() {
        return None;
      }
      var tagErr := items.value.AddKeyValueToItems(MutationTypeKey, Str(Added));
      if tagErr.Some? {
        return tagErr;
      }
      assert FullSync(w0, Wiring(), now) == Checkpointed(it.world, Wiring(), now, items.value.items, FullCheckpoints(items.value.cursor, deltas.value.lastCursor));
      err := WriteInitialSync(items.value.GetItems(), items.value.GetLastItemCursor(), deltas.value.lastCursor, now);
    }

    /** The tagged items written, then the three checkpoints of a full run saved in order. */
    method WriteInitialSync(dicts: seq<Json>, itemsCursor: Cursor, deltasCursor: Cursor, now: string) returns (err: Option<Error>)
      modifies dataLakeWriter, stateManager.client
      ensures Run(Observe(), err) == Checkpointed(old(Observe()), Wiring(), now, dicts, FullCheckpoints(itemsCursor, deltasCursor))
    {
      ghost var saves := FullCheckpoints(itemsCursor, deltasCursor);
      err := WriteBatch(dicts, now);
      if err.Some? {
        return;
      }
      ghost var w1 := Observe();
      err := stateManager.SetInitialSyncCursor(itemsCursor);
      if err.Some? {
        return;
      }
      assert SavedStates(w1, Wiring(), saves) == SavedStates(Observe(), Wiring(), saves[1..]);
      ghost var w2 := Observe();
      err := stateManager.SetInitialSyncComplete(true);
      if err.Some? {
        return;
      }
      assert SavedStates(w2, Wiring(), saves[1..]) == SavedStates(Observe(), Wiring(), saves[2..]);
      ghost var w3 := Observe();
      err := stateManager.SetDeltasCursor(deltasCursor);
      assert SavedStates(w3, Wiring(), saves[2..]) == Run(Observe(), err) by {
        if err.None? {
          assert saves[2..][1..] == [];
        }
      }
    }

    /** The batch flattened and written to the lake (the transform and write steps of both runs). */
    method WriteBatch(dicts: seq<Json>, now: string) returns (err: Option<Error>)
      modifies dataLakeWriter
      ensures var written := WrittenBatch(old(Observe()), Wiring(), now, dicts);
        (written.Success? ==> Observe() == written.value && err == None)
        && (written.Failure? ==> Observe() == old(Observe()) && err == Some(written.error))
    {
      var records := FlattenListOfDicts(dicts);
      assert records == FlattenedAll(dicts, Separator);
      err := dataLakeWriter.WriteData(FileSystemName, name, FileName(now, name), records);
    }

    /** The items with the given ids, fetched and tagged (a branch of `_syncronize_changes`). */
    method ResolveChanges(ids: seq<Json>, tag: string) returns (r: Result<seq<Json>, Error>)
      requires Valid()
      modifies deltaFetcher.graphqlClient
      ensures Step(r, Observe()) == Resolved(old(Observe()), Wiring(), ids, tag)
    {
      var fetched := itemFetcher.FetchItemsByIds(ids);
      if fetched.Failure? {
        return Failure(fetched.error);
      }
      var tagErr := fetched.value.AddKeyValueToItems(MutationTypeKey, Str(tag));
      if tagErr.Some? {
        return Failure(tagErr.value);
      }
      return Success(fetched.value.GetItems());
    }

    method SyncronizeChanges(now: string) returns (err: Option<Error>, ghost orders: Orders)
      requires Valid()
      modifies deltaFetcher.graphqlClient, dataLakeWriter, stateManager.client
      ensures OrdersFit(orders, ChangesFetched(old(Observe()), Wiring()))
      ensures Run(Observe(), err) == IncrementalSync(old(Observe()), Wiring(), now, orders)
    {
      ghost var w0 := Observe();
      orders := Orders([], [], []);
      var cursor := stateManager.GetDeltasCursor();
      if cursor.Failure? {
        err := Some(cursor.error);
        return;
      }
      var deltas := deltaFetcher.FetchDeltas(map["first" := Num(10000), "after" := CursorValue(cursor.value)]);
      assert Step(deltas, Observe()) == ChangesFetched(w0, Wiring());
      if deltas.Failure? {
        err := Some(deltas.error);
        return;
      }
      var d := deltas.value;
      orders := Orders(Listing(d.additions), Listing(d.updates), Listing(d.deletions));
      if !d.HasChanges() {
        return None, orders;
      }
      err, orders := WriteChanges(d, now);
    }

    /** The batch of `_syncronize_changes` collected and written, then `deltas_cursor` saved. */
    method WriteChanges(d: DeltasResult, now: string) returns (err: Option<Error>, ghost orders: Orders)
      requires Valid()
      modifies deltaFetcher.graphqlClient, dataLakeWriter, stateManager.client
      ensures Lists(orders.additions, d.additions) && Lists(orders.updates, d.updates) && Lists(orders.deletions, d.deletions)
      ensures Run(Observe(), err) == ChangesBatch(old(Observe()), Wiring(), now, d, orders)
    {
      var allChangedItems;
      allChangedItems, orders := CollectChanges(d);
      if allChangedItems.Failure? {
        err := Some(allChangedItems.error);
        return;
      }
      err := WriteBatch(allChangedItems.value, now);
      if err.Some? {
        return;
      }
      ghost var w1 := Observe();
      err := stateManager.SetDeltasCursor(d.lastCursor);
      assert SavedStates(w1, Wiring(), [(DeltasCursorKey, d.lastCursor)]) == Run(Observe(), err) by {
        if err.None? {
          assert [(DeltasCursorKey, d.lastCursor)][1..] == [];
        }
      }
    }

    /** The batch of `_syncronize_changes`, in the order additions, updates, tombstones. */
    method CollectChanges(d: DeltasResult) returns (r: Result<seq<Json>, Error>, ghost orders: Orders)
      requires Valid()
      modifies deltaFetcher.graphqlClient
      ensures Lists(orders.additions, d.additions) && Lists(orders.updates, d.updates) && Lists(orders.deletions, d.deletions)
      ensures Step(r, Observe()) == Collected(old(Observe()), Wiring(), d, orders)
    {
      ghost var w0 := Observe();
      var additionIds := d.GetAdditions();
      var additions := ResolvePart(d.HasAdditions(), additionIds, Added);
      if additions.Failure? {
        return Failure(additions.error), Orders(additionIds, Listing(d.updates), Listing(d.deletions));
      }
      var updateIds := d.GetUpdates();
      var updates := ResolvePart(d.HasUpdates(), updateIds, Updated);
      if updates.Failure? {
        return Failure(updates.error), Orders(additionIds, updateIds, Listing(d.deletions));
      }
      var deletionIds := d.GetDeletions();
      var deletions := if d.HasDeletions() then Tombstones(deletionIds) else [];
      orders := Orders(additionIds, updateIds, deletionIds);
      r := Success(additions.value + updates.value + deletions);
      assert Collected(w0, Wiring(), d, orders) == Step(r, Observe());
    }

    /** One part of the batch: `fetch_items_by_ids` and tagging, when the id set is non-empty. */
    method ResolvePart(present: bool, ids: seq<Json>, tag: string) returns (r: Result<seq<Json>, Error>)
      requires Valid()
      modifies deltaFetcher.graphqlClient
      ensures Step(r, Observe()) == Part(old(Observe()), Wiring(), present, ids, tag)
    {
      if !present {
        return Success([]);
      }
      r := ResolveChanges(ids, tag);
    }
  }

  /* ---------- properties of the runs ---------- */

  /** Every record of xs is a dict tagged `mutationType = tag`. */
  predicate AllTagged(xs: seq<Json>, tag: string) {
    forall i :: 0 <= i < |xs| ==> xs[i].Obj? && Get(xs[i].fields, MutationTypeKey) == Some(Str(tag))
  }

  /** The settings written for checkpoints, under the prefix, in order. */
  function Keyed(prefix: string, saves: seq<(string, Value)>): (ks: seq<(string, Value)>)
    ensures |ks| == |saves| && forall i :: 0 <= i < |saves| ==> ks[i] == (prefix + saves[i].0, saves[i].1)
  {
    if saves == [] then [] else Keyed(prefix, saves[..|saves| - 1]) + [(prefix + saves[|saves| - 1].0, saves[|saves| - 1].1)]
  }

  /**
   * Tagging succeeds exactly when every item is a dict; then it keeps the items' number and
   * order, tags each one and leaves its other keys as they were.
   */
  lemma TaggedBatchTags(items: seq<Json>, tag: string)
    ensures TaggedBatch(items, tag).Success? <==> forall i :: 0 <= i < |items| ==> items[i].Obj?
    ensures TaggedBatch(items, tag).Failure? ==> TaggedBatch(items, tag).error == ValueError(NotADictMessage)
    ensures TaggedBatch(items, tag).Success? ==>
      var tagged := TaggedBatch(items, tag).value;
      |tagged| == |items| && AllTagged(tagged, tag)
      && forall i, k :: 0 <= i < |items| && k != MutationTypeKey ==> Get(tagged[i].fields, k) == Get(items[i].fields, k)
  {
    if FirstNonDict(items) == |items| {
      var tagged := TaggedBatch(items, tag).value;
      forall i | 0 <= i < |items|
        ensures tagged[i].Obj? && Get(tagged[i].fields, MutationTypeKey) == Some(Str(tag))
        ensures forall k :: k != MutationTypeKey ==> Get(tagged[i].fields, k) == Get(items[i].fields, k)
      {
        SetKeyBeforeReads(items, |items|, MutationTypeKey, Str(tag), i);
      }
    }
  }

  /** A tombstone is a dict tagged DELETED that names its id. */
  lemma TombstoneReads(dbId: Json)
    ensures Get(Tombstone(dbId).fields, MutationTypeKey) == Some(Str(Deleted))
    ensures Get(Tombstone(dbId).fields, "dbId") == Some(dbId)
  {
    var fs := Tombstone(dbId).fields;
    assert "dbId" != MutationTypeKey by {
      assert "dbId"[0] != MutationTypeKey[0];
    }
    KeyIndexUnique(fs, "dbId", 0);
    KeyIndexUnique(fs, MutationTypeKey, 1);
  }

  lemma TombstonesTagged(ids: seq<Json>)
    ensures AllTagged(Tombstones(ids), Deleted)
    ensures forall i :: 0 <= i < |ids| ==> Get(Tombstones(ids)[i].fields, "dbId") == Some(ids[i])
  {
    forall i | 0 <= i < |ids|
      ensures Get(Tombstones(ids)[i].fields, MutationTypeKey) == Some(Str(Deleted))
      ensures Get(Tombstones(ids)[i].fields, "dbId") == Some(ids[i])
    {
      TombstoneReads(ids[i]);
    }
  }

  /**
   * The checkpoints are saved in the order given, the run stopping at the first that fails;
   * only the store changes, and what it records is a prefix of the checkpoints.
   */
  lemma {:induction false} SavedStatesInOrder(w: World, s: Setup, saves: seq<(string, Value)>) returns (n: nat)
    ensures n <= |saves|
    ensures var r := SavedStates(w, s, saves);
      r.world == w.(store := r.world.store)
      && r.world.store.revisions == w.store.revisions + Keyed(s.prefix, saves[..n])
      && r.world.store.unavailable == w.store.unavailable
      && (r.err.None? <==> n == |saves|) && (r.err.Some? ==> r.err == Some(AzureError))
    decreases |saves|
  {
    if saves == [] {
      return 0;
    }
    var a := Assign(w.store, s.prefix + saves[0].0, saves[0].1);
    if a.Failure? {
      assert saves[..0] == [];
      return 0;
    }
    var m := SavedStatesInOrder(w.(store := a.value), s, saves[1..]);
    n := m + 1;
    assert saves[..n] == [saves[0]] + saves[1..][..m];
    assert Keyed(s.prefix, saves[..n]) == [(s.prefix + saves[0].0, saves[0].1)] + Keyed(s.prefix, saves[1..][..m]);
  }

  /**
   * Nothing is saved unless the batch was written first: a failed write ends the run with
   * the world unchanged; the transport is never touched.
   */
  lemma CheckpointedAfterWrite(w: World, s: Setup, now: string, dicts: seq<Json>, saves: seq<(string, Value)>) returns (n: nat)
    ensures n <= |saves|
    ensures var r := Checkpointed(w, s, now, dicts, saves);
      var written := WrittenBatch(w, s, now, dicts);
      r.world.script == w.script && r.world.log == w.log
      && (written.Failure? ==> r == Run(w, Some(DataLakeError)))
      && (written.Success? ==>
            r.world.lake == written.value.lake
            && r.world.store.revisions == w.store.revisions + Keyed(s.prefix, saves[..n])
            && (r.err.None? <==> n == |saves|))
  {
    var written := WrittenBatch(w, s, now, dicts);
    if written.Success? {
      n := SavedStatesInOrder(written.value, s, saves);
    } else {
      n := 0;
    }
  }

  /** A fetch step moves the transport on by its walk and leaves the lake and the store alone. */
  lemma FetchedItemsFrame(w: World, query: string, vars: Variables)
    ensures var it := FetchedItems(w, query, vars);
      var walk := Walk(w.script, query, vars);
      it.world == w.(script := walk.remaining, log := w.log + walk.requests)
      && |walk.requests| >= 1 && walk.requests[0] == Request(query, vars)
  {
    WalkRequests(w.script, query, vars, [], None);
  }

  /**
   * A full run asks for the last delta before anything else, and starts the item walk from
   * no cursor (`after` null) right after the delta walk ends.
   */
  lemma FullSyncFetchOrder(w: World, s: Setup, now: string)
    ensures var r := FullSync(w, s, now);
      |r.world.log| > |w.log| && r.world.log[|w.log|] == Request(s.deltaQuery, LastDeltaRequest)
    ensures var d := FullDeltas(w, s);
      var r := FullSync(w, s, now);
      d.result.Success? ==>
        |r.world.log| > |d.world.log|
        && r.world.log[|d.world.log|] == Request(s.afterCursorQuery, AfterCursorVariables(None, DefaultPageSize))
        && AfterCursorVariables(None, DefaultPageSize)["after"] == Null
        && AfterCursorVariables(None, DefaultPageSize)["first"] == Num(10000)
  {
    var d := FullDeltas(w, s);
    var r := FullSync(w, s, now);
    WalkRequests(w.script, s.deltaQuery, LastDeltaRequest, [], None);
    assert d.world.log == w.log + Walk(w.script, s.deltaQuery, LastDeltaRequest).requests;
    if d.result.Success? {
      var it := FullItems(w, s);
      FetchedItemsFrame(d.world, s.afterCursorQuery, AfterCursorVariables(None, DefaultPageSize));
      if it.result.Success? && it.result.value.0 != [] && TaggedBatch(it.result.value.0, Added).Success? {
        var _ := CheckpointedAfterWrite(it.world, s, now, TaggedBatch(it.result.value.0, Added).value,
                                        FullCheckpoints(it.result.value.1, d.result.value.lastCursor));
      }
      assert r.world.log == it.world.log;
      assert r.world.log[|w.log|] == d.world.log[|w.log|];
    }
  }

  /** A full run whose item walk comes back empty ends there: nothing is written and no checkpoint moves. */
  lemma FullSyncEmptyWalkWritesNothing(w: World, s: Setup, now: string)
    requires FullDeltas(w, s).result.Success?
    requires Paginated(FullDeltas(w, s).world, s.afterCursorQuery, AfterCursorVariables(None, DefaultPageSize)).result
      == Success(PaginationQueryResult([]))
    ensures var r := FullSync(w, s, now);
      r.err == None && r.world.lake == w.lake && r.world.store == w.store
  {
  }

  /**
   * What a full run writes: one file holding the walk's items, in order, each tagged
   * `mutationType = "ADDED"` with its other keys as fetched.
   */
  lemma FullSyncWritesAddedItems(w: World, s: Setup, now: string) returns (dicts: seq<Json>)
    requires FullSync(w, s, now).world.lake != w.lake
    ensures FullItems(w, s).result.Success?
    ensures var items := FullItems(w, s).result.value.0;
      |dicts| == |items| > 0 && AllTagged(dicts, Added)
      && forall i, k :: 0 <= i < |items| && k != MutationTypeKey ==> Get(dicts[i].fields, k) == Get(items[i].fields, k)
    ensures FullSync(w, s, now).world.lake.files
      == w.lake.files + [DataFile(FileSystemName, s.name, FileName(now, s.name), FlattenedAll(dicts, Separator))]
  {
    var d := FullDeltas(w, s);
    var it := FullItems(w, s);
    var items := it.result.value.0;
    TaggedBatchTags(items, Added);
    dicts := TaggedBatch(items, Added).value;
    var _ := CheckpointedAfterWrite(it.world, s, now, dicts, FullCheckpoints(it.result.value.1, d.result.value.lastCursor));
  }

  /**
   * The checkpoints of a full run are saved only after its write, in the order
   * `initial_sync_cursor` (the last item cursor), `initial_sync_complete` ("true"),
   * `deltas_cursor` (the high-water mark taken before the walk); a failure stops the sequence.
   */
  lemma FullSyncCheckpointOrder(w: World, s: Setup, now: string) returns (n: nat)
    ensures n <= 3
    ensures var r := FullSync(w, s, now);
      (n == 0 ==> r.world.store.revisions == w.store.revisions)
      && (n > 0 ==>
            FullDeltas(w, s).result.Success? && FullItems(w, s).result.Success?
            && |r.world.lake.files| == |w.lake.files| + 1
            && r.world.store.revisions == w.store.revisions
                 + Keyed(s.prefix, FullCheckpoints(FullItems(w, s).result.value.1, FullDeltas(w, s).result.value.lastCursor)[..n]))
      && (r.err == None && r.world.lake != w.lake <==> n == 3)
  {
    var d := FullDeltas(w, s);
    var it := FullItems(w, s);
    n := 0;
    if d.result.Success? && it.result.Success? && it.result.value.0 != [] && TaggedBatch(it.result.value.0, Added).Success? {
      var saves := FullCheckpoints(it.result.value.1, d.result.value.lastCursor);
      FetchedItemsFrame(d.world, s.afterCursorQuery, AfterCursorVariables(None, DefaultPageSize));
      assert it.world.lake == w.lake && it.world.store == w.store;
      n := CheckpointedAfterWrite(it.world, s, now, TaggedBatch(it.result.value.0, Added).value, saves);
      if WrittenBatch(it.world, s, now, TaggedBatch(it.result.value.0, Added).value).Failure? {
        n := 0;
      }
    }
  }

  /**
   * After a full run that wrote its items and raised nothing, the state manager reads back
   * the three checkpoints: the last item cursor, a complete initial sync, and the high-water mark.
   */
  lemma FullSyncCompletes(w: World, s: Setup, now: string)
    requires FullSync(w, s, now).err == None && FullSync(w, s, now).world.lake != w.lake
    ensures FullDeltas(w, s).result.Success? && FullItems(w, s).result.Success?
    ensures var st := FullSync(w, s, now).world.store;
      ReadState(st, s.prefix + InitialSyncCursorKey) == Success(FullItems(w, s).result.value.1)
      && ReadState(st, s.prefix + InitialSyncCompleteKey) == Success(CompleteValue(true))
      && IsComplete(ReadState(st, s.prefix + InitialSyncCompleteKey).value)
      && ReadState(st, s.prefix + DeltasCursorKey) == Success(FullDeltas(w, s).result.value.lastCursor)
  {
    var d := FullDeltas(w, s);
    var it := FullItems(w, s);
    var dicts := TaggedBatch(it.result.value.0, Added).value;
    var w1 := WrittenBatch(it.world, s, now, dicts).value;
    var k1, k2, k3 := s.prefix + InitialSyncCursorKey, s.prefix + InitialSyncCompleteKey, s.prefix + DeltasCursorKey;
    assert |k1| != |k2| && |k2| != |k3| && |k1| != |k3|;
    var v1, v2, v3 := it.result.value.1, CompleteValue(true), d.result.value.lastCursor;
    var saves := FullCheckpoints(v1, v3);
    assert FullSync(w, s, now) == SavedStates(w1, s, saves);
    var st1 := Assign(w1.store, k1, v1).value;
    assert SavedStates(w1, s, saves) == SavedStates(w1.(store := st1), s, saves[1..]);
    var st2 := Assign(st1, k2, v2).value;
    assert SavedStates(w1.(store := st1), s, saves[1..]) == SavedStates(w1.(store := st2), s, saves[2..]);
    var st3 := Assign(st2, k3, v3).value;
    assert SavedStates(w1.(store := st2), s, saves[2..]) == SavedStates(w1.(store := st3), s, saves[2..][1..]);
    assert saves[2..][1..] == [];
    assert FullSync(w, s, now).world.store == st3;
    ReadAfterWrite(w1.store, k1, v1, k1);
    ReadAfterWrite(st1, k2, v2, k1);
    ReadAfterWrite(st2, k3, v3, k1);
    ReadAfterWrite(st1, k2, v2, k2);
    ReadAfterWrite(st2, k3, v3, k2);
    ReadAfterWrite(st2, k3, v3, k3);
    CompleteRoundTrip(true);
  }

  /** In both modes the checkpoints move only once the batch has been written. */
  lemma StateOnlyAfterWrite(w: World, s: Setup, syncFromScratch: bool, now: string, o: Orders)
    ensures var r := Synchronized(w, s, syncFromScratch, now, o);
      r.world.lake == w.lake ==> r.world.store == w.store
  {
    if syncFromScratch {
      var n := FullSyncCheckpointOrder(w, s, now);
      var d := FullDeltas(w, s);
      var it := FullItems(w, s);
      FetchedItemsFrame(d.world, s.afterCursorQuery, AfterCursorVariables(None, DefaultPageSize));
      if d.result.Success? && it.result.Success? && it.result.value.0 != [] && TaggedBatch(it.result.value.0, Added).Success? {
        var dicts := TaggedBatch(it.result.value.0, Added).value;
        var _ := CheckpointedAfterWrite(it.world, s, now, dicts, FullCheckpoints(it.result.value.1, d.result.value.lastCursor));
      }
    } else {
      var d := ChangesFetched(w, s);
      if d.result.Success? && d.result.value.HasChanges() {
        IncrementalCollectFrame(d.world, s, d.result.value, o);
        var c := Collected(d.world, s, d.result.value, o);
        if c.result.Success? {
          var _ := CheckpointedAfterWrite(c.world, s, now, c.result.value, [(DeltasCursorKey, d.result.value.lastCursor)]);
        }
      }
    }
  }

  /** A request of a fetch by ids, for exactly these ids. */
  predicate ByIdsRequest(req: Request, s: Setup, ids: seq<Json>) {
    req.query == s.byIdsQuery && "dbIdList" in req.variables && req.variables["dbIdList"] == Arr(ids)
  }

  /** A part of the batch sends only requests for its own ids, and none when it is absent or empty. */
  lemma PartFrame(w: World, s: Setup, present: bool, ids: seq<Json>, tag: string)
    ensures var p := Part(w, s, present, ids, tag);
      p.world.lake == w.lake && p.world.store == w.store
      && |p.world.log| >= |w.log| && p.world.log[..|w.log|] == w.log
      && forall i :: |w.log| <= i < |p.world.log| ==> present && ByIdsRequest(p.world.log[i], s, ids)
  {
    if present && ids != [] {
      var walk := Walk(w.script, s.byIdsQuery, ByIdsVariables(ids, DefaultPageSize));
      ByIdsRequestsKeepFilter(w.script, s.byIdsQuery, ids, DefaultPageSize);
      var p := Part(w, s, present, ids, tag);
      assert p.world.log == w.log + walk.requests;
      forall i | |w.log| <= i < |p.world.log|
        ensures ByIdsRequest(p.world.log[i], s, ids)
      {
        assert p.world.log[i] == walk.requests[i - |w.log|];
      }
    }
  }

  /**
   * Collecting the incremental batch only moves the transport, and only by fetches of the
   * added and of the updated ids; deletions are never fetched.
   */
  lemma IncrementalCollectFrame(w: World, s: Setup, deltas: DeltasResult, o: Orders)
    ensures var c := Collected(w, s, deltas, o);
      c.world.lake == w.lake && c.world.store == w.store
      && |c.world.log| >= |w.log| && c.world.log[..|w.log|] == w.log
      && forall i :: |w.log| <= i < |c.world.log| ==>
           (deltas.HasAdditions() && ByIdsRequest(c.world.log[i], s, o.additions))
           || (deltas.HasUpdates() && ByIdsRequest(c.world.log[i], s, o.updates))
  {
    var a := Part(w, s, deltas.HasAdditions(), o.additions, Added);
    PartFrame(w, s, deltas.HasAdditions(), o.additions, Added);
    if a.result.Success? {
      var u := Part(a.world, s, deltas.HasUpdates(), o.updates, Updated);
      PartFrame(a.world, s, deltas.HasUpdates(), o.updates, Updated);
      assert u.world.log[..|w.log|] == u.world.log[..|a.world.log|][..|w.log|];
    }
  }

  /**
   * An incremental run reads the stored delta cursor first, a failed read ending it with
   * nothing sent; otherwise its first request asks for up to 10000 deltas after that cursor.
   */
  lemma IncrementalFetchesFromStoredCursor(w: World, s: Setup, now: string, o: Orders)
    ensures var c := ReadState(w.store, s.prefix + DeltasCursorKey);
      var r := IncrementalSync(w, s, now, o);
      (c.Failure? ==> r == Run(w, Some(AzureError)))
      && (c.Success? ==>
            |r.world.log| > |w.log| && r.world.log[|w.log|] == Request(s.deltaQuery, ChangesRequest(c.value))
            && ChangesRequest(c.value)["first"] == Num(ChangesPageSize)
            && ChangesRequest(c.value)["after"] == CursorValue(c.value))
  {
    var c := ReadState(w.store, s.prefix + DeltasCursorKey);
    if c.Success? {
      var r := IncrementalSync(w, s, now, o);
      var d := ChangesFetched(w, s);
      WalkRequests(w.script, s.deltaQuery, ChangesRequest(c.value), [], None);
      assert d.world.log == w.log + Walk(w.script, s.deltaQuery, ChangesRequest(c.value)).requests;
      if d.result.Success? && d.result.value.HasChanges() {
        IncrementalCollectFrame(d.world, s, d.result.value, o);
        var col := Collected(d.world, s, d.result.value, o);
        if col.result.Success? {
          var _ := CheckpointedAfterWrite(col.world, s, now, col.result.value, [(DeltasCursorKey, d.result.value.lastCursor)]);
        }
        assert r.world.log[..|d.world.log|] == d.world.log;
        assert r.world.log[|w.log|] == r.world.log[..|d.world.log|][|w.log|];
      }
    }
  }

  /** Without changes an incremental run writes nothing and moves no checkpoint. */
  lemma IncrementalNoChangesWritesNothing(w: World, s: Setup, now: string, o: Orders)
    requires ChangesFetched(w, s).result.Success? && !ChangesFetched(w, s).result.value.HasChanges()
    ensures var r := IncrementalSync(w, s, now, o);
      r.err == None && r.world.lake == w.lake && r.world.store == w.store
  {
  }

  /**
   * An incremental run changes at most `deltas_cursor`, to the fetched deltas' last cursor;
   * the two initial-sync checkpoints read the same before and after.
   */
  lemma IncrementalMovesOnlyDeltasCursor(w: World, s: Setup, now: string, o: Orders)
    ensures var r := IncrementalSync(w, s, now, o);
      var d := ChangesFetched(w, s);
      r.world.store == w.store
      || (d.result.Success? && Assign(w.store, s.prefix + DeltasCursorKey, d.result.value.lastCursor) == Success(r.world.store))
    ensures var r := IncrementalSync(w, s, now, o);
      ReadState(r.world.store, s.prefix + InitialSyncCursorKey) == ReadState(w.store, s.prefix + InitialSyncCursorKey)
      && ReadState(r.world.store, s.prefix + InitialSyncCompleteKey) == ReadState(w.store, s.prefix + InitialSyncCompleteKey)
  {
    var r := IncrementalSync(w, s, now, o);
    var d := ChangesFetched(w, s);
    if d.result.Success? && d.result.value.HasChanges() {
      IncrementalCollectFrame(d.world, s, d.result.value, o);
      var col := Collected(d.world, s, d.result.value, o);
      if col.result.Success? {
        var saves := [(DeltasCursorKey, d.result.value.lastCursor)];
        var written := WrittenBatch(col.world, s, now, col.result.value);
        if written.Success? {
          assert SavedStates(written.value, s, saves) == SavedStates(written.value.(store := Assign(w.store, s.prefix + DeltasCursorKey, d.result.value.lastCursor).value), s, saves[1..]) by {
            assert written.value.store == w.store;
          }
          assert saves[1..] == [];
        }
      }
    }
    var k := s.prefix + DeltasCursorKey;
    assert |s.prefix + InitialSyncCursorKey| != |k| && |s.prefix + InitialSyncCompleteKey| != |k|;
    if r.world.store != w.store {
      ReadAfterWrite(w.store, k, d.result.value.lastCursor, s.prefix + InitialSyncCursorKey);
      ReadAfterWrite(w.store, k, d.result.value.lastCursor, s.prefix + InitialSyncCompleteKey);
    }
  }

  /** A part of the batch that was resolved is tagged with its own tag, and is empty when absent. */
  lemma PartTagged(w: World, s: Setup, present: bool, ids: seq<Json>, tag: string)
    ensures var p := Part(w, s, present, ids, tag);
      p.result.Success? ==> AllTagged(p.result.value, tag) && (!present ==> p.result.value == [])
  {
    if present && FetchedByIds(w, s, ids).result.Success? {
      TaggedBatchTags(FetchedByIds(w, s, ids).result.value.0, tag);
    }
  }

  /**
   * The collected batch is the records fetched for the added ids tagged ADDED, then the records
   * fetched for the updated ids tagged UPDATED, then one tombstone per deleted id.
   */
  lemma CollectedInOrder(w: World, s: Setup, deltas: DeltasResult, o: Orders) returns (adds: seq<Json>, upds: seq<Json>, dels: seq<Json>)
    requires Collected(w, s, deltas, o).result.Success?
    ensures Collected(w, s, deltas, o).result.value == adds + upds + dels
    ensures AllTagged(adds, Added) && AllTagged(upds, Updated) && AllTagged(dels, Deleted)
    ensures (!deltas.HasAdditions() ==> adds == []) && (!deltas.HasUpdates() ==> upds == [])
    ensures dels == (if deltas.HasDeletions() then Tombstones(o.deletions) else [])
    ensures deltas.HasAdditions() ==> var f := FetchedByIds(w, s, o.additions);
      f.result.Success? && adds == Tagged(f.result.value.0, MutationTypeKey, Str(Added))
    ensures deltas.HasUpdates() ==> var f := FetchedByIds(Part(w, s, deltas.HasAdditions(), o.additions, Added).world, s, o.updates);
      f.result.Success? && upds == Tagged(f.result.value.0, MutationTypeKey, Str(Updated))
  {
    var a := Part(w, s, deltas.HasAdditions(), o.additions, Added);
    PartTagged(w, s, deltas.HasAdditions(), o.additions, Added);
    var u := Part(a.world, s, deltas.HasUpdates(), o.updates, Updated);
    PartTagged(a.world, s, deltas.HasUpdates(), o.updates, Updated);
    adds, upds := a.result.value, u.result.value;
    dels := if deltas.HasDeletions() then Tombstones(o.deletions) else [];
    TombstonesTagged(o.deletions);
  }

  /**
   * What an incremental run writes: one file whose records are the fetched additions tagged
   * ADDED, then the fetched updates tagged UPDATED, then one DELETED tombstone per deleted id.
   */
  lemma IncrementalBatchOrder(w: World, s: Setup, now: string, o: Orders) returns (adds: seq<Json>, upds: seq<Json>, dels: seq<Json>)
    requires IncrementalSync(w, s, now, o).world.lake != w.lake
    ensures ChangesFetched(w, s).result.Success? && ChangesFetched(w, s).result.value.HasChanges()
    ensures IncrementalSync(w, s, now, o).world.lake.files
      == w.lake.files + [DataFile(FileSystemName, s.name, FileName(now, s.name), FlattenedAll(adds + upds + dels, Separator))]
    ensures AllTagged(adds, Added) && AllTagged(upds, Updated) && AllTagged(dels, Deleted)
    ensures var d := ChangesFetched(w, s).result.value;
      (!d.HasAdditions() ==> adds == []) && (!d.HasUpdates() ==> upds == [])
      && dels == (if d.HasDeletions() then Tombstones(o.deletions) else [])
    ensures var d := ChangesFetched(w, s).result.value;
      OrdersFit(o, ChangesFetched(w, s)) ==>
        |dels| == |d.deletions|
        && forall x :: x in d.deletions ==> exists i :: 0 <= i < |dels| && Get(dels[i].fields, "dbId") == Some(x)
    ensures var c := ChangesFetched(w, s);
      c.result.value.HasAdditions() ==> var f := FetchedByIds(c.world, s, o.additions);
        f.result.Success? && adds == Tagged(f.result.value.0, MutationTypeKey, Str(Added))
    ensures var c := ChangesFetched(w, s);
      c.result.value.HasUpdates() ==>
        var f := FetchedByIds(Part(c.world, s, c.result.value.HasAdditions(), o.additions, Added).world, s, o.updates);
        f.result.Success? && upds == Tagged(f.result.value.0, MutationTypeKey, Str(Updated))
  {
    var d := ChangesFetched(w, s);
    var deltas := d.result.value;
    IncrementalCollectFrame(d.world, s, deltas, o);
    var col := Collected(d.world, s, deltas, o);
    adds, upds, dels := CollectedInOrder(d.world, s, deltas, o);
    var _ := CheckpointedAfterWrite(col.world, s, now, col.result.value, [(DeltasCursorKey, deltas.lastCursor)]);
    if OrdersFit(o, d) && deltas.HasDeletions() {
      TombstonesCover(o.deletions, deltas.deletions);
    }
  }

  /** Listing a set of deleted ids gives one tombstone per id. */
  lemma TombstonesCover(ids: seq<Json>, deleted: set<Json>)
    requires Lists(ids, deleted)
    ensures |Tombstones(ids)| == |deleted|
    ensures forall x :: x in deleted ==> exists i :: 0 <= i < |ids| && Get(Tombstones(ids)[i].fields, "dbId") == Some(x)
  {
    forall x | x in deleted
      ensures exists i :: 0 <= i < |ids| && Get(Tombstones(ids)[i].fields, "dbId") == Some(x)
    {
      var i :| 0 <= i < |ids| && ids[i] == x;
      assert Tombstones(ids)[i] == Tombstone(x);
      TombstoneReads(x);
    }
  }
}
