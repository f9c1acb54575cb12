# xledger-syncronizer, modelled in Dafny

This project models the synchronizer that copies records from the Xledger GraphQL API into
an Azure Data Lake, keeping its progress as checkpoints in Azure App Configuration. The
model has three layers.

- **Page walker** (`GqlClient`). One query execution runs under a three-attempt retry
  policy. The page walk follows a cursor-paginated connection until `hasNextPage` is false.
  It concatenates the edges of every page and sends the running last cursor back as `after`.
  The remote API is a script of attempt outcomes held by the client object. Each attempt
  takes the next outcome and is recorded in the client's request log.
- **Delta reconciler** (`DeltaFetching`) and **item resolver** (`ItemFetching`).
  - The reconciler folds the change feed into the sets of added, updated and deleted ids.
    A deletion cancels an addition or update of the same id.
  - The resolver fetches full records by id list, or from a cursor to the end.
- **Sync engine** (`Synchronization`).
  - A full run takes a high-water mark from the delta feed, walks every item, tags them
    `ADDED`, writes them to the lake and saves three checkpoints.
  - An incremental run reads the stored delta cursor and resolves the additions and updates
    since it. It adds one tombstone per deletion, writes the batch and moves the cursor on.
  - Each run is an imperative method of `DataSynchronizer`. Each one is proved equal to a
    pure function from the observable world (transport script and log, lake, configuration
    store) to the world after the run and the error it raised. The lemmas state the
    properties of those functions.

The engine also relies on these modules:
- Record flattening and tagging (`DataTransformation`).
- The state store (`Configuration`): the synchronizer's checkpoints, and the
  general-purpose `ConfigurationManager` over the same service.
- An abstract data lake (`DataLake`).

JSON values are a datatype (`Json`). A dict is an ordered list of entries, because Python
dicts keep insertion order. `Get` and `Put` are `d.get(key)` and `d[key] = value`.

Where the documented design and the code disagree, the model follows the code:
- **Mode choice.** The run mode is the caller's `sync_from_scratch` argument
  (shared/data_syncronizer.py:25-29). It is not read from the `initial_sync_complete`
  checkpoint.
- **Partial commits.** The full run's three checkpoints are separate writes
  (shared/data_syncronizer.py:49-51). If a later one fails, the earlier ones stay saved:
  the commit is not all-or-nothing (`Synchronization.SavedStatesInOrder`,
  `Synchronization.FullSyncCheckpointOrder`).
- **Retries.** The retry policy retries every exception, malformed requests included
  (shared/gql_client.py:75).
- **The `after` cursor.** `after` is set to the running last cursor, which starts as `None`
  whatever `after` the caller passed (shared/gql_client.py:103, 125). A walk that starts
  from a cursor and meets an empty first page that has a next page therefore continues
  from the start of the connection (`GqlClient.EmptyFirstPageResetsAfter`).

## Model

| member | source | states |
|---|---|---|
| GqlClient.PaginationQueryResult.GetNodes | shared/gql_client.py:24-30 | one node per edge, in edge order |
| GqlClient.PaginationQueryResult.GetLastCursor | shared/gql_client.py:32-38 | the cursor of the last edge, and None exactly when there are no edges |
| GqlClient.PaginationQueryResult.HasResults | shared/gql_client.py:40-41 | there are results iff there are nodes, and iff there is a last cursor |
| GqlClient.CursorValue | shared/gql_client.py:125 | a cursor is sent as a string, and a missing cursor as null |
| GqlClient.RetryPolicy | shared/gql_client.py:75-90 | attempts run until one returns, at most three; the reply is that of the first returning attempt; the execution fails only when all three raise |
| GqlClient.ExecuteWithRetry | shared/gql_client.py:75-90 | the function model of one execution under the retry decorator: the reply or RetryError, and the attempts used; its properties are stated by `GqlClient.RetryPolicy` |
| GqlClient.GraphQLClient.Send | shared/gql_client.py:87 | one transport call takes the next scripted outcome and logs the request |
| GqlClient.GraphQLClient.ExecuteGraphqlQuery | shared/gql_client.py:75-90 | the retrying execution consumes and logs exactly the attempts the retry policy makes, and returns its reply or its failure |
| GqlClient.GraphQLClient.NextPage | shared/gql_client.py:106-131 | one loop turn either ends the walk with its outcome, or extends the edges and the last cursor, sets `after` and leaves a strictly shorter script |
| GqlClient.GraphQLClient.PaginateGqlQuery | shared/gql_client.py:92-133 | the loop returns the walk's result, logs every request the walk sends and leaves the script the walk leaves |
| GqlClient.WalkFrom | shared/gql_client.py:102-133 | the function model of the walk from collected edges and a last cursor: result, requests sent and script left; its properties are stated by the lemmas below |
| GqlClient.Walk | shared/gql_client.py:92-133 | the function model of `paginate_gql_query`, starting with no edges and no cursor; `GqlClient.GraphQLClient.PaginateGqlQuery` is proved equal to it |
| GqlClient.WalkAccumulates | shared/gql_client.py:102-117 | edges collected before a point only prefix the result: success, failure and the later edges do not depend on them |
| GqlClient.WalkRequests | shared/gql_client.py:108-125 | a walk sends at least one request; the first carries the caller's variables, and every request keeps them apart from `after` |
| GqlClient.SinglePage | shared/gql_client.py:115-133 | a first page without a next page ends the walk with exactly its edges after one request |
| GqlClient.TwoPages | shared/gql_client.py:115-125 | the second request resumes after the first page's last cursor; the edges of both pages are concatenated in order; no third request is made |
| GqlClient.RetriedPage | shared/gql_client.py:75 | two raising attempts followed by a page still succeed, after three requests |
| GqlClient.ThreeFailuresAbort | shared/gql_client.py:127-131 | three raising attempts end the walk with GraphQLQueryException after three identical requests |
| GqlClient.NoDataAborts | shared/gql_client.py:110-112 | a response without data ends the walk with GraphQLQueryException after one request, without a retry |
| GqlClient.EmptyFirstPageResetsAfter | shared/gql_client.py:103-125 | after an empty first page with a next page, the second request has `after` set to null, whatever `after` the first had |
| GqlClient.WalkPagesFrom | shared/gql_client.py:102-125 | over any k >= 1 pages answered at once, the walk from collected edges adds every page's edges in order, sends k requests, the i-th with `after` the cursor of the last edge seen so far, and consumes nothing more |
| GqlClient.WalkPages | shared/gql_client.py:92-133 | over any k >= 1 pages the result is all their edges concatenated in order, after exactly k requests: the first with the caller's variables, the i-th with `after` the last cursor of the pages before it (null while there has been none); an empty page leaves `after` unchanged; the walk stops at the first page without a next page |
| DeltaFetching.DeltasResult.GetAdditions | shared/delta_fetcher.py:25-26 | the list holds each added id exactly once |
| DeltaFetching.DeltasResult.GetUpdates | shared/delta_fetcher.py:28-29 | the list holds each updated id exactly once |
| DeltaFetching.DeltasResult.GetDeletions | shared/delta_fetcher.py:31-32 | the list holds each deleted id exactly once |
| DeltaFetching.DeltasResult.HasChanges | shared/delta_fetcher.py:13-14 | there are changes iff there are additions, updates or deletions |
| DeltaFetching.DeltasResult.HasAdditions | shared/delta_fetcher.py:16-17 | true iff the set of additions is non-empty |
| DeltaFetching.DeltasResult.HasUpdates | shared/delta_fetcher.py:19-20 | true iff the set of updates is non-empty |
| DeltaFetching.DeltasResult.HasDeletions | shared/delta_fetcher.py:22-23 | true iff the set of deletions is non-empty |
| DeltaFetching.Reconcile | shared/delta_fetcher.py:51-74 | the function model of `_extract_deltas`: the first faulty node's error, or the three id sets and the last cursor; its properties are stated by the lemmas below |
| DeltaFetching.Deltas | shared/delta_fetcher.py:40-49 | the function model of `fetch_deltas` on the walk's outcome: its failure, or its reconciliation |
| DeltaFetching.ExtractDeltas | shared/delta_fetcher.py:51-74 | the loop over the edges computes the reconciliation of the walk: the first faulty node's error, or the three id sets and the last cursor |
| DeltaFetching.TallyEdge | shared/delta_fetcher.py:59-69 | one turn of the edge loop: the node's fault (AttributeError for a non-dict, TypeError for an unhashable tracked id), or the three sets with its id added to the set of its tag |
| DeltaFetching.ReconcileMembership | shared/delta_fetcher.py:59-72 | an id is deleted iff some node deletes it; it is added (updated) iff some node adds (updates) it and none deletes it |
| DeltaFetching.DeletionWins | shared/delta_fetcher.py:71-72 | no deleted id is reported as added or updated |
| DeltaFetching.ReconciledIdsAreScalars | shared/delta_fetcher.py:62-74 | every reported id is hashable (neither a dict nor a list), and the cursor is the walk's last cursor |
| DeltaFetching.HasChangesIffTracked | shared/delta_fetcher.py:64-69 | the result has changes iff some node carries one of the three tags; other mutation types are dropped silently |
| DeltaFetching.ReconcileFailure | shared/delta_fetcher.py:59-69 | reconciliation fails iff some node is not a dict or has an unhashable id, with AttributeError or TypeError |
| DeltaFetching.EmptyWalkYieldsNoChanges | shared/delta_fetcher.py:56-57 | an empty walk gives three empty sets and no cursor |
| DeltaFetching.DeltaFetcher.constructor | shared/delta_fetcher.py:36-38 | the fetcher keeps its client and query |
| DeltaFetching.DeltaFetcher.FetchDeltas | shared/delta_fetcher.py:40-49 | the walk of the delta query is made; its failure propagates, otherwise its edges are reconciled |
| ItemFetching.ItemsResult.constructor | shared/item_fetcher.py:8-10 | the result keeps the items and cursor it is given |
| ItemFetching.ItemsResult.HasItems | shared/item_fetcher.py:12-13 | true iff some record was fetched |
| ItemFetching.ItemsResult.GetItems | shared/item_fetcher.py:15-16 | the records held, as an accessor |
| ItemFetching.ItemsResult.GetLastItemCursor | shared/item_fetcher.py:18-19 | the cursor held, as an accessor |
| ItemFetching.ItemsResult.AddKeyValueToItems | shared/item_fetcher.py:21-22 | the items are tagged in place, the cursor is kept, and ValueError is raised iff some item is not a dict |
| ItemFetching.ByIdsRequestsKeepFilter | shared/item_fetcher.py:35-36 | every page of a fetch by ids asks for the same id list and page size |
| ItemFetching.ItemFetcher.constructor | shared/item_fetcher.py:26-29 | the fetcher keeps its client and its two queries |
| ItemFetching.ItemFetcher.FetchItemsByIds | shared/item_fetcher.py:31-38 | an empty id list gives no items and no cursor without touching the transport; otherwise the items are the walk's nodes in order, with its last cursor, or its failure |
| ItemFetching.ItemFetcher.FetchAllItemsAfterCursor | shared/item_fetcher.py:40-43 | the walk starts with `first` and `after` (defaults 10000 and None); the items are its nodes in order, with its last cursor, or its failure |
| DataTransformation.DecimalString | shared/utils/data_transformation.py:30 | `str(i)` of an index is a non-empty string of digits without a leading zero |
| DataTransformation.DecimalRoundTrip | shared/utils/data_transformation.py:30 | reading back `str(i)` gives i |
| DataTransformation.DecimalStringInjective | shared/utils/data_transformation.py:30 | distinct list indices give distinct key segments |
| DataTransformation.RStrip | shared/utils/data_transformation.py:32 | `rstrip(sep)` is the longest prefix not ending in a character of sep; everything it removes is such a character |
| DataTransformation.RStripIgnoresStrippable | shared/utils/data_transformation.py:32 | appending separator characters does not change the stripped key |
| DataTransformation.Leaves | shared/utils/data_transformation.py:17-32 | the function model of the inner `flatten`: the entries it writes, in order; its properties are stated by the lemmas below |
| DataTransformation.Flattened | shared/utils/data_transformation.py:4-35 | the function model of `flatten_json`: the leaves folded into an empty dict; `DataTransformation.FlattenJson` is proved equal to it |
| DataTransformation.PutAllReads | shared/utils/data_transformation.py:32 | after the writes into the shared dict, each key reads as the value last written to it, or as before; the keys are the old and the written ones |
| DataTransformation.LeavesAreScalar | shared/utils/data_transformation.py:25-32 | every written value is a scalar, since dicts and lists are always descended into |
| DataTransformation.FlattenedValuesAreScalar | shared/utils/data_transformation.py:25-35 | no value of `flatten_json`'s result is a dict or a list |
| DataTransformation.ScalarLeafIsWritten | shared/utils/data_transformation.py:25-32 | every scalar reachable by a path of dict keys and list indices is written under `p + k + sep` / `p + str(i) + sep` with trailing separator characters stripped |
| DataTransformation.WrittenEntryHasPath | shared/utils/data_transformation.py:25-32 | every written entry is a scalar reached by some path and keyed by that path, stripped |
| DataTransformation.EmptyNestedValueVanishes | shared/utils/data_transformation.py:25-27 | an empty dict or list under any key contributes no entry |
| DataTransformation.EmptyTrailingElementVanishes | shared/utils/data_transformation.py:28-30 | an empty dict or list at the end of a list contributes no entry |
| DataTransformation.FlatDictIsFixedPoint | shared/utils/data_transformation.py:25-32 | a dict with distinct keys, scalar values and no key ending in a separator character flattens to itself |
| DataTransformation.FlattenInto | shared/utils/data_transformation.py:17-32 | the recursive inner `flatten` writes exactly the leaf entries of its element, in visiting order, into the shared dict |
| DataTransformation.FlattenFields | shared/utils/data_transformation.py:25-27 | the loop over a dict's items writes the leaves of each field in turn |
| DataTransformation.FlattenElems | shared/utils/data_transformation.py:28-30 | the loop over a list's elements writes the leaves of each element in turn |
| DataTransformation.FlattenJson | shared/utils/data_transformation.py:4-35 | `flatten_json` returns the leaf entries of its argument folded into a new dict |
| DataTransformation.FlattenListOfDicts | shared/utils/data_transformation.py:38-53 | the result has the same length and order, and element i is element i flattened |
| DataTransformation.AddKeyValueToDicts | shared/utils/data_transformation.py:56-73 | a non-list raises ValueError with nothing changed; otherwise every dict before the first non-dict is tagged, and such an element raises ValueError |
| DataTransformation.Tagged | shared/utils/data_transformation.py:68-71 | the function model of the list `add_key_value_to_dicts` leaves: every dict before the first non-dict tagged; its properties are stated by `DataTransformation.SetKeyBeforeReads` and `Synchronization.TaggedBatchTags` |
| DataTransformation.SetKeyBeforeReads | shared/utils/data_transformation.py:68-71 | a tagged dict reads key as value and every other key as before; later elements and the length are unchanged |
| Json.Get | shared/delta_fetcher.py:61-62 | a key of the dict reads Some of its value, a stored null being Some(Null), and an absent key reads None; `d.get(key)` merges the last two cases into None, as `DbIdOf` does |
| Json.PutReads | shared/utils/data_transformation.py:71 | after `d[key] = value` the key reads as value and every other key as before; an existing key keeps its place, a new one is appended |
| Sets.ListOf | shared/delta_fetcher.py:26 | `list(s)` holds each element of the set exactly once |
| Configuration.ReadState | shared/configuration_manager.py:62-79 | a state read fails iff its key cannot be served, with AzureError; a missing key reads as None |
| Configuration.ReadAfterWrite | shared/configuration_manager.py:62-95 | a save succeeds iff its key is available; the value reads back as saved and other keys read as before |
| Configuration.CompleteRoundTrip | shared/configuration_manager.py:122-131 | the completion flag stored as 'true'/'false' reads back as the flag written |
| Configuration.CheckpointsIndependent | shared/configuration_manager.py:97-149 | saving one of the three checkpoints under the prefix leaves the other two reading as before |
| Configuration.SynchronizerStateManager.constructor | shared/configuration_manager.py:52-60 | the manager keeps its client and prefix |
| Configuration.SynchronizerStateManager.GetState | shared/configuration_manager.py:62-79 | reads `prefix + key`; None when absent; any other failure propagates |
| Configuration.SynchronizerStateManager.SaveState | shared/configuration_manager.py:81-95 | writes `prefix + key`, or fails with the store unchanged |
| Configuration.SynchronizerStateManager.GetDeltasCursor | shared/configuration_manager.py:97-104 | reads the prefixed `deltas_cursor` |
| Configuration.SynchronizerStateManager.SetDeltasCursor | shared/configuration_manager.py:106-113 | writes the prefixed `deltas_cursor` |
| Configuration.SynchronizerStateManager.GetInitialSyncComplete | shared/configuration_manager.py:115-122 | true iff the stored string is exactly 'true', so an absent flag is false |
| Configuration.SynchronizerStateManager.SetInitialSyncComplete | shared/configuration_manager.py:124-131 | stores 'true' or 'false' under the prefixed key |
| Configuration.SynchronizerStateManager.GetInitialSyncCursor | shared/configuration_manager.py:133-140 | reads the prefixed `initial_sync_cursor` |
| Configuration.SynchronizerStateManager.SetInitialSyncCursor | shared/configuration_manager.py:142-149 | writes the prefixed `initial_sync_cursor` |
| Configuration.Loaded | shared/configuration_manager.py:16-17 | a name is loaded iff prefix + name is stored, with that setting's value |
| Configuration.Attribute | shared/configuration_manager.py:30-33 | reserved names raise AttributeError; any other name reads its setting, or None |
| Configuration.WritesOf | shared/configuration_manager.py:24-25 | the i-th write of `save` is the i-th key under the prefix with its value |
| Configuration.FirstUnwritable | shared/configuration_manager.py:24-25 | the first key in iteration order whose write fails |
| Configuration.SaveAll | shared/configuration_manager.py:22-28 | the function model of `save` for a given iteration order; its properties are stated by the lemmas below |
| Configuration.SaveStopsAtFirstFailure | shared/configuration_manager.py:22-28 | `save` writes exactly the keys before the first failing one, in order; a written key holds its setting's value, and every key it did not write keeps its own |
| Configuration.SaveWrites | shared/configuration_manager.py:22-28 | the write log of `save` is the writes before the first failing key, and its key set grows by exactly those keys |
| Configuration.SaveAllValues | shared/configuration_manager.py:24-25 | after `save` a written key reads its setting's value and an unwritten key keeps its value |
| Configuration.SaveAllWritesEverySetting | shared/configuration_manager.py:24-25 | when every write succeeds, each setting is stored under its prefixed key whatever the order, and other keys keep their values |
| Configuration.ConfigurationManager.constructor | shared/configuration_manager.py:8-11 | a new manager has no settings and the empty prefix by default |
| Configuration.ConfigurationManager.Load | shared/configuration_manager.py:13-20 | a successful listing replaces the settings by the prefixed ones with the prefix removed; a failure is swallowed and changes nothing |
| Configuration.ConfigurationManager.Save | shared/configuration_manager.py:22-28 | the settings are written in some iteration order, stopping at the first failure, which is swallowed |
| Configuration.ConfigurationManager.GetAttr | shared/configuration_manager.py:30-33 | a reserved name raises AttributeError; any other name reads its setting, or None |
| Configuration.ConfigurationManager.SetAttr | shared/configuration_manager.py:35-40 | an attribute write updates only that setting |
| Configuration.AttributeRoundTrip | shared/configuration_manager.py:30-40 | a setting written by attribute reads back by attribute; other names are unaffected |
| Configuration.SaveThenLoad | shared/configuration_manager.py:13-28 | once every setting is saved, a load under the same prefix finds each one under its own name |
| DataLake.Written | shared/data_lake_writer.py:112-145 | a write fails iff the lake refuses its file system or directory; otherwise it appends one file with the records |
| DataLake.DataLakeWriter.constructor | shared/data_lake_writer.py:112-145 | the writer starts from the given lake |
| DataLake.DataLakeWriter.WriteData | shared/data_lake_writer.py:112-145 | the write leaves the lake as `Written` says, or unchanged with the error |
| Synchronization.Tombstones | shared/data_syncronizer.py:75 | one tombstone per deleted id, in the order listed |
| Synchronization.TaggedBatchTags | shared/data_syncronizer.py:42 | tagging succeeds iff every item is a dict; then it keeps the items' number and order, tags each, and keeps its other keys |
| Synchronization.TombstoneReads | shared/data_syncronizer.py:75 | a tombstone is tagged DELETED and names its id |
| Synchronization.TombstonesTagged | shared/data_syncronizer.py:74-76 | every tombstone is tagged DELETED and the i-th names the i-th id |
| Synchronization.TombstonesCover | shared/data_syncronizer.py:74-76 | listing the deleted ids gives exactly one tombstone per deleted id |
| Synchronization.SavedStatesInOrder | shared/data_syncronizer.py:49-51 | the checkpoints are saved in order under the prefix, stopping at the first failure; only the store changes |
| Synchronization.CheckpointedAfterWrite | shared/data_syncronizer.py:46-51 | nothing is saved unless the batch was written first; a failed write leaves the world unchanged |
| Synchronization.FullSync | shared/data_syncronizer.py:31-51 | the function model of a full run on the observable world; its properties are stated by the FullSync lemmas and `Synchronization.DataSynchronizer.FullSyncronization` is proved equal to it |
| Synchronization.IncrementalSync | shared/data_syncronizer.py:53-85 | the function model of an incremental run, for given listing orders; its properties are stated by the Incremental lemmas |
| Synchronization.Synchronized | shared/data_syncronizer.py:25-29 | the function model of `syncronize`: the full or the incremental run, as the argument says |
| Synchronization.FetchedItemsFrame | shared/data_syncronizer.py:36 | a fetch step moves only the transport, and its first request is the walk's query with its variables |
| Synchronization.FullSyncFetchOrder | shared/data_syncronizer.py:33-36 | a full run first asks for the last delta, then walks the items from `after` null with page size 10000 |
| Synchronization.FullSyncEmptyWalkWritesNothing | shared/data_syncronizer.py:36-39 | an empty item walk ends the run with nothing written and no checkpoint moved |
| Synchronization.FullSyncWritesAddedItems | shared/data_syncronizer.py:42-46 | a full run writes one file holding the walk's items in order, flattened, each tagged ADDED with its other keys as fetched |
| Synchronization.FullSyncCheckpointOrder | shared/data_syncronizer.py:46-51 | after the write, the saves are `initial_sync_cursor`, `initial_sync_complete`, `deltas_cursor`, in that order, and a failure stops the sequence |
| Synchronization.FullSyncCompletes | shared/data_syncronizer.py:49-51 | after a full run that wrote and raised nothing, the state reads: last item cursor, complete, high-water mark |
| Synchronization.StateOnlyAfterWrite | shared/data_syncronizer.py:46-85 | in both modes the store changes only if the lake did |
| Synchronization.PartFrame | shared/data_syncronizer.py:64-72 | one part of the batch sends only by-ids requests for its own ids, and none when absent |
| Synchronization.IncrementalCollectFrame | shared/data_syncronizer.py:62-76 | collecting the batch moves only the transport, by fetches of the added and the updated ids; deletions are never fetched |
| Synchronization.IncrementalFetchesFromStoredCursor | shared/data_syncronizer.py:55 | an incremental run reads the stored delta cursor first (a failure ends it with nothing sent), then asks for 10000 deltas after it |
| Synchronization.IncrementalNoChangesWritesNothing | shared/data_syncronizer.py:58-60 | without changes nothing is written and no checkpoint moves |
| Synchronization.IncrementalMovesOnlyDeltasCursor | shared/data_syncronizer.py:85 | an incremental run changes at most `deltas_cursor`, to the deltas' last cursor; the initial-sync checkpoints read the same |
| Synchronization.PartTagged | shared/data_syncronizer.py:64-72 | a resolved part is tagged with its own tag, and is empty when absent |
| Synchronization.CollectedInOrder | shared/data_syncronizer.py:63-76 | the batch is the records fetched for the added ids tagged ADDED, then those fetched for the updated ids (after the additions fetch) tagged UPDATED, then the DELETED tombstones |
| Synchronization.IncrementalBatchOrder | shared/data_syncronizer.py:63-82 | an incremental run writes one file: the records fetched by ids for the additions tagged ADDED, then for the updates tagged UPDATED, then exactly one tombstone per deleted id |
| Synchronization.DataSynchronizer.constructor | shared/data_syncronizer.py:13-23 | the synchronizer keeps its name and collaborators |
| Synchronization.DataSynchronizer.Syncronize | shared/data_syncronizer.py:25-29 | the run is the full or the incremental run, as the argument says |
| Synchronization.DataSynchronizer.FullSyncronization | shared/data_syncronizer.py:31-51 | the method's effect on transport, lake and store, and its error, are those of the full-run function |
| Synchronization.DataSynchronizer.WriteInitialSync | shared/data_syncronizer.py:46-51 | the write, then the three checkpoints in order, each failure ending the run |
| Synchronization.DataSynchronizer.WriteBatch | shared/data_syncronizer.py:43-46 | the batch is flattened and written to `filesystem/<name>/<now>-<name>.parquet`, or the lake is left unchanged with the error |
| Synchronization.DataSynchronizer.ResolveChanges | shared/data_syncronizer.py:65-72 | the ids are fetched and the items tagged, or the first error is returned |
| Synchronization.DataSynchronizer.ResolvePart | shared/data_syncronizer.py:64-72 | a part is resolved only when its id set is non-empty |
| Synchronization.DataSynchronizer.CollectChanges | shared/data_syncronizer.py:62-76 | the batch is collected from some listing of each id set, as the collection function says |
| Synchronization.DataSynchronizer.WriteChanges | shared/data_syncronizer.py:78-85 | the batch is written, then `deltas_cursor` is saved |
| Synchronization.DataSynchronizer.SyncronizeChanges | shared/data_syncronizer.py:53-85 | the method's effect and error are those of the incremental-run function, for the listing orders it used |

## Left out

- Retry timing: the exponential backoff between attempts (shared/gql_client.py:75) is not modelled. Only the number of attempts and their outcomes are.
- Logging: every logging call is left out; none affects behaviour.
- Transport and client construction: building the gql client and its transport, and closing it on exit (shared/gql_client.py:54-73, 135-141), are not modelled. The remote API is a finite script of attempt outcomes; an exhausted script raises on every further attempt.
- Response shape: a response is abstracted to a page of edges with `hasNextPage`, `NoData`, or `Malformed`. `Malformed` stands for a response without a query name or without `pageInfo.hasNextPage`.
- Edges without a cursor or a node: edges always carry `cursor` and `node`, so the KeyError of an edge without one (shared/gql_client.py:30, 118, shared/delta_fetcher.py:60) is not modelled.
- Query text: GraphQL queries are opaque strings; functions/*/queries.py is not part of this model.
- Floating-point values: JSON numbers are integers only.
- Duplicate keys: a dict is an entry list that could repeat a key, and `Json.Get` reads the first such entry, where a dict built by Python's `json` keeps only the last. Dicts the source handles come from Python and have unique keys (`Json.UniqueKeys`), so the model does not distinguish the two.
- Azure SDKs: the Data Lake writer's file system, directory and file calls and its byte encoding (shared/data_lake_writer.py) are not modelled. A write stores its records as one file, or fails because the lake refuses the file system or directory.
- Parquet: the Parquet conversion (shared/utils/files.py) is not modelled. The lake receives the flattened records. `pa.Table.from_pylist` can raise on records whose field types conflict (shared/utils/files.py:48), which would abort the run before the write; the model does not capture that failure.
- Configuration service: the service is a map of settings with a set of unavailable keys. Reading or writing an unavailable key raises AzureError, and listing fails when any key is unavailable. Network failure modes beyond that are not distinguished.
- Clock: the file-name timestamp (shared/utils/time.py) is the `now` parameter of a run.
- Function wiring: the Azure Functions triggers and environment wiring (function_app.py, functions/*/syncronize_*.py) are not modelled. functions/timesheets/syncronize_timesheets.py:53 calls `syncronize()` without the `sync_from_scratch` argument, which would raise TypeError. The model follows the signature in shared/data_syncronizer.py:25.
- shared/extraction.py: the file is entirely commented out and is not part of this model.
- Synchronization.DataSynchronizer.Syncronize: requires both fetchers to share one GraphQL client, as every wiring in the repository does. Two independent clients are not modelled.
- Synchronization.DataSynchronizer.constructor: the state manager is required. The Python default `None` would raise on the first checkpoint access.
- Configuration.ConfigurationManager.SetAttr: requires a non-reserved name. Assigning `client`, `settings` or `prefix` rebinds the object's own field, which the model keeps immutable or updates only through `Load`.
- Configuration.ConfigurationManager.GetAttr: for a reserved name, Python's `super().__getattr__` is only reached when the field is missing. The model reports that case as AttributeError.
- Configuration.ConfigurationManager.Save: the dict's iteration order is a ghost out-parameter. Which order Python uses is left open.
- Sets.ListOf: `list(set)` yields some order, which the model does not fix. The incremental run exposes the orders it used as a ghost out-parameter.
- Aliasing: `paginate_gql_query` overwrites `after` in the caller's variables dict in place. The model passes variables by value, so that aliasing effect is not captured.
- Python equality: `True == 1` and `hash(1) == hash(1.0)` in Python set membership are not modelled. Ids compare as JSON values.
