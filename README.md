# mongo-to-elastic sync engine, modelled in Dafny

This project models the sync engine of `index.js`. The engine copies a MongoDB
collection into an Elasticsearch index, one batch at a time:

- **Source query construction.** `MongoAPI.get_docs` and `count_docs` build the
  filter: the user's `m_query` with its `_id` clause replaced by
  `{$gt: checkpoint}`. `get_docs` also builds the projection that maps every
  listed field to 1.
- **Transform step.** `transformDoc` deletes `_id` from the document object in
  place, then hands the same object to the transform hook.
- **Bulk bodies.** `insertDocs` emits an `index` action and the document for
  each document. `updateDocs` has two sub-modes:
  - direct-key mode emits `update` and `{doc}` for each document;
  - lookup mode emits `update` and `{doc}` for each id that a term search
    returns.
- **Retry policy.** After a transport error the engine flushes the index and
  retries the whole batch. After item-level errors it retries with no flush.
  After a clean reply the callback runs.
- **Runner.** An empty batch ends the run with "Sync Complete". Otherwise the
  last `_id` of the batch is remembered. When the write's callback runs,
  `docsRemaining` drops by the batch size, the checkpoint moves to that `_id`,
  and the runner starts again.
- **Options.** The mandatory-option check and `parse_options`.
- **Example hooks.** `transform-examples/transform.js` and
  `transform-examples/timestamp-created.js` copy `_created_at` into
  `@timestamp` on the object they are given.

How the model is laid out:

- Documents are `map<string, Value>` values held in mutable `Doc` objects.
  The engine changes these objects in place and reuses them across retries.
- `MongoAPI`, `ElasticAPI` and the runner state (`Sync`, with `docsRemaining`)
  are classes whose methods update their fields.
- The MongoDB collection is a sequence of documents in natural order.
- Elasticsearch is seen through three inputs:
  - `sent`, the trace of requests the engine issues (bulk bodies and flushes);
  - `replies`, a stream of bulk replies (`Err`, `Errors` or `Ok`);
  - `searches`, one success flag per lookup round;
  - search hits, a function from the key's value to a list of ids.
- When an input stream runs out, the write in flight never calls back. The
  run then ends as `Stalled`.
- Each imperative method is proved against a specification function:
  - `KeyedRetry` and `LookupRetry` for the writes;
  - `SyncFrom`, `SyncBatch` and `SyncWritten` for the runner;
  - `Pages` for the sequence of batches.
- Lemmas state what those functions promise.

## Where the code differs from what it implies

The model follows the code in each case below.

- Insert mode always uses the `index` action (`index.js:103`). There is no
  `create` action and no timestamp injection.
- `find` is issued without a sort (`index.js:46`). Ascending `_id` order is an
  assumption about the storage, and the completeness lemmas require it.
  `UnsortedStorageSkips` shows that an unsorted collection ends the run after
  one page and skips documents.
- The engine deletes `_id` from every document before the hook runs, yet a
  hook that builds a new object can put it back into what is sent
  (`HookMayRestoreId`).
- A retry passes the same, already transformed objects back in. When the key
  (`e_doc_id` for inserts, the field of `e_update_key` for direct-key updates)
  is `_id`, the retried actions carry an undefined id (`RetriedIdsUndefined`).
  So a retried insert or update does not address the same index documents as
  the first attempt.
- A user `_id` clause in `m_query` holds at most for the first page, and for
  none when `m_skip_id` is set. The checkpoint clause overwrites it in the
  shared `options.m_query` object, and count_docs already does so before the
  first fetch when `m_skip_id` is set (`index.js:61-63`, `UserIdClauseDropped`).
- A negative `m_limit` is passed to `limit()` unchanged. MongoDB takes its
  absolute value (`TakeCount`).

## Model

| member | source | states |
|---|---|---|
| `TransformExample.StampCreatedAt` | transform-examples/transform.js:8 | `@timestamp` holds the input's `_created_at` (undefined when absent); every other key keeps its value; the keys are the input's plus `@timestamp` |
| `TransformExample.Transform` | transform-examples/transform.js:7-10 | the hook assigns into the object it is given and returns that same object |
| `TransformExample.StampIdempotent` | transform-examples/transform.js:8 | applying the hook twice gives the same document as applying it once |
| `TransformExample.StampWithoutCreatedAt` | transform-examples/transform.js:8 | without `_created_at`, `@timestamp` is still created, holding undefined |
| `TransformExample.StampKeepsId` | transform-examples/transform.js:8 | the hook neither removes nor adds `_id` |
| `TimestampCreated.Transform` | transform-examples/timestamp-created.js:7-10 | the same in-place copy: returns its argument; every key other than `@timestamp` is unchanged |
| `TransformStep.TransformDoc` | index.js:396-400 | `_id` is deleted from the object before the hook runs; the result is the hook's value on the stripped document; for hooks that return their argument, the object holds the result |
| `Documents.Strip` | index.js:397 | `delete doc._id`: the keys are the input's without `_id`, and every other value is kept |
| `TransformStep.Transformed` | index.js:396-400 | the returned document has no `_id` for in-place hooks; a new-object hook's result is the hook applied to the document without `_id` |
| `TransformStep.Step` | index.js:396-400 | after transformDoc the object holds no `_id`, whatever the hook; for in-place hooks it holds the returned document |
| `TransformStep.HookMayRestoreId` | index.js:398 | a concrete hook that re-adds `_id` to what is sent |
| `TransformStep.StepIdempotent` | index.js:397-398 | running transformDoc again on a transformed object leaves it as it is |
| `TransformStep.TransformedStable` | index.js:121 | a retry passes the hook an already transformed object and gets back the same document as the first attempt |
| `TransformStep.StepsIdempotent` | index.js:166 | transforming a whole batch again changes no object |
| `Options.Split` | index.js:371 | `split(',')` yields at least one part and no part contains a comma |
| `Options.SplitJoin` | index.js:371 | splitting loses nothing: joining the parts with commas gives the input |
| `Options.JoinSplit` | index.js:374 | comma-free parts joined and split again give the parts back |
| `Options.SplitNoComma` | index.js:374 | a string without a comma splits into itself alone |
| `Options.SplitAfterComma` | index.js:374 | a comma-free prefix is the first part, and splitting goes on after the comma |
| `Options.SplitHead` | index.js:374 | the first part is the longest comma-free prefix of the input |
| `Options.HeadIsTrue` | index.js:375 | the part after a comma is `"true"` exactly when the text reads `true` up to the next comma |
| `Options.ParseUpdateKey` | index.js:373-376 | the update field is a comma-free prefix of `e_update_key`; the direct-key flag is set only when a comma follows that prefix |
| `Options.UpdateKeyMeaning` | index.js:373-376 | the update field is the text before the first comma; the direct-key flag is set exactly when the next part is the string `true` |
| `Options.Configure` | index.js:313-316 | the run is rejected exactly when a host, db, collection, e_host, e_index or e_type option is missing, or both e_doc_id and e_update_key are |
| `Options.ConfigureMeaning` | index.js:369-379 | limit is 100 when unset or 0, else as given; fields are present exactly when `m_fields` is set, and join back to it; insert mode exactly when `e_update_key` is unset, keyed by `e_doc_id`; update modes carry the parsed key and flag |
| `SourceReader.SelectByKeeps` | index.js:46 | a document is selected exactly when it is stored and satisfies the filter |
| `SourceReader.TakeCount` | index.js:46 | `limit(n)` returns no more than is available, and something when anything matches |
| `SourceReader.FilterFor` | index.js:32-39 | with no checkpoint the filter is the user's query (or `{}`); with one, `_id` is `{$gt: checkpoint}` and every other user clause is kept |
| `SourceReader.ProjectionOf` | index.js:41-45 | the projection's keys are exactly the listed fields, each mapped to 1; none listed gives `{}` |
| `SourceReader.BuildProjection` | index.js:41-45 | the `forEach` loop builds exactly that projection |
| `SourceReader.Find` | index.js:46 | the batch is the front of the matching documents in natural order, projected; it is empty exactly when nothing matches, and a non-zero limit bounds its size by the limit's absolute value |
| `SourceReader.MongoAPI.constructor` | index.js:25-29 | the client holds the collection and the starting `mongoSkipId` |
| `SourceReader.MongoAPI.BuildQuery` | index.js:32-39 | the query is the filter for the current checkpoint; when `m_query` is set, the same object receives the `_id` clause |
| `SourceReader.MongoAPI.GetDocs` | index.js:31-54 | the batch holds exactly the first `limit` matching documents, projected, as fresh distinct objects |
| `SourceReader.MongoAPI.CountDocs` | index.js:56-72 | the count is the number of documents matching the same filter get_docs uses |
| `SourceReader.SharedQueryRewrite` | index.js:35-38 | writing the `_id` clause into the shared query changes no later filter |
| `SourceReader.ProjectKeepsId` | index.js:46 | an inclusion projection keeps `_id` |
| `SourceReader.MatchesWithCheckpoint` | index.js:37-39 | with a checkpoint, a document matches exactly when it matches the user's other clauses and its id is greater |
| `SourceReader.PageEntryStored` | index.js:46 | each batch entry is the projection of a stored document after the checkpoint, with the same id |
| `SourceReader.BatchAdvances` | index.js:282 | a non-empty batch lies after the checkpoint, and fewer stored documents lie after its last `_id` (the runner terminates) |
| `SourceReader.PagesStep` | index.js:279-289 | a non-empty fetch is the first page, and the pages continue from its last `_id` |
| `SourceReader.PagesEnd` | index.js:280-305 | an empty fetch ends the pages |
| `SourceReader.PagesAfterCheckpoint` | index.js:282-287 | in any storage order, every page is non-empty and lies after the previous page's last `_id` |
| `SourceReader.NarrowedFilter` | index.js:37-39 | once a checkpoint is set, a later filter selects the earlier filter's documents with larger ids |
| `SourceReader.PageEndsOnMatch` | index.js:46 | a page is the projected front of the matching documents, and its last `_id` is above the old checkpoint |
| `SourceReader.SelectAfter` | index.js:37-39 | a later checkpoint selects the earlier selection's documents after it |
| `SourceReader.NextPageIsRest` | index.js:279-289 | with ascending storage, the next filter selects exactly the matching documents after the page |
| `SourceReader.PagesCoverMatches` | index.js:279-306 | resume and completeness: with ascending storage, and no user `_id` clause unless the run starts from a checkpoint, the pages together are every matching document, projected, in order, each once |
| `SourceReader.PagesMatchCount` | index.js:340-343 | with ascending storage, and no user `_id` clause unless the run starts from a checkpoint, the pages hold as many documents as count_docs reports |
| `SourceReader.NothingAfter` | index.js:280 | no document after the largest id: the fetch is empty |
| `SourceReader.FirstOfUnfiltered` | index.js:46 | with no filter and `limit(1)`, the batch is the first stored document |
| `SourceReader.UnsortedStorageSkips` | index.js:46 | without a sort, storage in non-ascending order ends the run after one page of three documents |
| `SourceReader.FirstPageOfIdQuery` | index.js:35 | a user `_id` clause selects the one document it names on the first page |
| `SourceReader.AfterFirstSelected` | index.js:38 | `{_id: {$gt: 1}}` selects the later documents |
| `SourceReader.SecondPageOfIdQuery` | index.js:37-38 | on the second page the checkpoint has replaced the user's `_id` clause |
| `SourceReader.LaterPagesOfIdQuery` | index.js:37-38 | from the first checkpoint on, the pages hold every later document |
| `SourceReader.UserIdClauseDropped` | index.js:35-38 | a user `_id` query matching one document still syncs all three |
| `BulkBody.KeyedBody` | index.js:95-106 | two lines per document, in batch order: the action with the id read before the transform, then the transformed document |
| `BulkBody.KeyedBodySnoc` | index.js:96-106 | each document pushed appends exactly its own pair |
| `BulkBody.TypeOnlyBeforeSeven` | index.js:87 | every action names `e_index`; `_type` is present exactly when the major version is 6 or lower |
| `BulkBody.StepKeepsField` | index.js:397-398 | the transform leaves fields other than `_id` and `@timestamp` unchanged |
| `BulkBody.RetryBody` | index.js:121 | a retry sends the same documents, and the same ids unless the key is `_id` or `@timestamp` |
| `BulkBody.RetriedIdsUndefined` | index.js:97 | with the key set to `_id`, every retried `index` or direct-key `update` action carries an undefined id (also index.js:143) |
| `BulkBody.HitPairs` | index.js:206-216 | one `update` pair per hit id, in hit order, each followed by the transformed document |
| `BulkBody.LookupBody` | index.js:182-228 | the body a search round collects is whole command/document pairs |
| `BulkBody.LookupBodyLength` | index.js:203-216 | the lookup body has exactly two lines per hit |
| `BulkBody.LookupBodyEmpty` | index.js:219-223 | the lookup body is empty exactly when no document has a hit |
| `BulkBody.LookupBodyAnyOrder` | index.js:197-230 | whatever order the searches complete in, the body holds the same lines, each as often |
| `BulkBody.LookupBodyWithout` | index.js:205-216 | the lines of a body are those without one document plus that document's pairs |
| `BulkBody.LookupBodyAppend` | index.js:182-228 | the body for two runs of documents is the first's body followed by the second's |
| `BulkBody.LookupBodyHasHit` | index.js:205-216 | the j-th hit of document i is updated with that document's transform, after every hit of the documents before it |
| `BulkBody.LookupAsDirect` | index.js:140-152 | when each document's only hit is its own key value, the lookup body is the direct-key body |
| `RetryPolicy.BulkRetry` | index.js:109-132 | the first request is the bulk of the first body; no more replies are used than given |
| `RetryPolicy.BulkRetried` | index.js:112-127 | a non-`Ok` reply sends the bulk, a flush after a transport error only, then the retries |
| `RetryPolicy.AckedAtFirstOk` | index.js:128-131 | the callback runs exactly when some reply is `Ok`, after the first one; otherwise every reply is used |
| `RetryPolicy.RetryCounts` | index.js:109-131 | one bulk per reply used, plus the one left waiting; one flush per transport error |
| `RetryPolicy.RetryShape` | index.js:114-126 | every retry resends the whole batch; every flush follows a bulk and names `e_index`; the trace ends with a bulk |
| `RetryPolicy.LookupRetry` | index.js:182-273 | a lookup write uses no more search rounds or replies than given and keeps the batch's size |
| `RetryPolicy.LookupRetried` | index.js:236-250 | a failing bulk reply is followed by the flush (transport error only) and a new round on the transformed objects |
| `RetryPolicy.LookupRoundEnds` | index.js:230-261 | after a successful round, no hits means callback without a bulk; otherwise one bulk, acknowledged by an `Ok` |
| `RetryPolicy.NoHitsNoWrite` | index.js:219-223 | a round where no document has a hit completes with no request and leaves every object untouched |
| `RetryPolicy.LookupAcked` | index.js:230-273 | the callback runs only after a successful round whose bulk got `Ok` or was empty; no `Ok` was passed over; without a callback an input ran out |
| `RetryPolicy.LookupFlushes` | index.js:263-272 | one flush per failed search round plus one per transport error |
| `RetryPolicy.LookupFinal` | index.js:205-216 | each object ends either untouched or transformed |
| `IndexWriter.KeyedRetry` | index.js:109-132 | a keyed write first sends the body built from the untransformed batch; its callback runs exactly when some reply is `Ok`; without it every reply is used |
| `IndexWriter.KeyedRetried` | index.js:121 | a keyed retry rebuilds the body from the already transformed objects |
| `IndexWriter.ElasticAPI.constructor` | index.js:76-91 | `isTypeDepricated` is set from the server's major version; nothing sent yet |
| `IndexWriter.ElasticAPI.KeyedEntry` | index.js:96-105 | the action's id is read before transformDoc, which transforms the object |
| `IndexWriter.ElasticAPI.BuildKeyedBody` | index.js:95-106 | the loop builds exactly the keyed body and transforms every object |
| `IndexWriter.ElasticAPI.KeyedWrite` | index.js:109-132 | the requests sent and the callback follow the retry policy; objects end transformed |
| `IndexWriter.ElasticAPI.InsertDocs` | index.js:93-133 | insertDocs is a keyed write with the `index` action under `e_doc_id` |
| `IndexWriter.ElasticAPI.PushHits` | index.js:203-223 | one pair per hit; the object is transformed exactly when there is a hit |
| `IndexWriter.ElasticAPI.BuildLookupBody` | index.js:182-228 | the search round builds exactly the lookup body and transforms the objects with hits |
| `IndexWriter.ElasticAPI.LookupWrite` | index.js:182-273 | the lookup branch sends what the lookup retry policy says |
| `IndexWriter.ElasticAPI.WriteFound` | index.js:231-261 | a successful round writes its body, or calls back when it is empty |
| `IndexWriter.ElasticAPI.SendAndRetry` | index.js:233-256 | the bulk of a non-empty lookup body, retried on a non-`Ok` reply |
| `IndexWriter.ElasticAPI.UpdateDocs` | index.js:135-275 | direct-key mode is a keyed write with `update`; lookup mode follows the lookup policy |
| `SyncRunner.WriteBatch` | index.js:284-301 | a batch's write uses no more inputs than given, and searches only in lookup mode |
| `SyncRunner.SyncFrom` | index.js:278-308 | a run never reports missing options; it stalls only after fetching a batch; a run that fetched nothing completed, sent nothing and kept its checkpoint |
| `SyncRunner.SyncBatch` | index.js:279-305 | an empty batch gives no pages and no requests; otherwise the batch is the first page |
| `SyncRunner.SyncWritten` | index.js:284-301 | the written batch is the first page; the run's requests start with the write's; a write whose callback never runs stalls the run on that batch |
| `SyncRunner.SyncEnds` | index.js:303-305 | an empty fetch completes the sync with nothing sent and nothing counted off |
| `SyncRunner.WrittenAdvances` | index.js:285-289 | after the callback the run goes on from the batch's last `_id`, with the remaining inputs |
| `SyncRunner.SyncFetchesPages` | index.js:278-308 | the run writes the pages in order: all of them when it completes, a prefix ending with the stalled batch otherwise |
| `SyncRunner.SyncCountsOff` | index.js:286-287 | `docsRemaining` drops by exactly the documents of batches whose callback ran; the checkpoint is the last `_id` of the last of them |
| `SyncRunner.CompleteCountsToZero` | index.js:340-343 | starting from count_docs with ascending storage, and no user `_id` clause unless the run starts from a checkpoint, a completed run ends with `docsRemaining` at 0 |
| `SyncRunner.HealthyWriteAcks` | index.js:128-131 | a clean first reply (and a successful round in lookup mode) acknowledges a write after one reply at most |
| `SyncRunner.HealthyRunCompletes` | index.js:278-308 | against an index that always succeeds, the run reaches "Sync Complete" |
| `SyncRunner.AgreedFilter` | index.js:35-38 | the filter built from the rewritten `m_query` object is the filter of the user's query |
| `SyncRunner.AgreesAfterFetch` | index.js:38 | writing the current checkpoint's clause keeps the shared object agreeing with the user's query |
| `SyncRunner.Sync.constructor` | index.js:340-343 | `totalDocs` and `docsRemaining` start at the count |
| `SyncRunner.Sync.WriteDocs` | index.js:284-301 | updateDocs when `e_update_key` is set, else insertDocs |
| `SyncRunner.Sync.Runner` | index.js:278-308 | the runner's outcome, requests, `docsRemaining` and `mongoSkipId` are those of the run from the current checkpoint; `totalDocs` is unchanged and `options.m_query` still agrees with the user's query |
| `SyncRunner.Sync.WriteAndGoOn` | index.js:280-301 | the last `_id` is taken before the write transforms the objects, then the batch is written; `totalDocs` is unchanged |
| `SyncRunner.Sync.Callback` | index.js:285-290 | in the callback, `docsRemaining` drops by the batch size, `mongoSkipId` becomes the last `_id`, and the runner runs again; `totalDocs` is unchanged |
| `SyncRunner.Script` | index.js:310-345 | missing mandatory options end the run with nothing sent; otherwise the run starts from `m_skip_id` with `docsRemaining` set by count_docs |

## Left out

- The MongoDB and Elasticsearch clients are not modelled: `connect`, `find`,
  `count`, `bulk`, `search`, `indices.flush` and `info`. Their answers are
  inputs: the collection, the reply and search streams, the hits function and
  the server's major version.
- `command-line-args`, `JSON.parse` of `m_query` and `require` of the transform
  module are library calls. Their results are given values. The
  `typeof transformFunction` check and the exit on a malformed query are left
  out with them.
- The version check's `parseInt` and its race are left out. `isTypeDepricated`
  is set from a given major version before the first write. In the source it
  stays undefined until `info` answers. `BulkBody.TypeDeprecated` is only the
  comparison of that given major version with 6; its effect on the actions is
  what `TypeOnlyBeforeSeven` states.
- The `Promise.all` fan-out of the lookup searches (index.js:197-230) fixes no
  order between documents: each search's callback pushes its pairs when it
  completes. `LookupBody` takes the documents in batch order;
  `LookupBodyAnyOrder` shows that every completion order gives the same lines,
  each as often.
- BulkBody.LookupBodyAppend: the order between documents is the model's batch
  order; in the source it is the order in which the searches complete.
- BulkBody.LookupBodyHasHit: "after every hit of the documents before it" is
  batch order, the model's choice; the source only keeps each document's own
  pairs together and in hit order.
- BulkBody.LookupAsDirect: equality with the direct-key body holds for the
  batch order only; in the source the body is a reordering of it by document,
  and when two documents share a key value the final index state can differ.
- RetryPolicy.LookupRetry: a failed search round transforms no object. In the
  source, the searches of that round that did succeed may already have run
  their callbacks.
- The retries of `get_docs` and `count_docs` after a read error are left out.
  They loop until the read succeeds, and the model reads once.
- The flush's own error callback only logs, so it is not modelled.
- An input stream that runs out ends the model's run as `Stalled`. The source
  would wait, or retry forever.
- The progress percentage, `toFixed` and `totalDocs` arithmetic are left out,
  and so are logging, `Date`, `console` and `process.exit`. Exit is the outcome
  of the run.
- `options.thread` is computed but never used.
- `m_skip_id` is taken as an ObjectId already; hex parsing is left out.
- Query operators other than equality and `$gt` are left out.
- SourceReader.Holds: an equality clause `{f: null}` matches only a field
  holding null. In MongoDB it also matches a document without the field.
- `m_limit` is a JavaScript Number (index.js:12); the model takes it as an
  integer, so fractional and NaN limits are left out.
- A transform hook that changes its argument other than by the example copy is
  left out. Hooks are the identity, the two example hooks, or a hook that
  returns a new object. The reason: every modelled in-place hook is
  idempotent. The hook runs again on an already transformed object in two
  places: on a retry (index.js:121, 166, 245), and in lookup mode for every hit
  after the first of one document within a single round (index.js:215). In
  both, an idempotent hook sends the same document. A non-idempotent in-place
  hook, such as one that renames a field, would send a different document
  there (the renamed field is gone). `StepIdempotent`, `TransformedStable`,
  `StepsIdempotent`, `RetryBody`, `LookupFinal`, `ElasticAPI.PushHits` and
  `ElasticAPI.BuildLookupBody` rest on this restriction.
- SyncRunner.CompleteCountsToZero: requires storage in ascending `_id` order,
  which the source does not enforce. It also requires that the user query has
  no `_id` clause unless the run starts from a checkpoint
  (`UserIdClauseDropped` shows the count and the synced documents differing
  otherwise).
- SourceReader.PagesCoverMatches and SourceReader.PagesMatchCount: the same
  two conditions, ascending storage (`UnsortedStorageSkips`) and no user `_id`
  clause before the first checkpoint (`UserIdClauseDropped`).
- SourceReader.WellFormed: every stored document carrying an ObjectId `_id` is
  an assumption about the collection.
