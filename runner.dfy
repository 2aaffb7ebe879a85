/** `runner` and the start of the script in index.js: fetch a batch from the
    checkpoint, write it with the configured strategy, and once the write's
    callback runs, count the batch off, move the checkpoint to the batch's
    last `_id` and fetch again, until a fetch comes back empty. */
module SyncRunner {
  import opened Documents
  import opened TransformStep
  import opened Options
  import opened SourceReader
  import opened BulkBody
  import opened RetryPolicy
  import opened IndexWriter

  /** How a run ends: "Sync Complete", a write whose callback never runs
      because an input stream ran out, or the mandatory-option check. */
  datatype Outcome = SyncComplete | Stalled | MandatoryOptionsMissing

  /** Everything a run is configured with. `query` is the user's query as
      parsed, before any `_id` clause is written into it. */
  datatype Job = Job(coll: seq<Document>, query: Option<Query>, projection: map<string, int>, limit: int,
                     mode: WriteMode, target: Target, hook: Hook, hits: Value -> seq<string>)

  /** The requests one batch's write issues, whether its callback ran, and how
      many search outcomes and bulk replies it consumed. */
  datatype Write = Write(trace: seq<Request>, acked: bool, searchesUsed: nat, repliesUsed: nat)

  /** insertDocs when `e_update_key` is not set, else updateDocs. */
  function WriteBatch(j: Job, batch: seq<Document>, searches: seq<bool>, replies: seq<Response>): (w: Write)
    ensures w.searchesUsed <= |searches| && w.repliesUsed <= |replies|
    ensures !j.mode.LookupUpdate? ==> w.searchesUsed == 0
  {
    match j.mode
    case Insert(k) =>
      var r := KeyedRetry(IndexOp, j.target, j.hook, k, batch, replies);
      Write(r.trace, r.acked, 0, r.used)
    case DirectUpdate(k) =>
      var r := KeyedRetry(UpdateOp, j.target, j.hook, k, batch, replies);
      Write(r.trace, r.acked, 0, r.used)
    case LookupUpdate(k) =>
      var r := LookupRetry(j.target, j.hook, k, j.hits, batch, searches, replies);
      Write(r.trace, r.acked, r.searchesUsed, r.repliesUsed)
  }

  /** Where a run from a checkpoint gets to: how it ends, every request sent,
      the batches fetched, `docsRemaining`, and the last checkpoint. */
  datatype Progress = Progress(outcome: Outcome, trace: seq<Request>, pages: seq<seq<Document>>,
                               remaining: int, checkpoint: Option<nat>)

  /** The runner from checkpoint `cp` with `remaining` documents still counted. */
  ghost function SyncFrom(j: Job, cp: Option<nat>, remaining: int, searches: seq<bool>, replies: seq<Response>)
    : (r: Progress)
    requires WellFormed(j.coll)
    ensures r.outcome != MandatoryOptionsMissing && (r.outcome == Stalled ==> r.pages != [])
    ensures r.pages == [] ==> r.outcome == SyncComplete && r.trace == [] && r.checkpoint == cp
    decreases CountAbove(j.coll, cp), 2
  {
    SyncBatch(j, cp, remaining, searches, replies, Find(j.coll, FilterFor(j.query, cp), j.projection, j.limit))
  }

  /** The runner once `batch` has been fetched from checkpoint `cp`. */
  ghost function SyncBatch(j: Job, cp: Option<nat>, remaining: int, searches: seq<bool>, replies: seq<Response>,
                           batch: seq<Document>): (r: Progress)
    requires WellFormed(j.coll)
    requires batch == Find(j.coll, FilterFor(j.query, cp), j.projection, j.limit)
    ensures r.outcome != MandatoryOptionsMissing && (r.outcome == Stalled ==> r.pages != [])
    ensures if batch == [] then r.pages == [] && r.trace == [] else r.pages != [] && r.pages[0] == batch
    decreases CountAbove(j.coll, cp), 1
  {
    if batch == [] then Progress(SyncComplete, [], [], remaining, cp)
    else
      BatchAdvances(j.coll, j.query, j.projection, j.limit, cp);
      SyncWritten(j, cp, remaining, searches, replies, batch, WriteBatch(j, batch, searches, replies))
  }

  /** The runner once the non-empty `batch` has been written with outcome `w`. */
  ghost function SyncWritten(j: Job, cp: Option<nat>, remaining: int, searches: seq<bool>, replies: seq<Response>,
                             batch: seq<Document>, w: Write): (r: Progress)
    requires WellFormed(j.coll)
    requires batch != [] && CountAbove(j.coll, Some(NextCheckpoint(batch))) < CountAbove(j.coll, cp)
    requires w.searchesUsed <= |searches| && w.repliesUsed <= |replies|
    ensures r.outcome != MandatoryOptionsMissing && r.pages != [] && r.pages[0] == batch
    ensures |w.trace| <= |r.trace| && r.trace[..|w.trace|] == w.trace
    ensures !w.acked ==> r.outcome == Stalled && r.pages == [batch]
    decreases CountAbove(j.coll, cp), 0
  {
    if !w.acked then Progress(Stalled, w.trace, [batch], remaining, cp)
    else
      var rest := SyncFrom(j, Some(NextCheckpoint(batch)), remaining - |batch|,
                           searches[w.searchesUsed..], replies[w.repliesUsed..]);
      Progress(rest.outcome, w.trace + rest.trace, [batch] + rest.pages, rest.remaining, rest.checkpoint)
  }

  /** An empty fetch: "Sync Complete", nothing sent, nothing counted off. */
  lemma SyncEnds(j: Job, cp: Option<nat>, remaining: int, searches: seq<bool>, replies: seq<Response>)
    requires WellFormed(j.coll)
    requires Find(j.coll, FilterFor(j.query, cp), j.projection, j.limit) == []
    ensures SyncFrom(j, cp, remaining, searches, replies) == Progress(SyncComplete, [], [], remaining, cp)
  {
    assert SyncFrom(j, cp, remaining, searches, replies) == SyncBatch(j, cp, remaining, searches, replies, []);
  }

  /** A batch whose write's callback ran: the run goes on from its last `_id`. */
  lemma WrittenAdvances(j: Job, cp: Option<nat>, remaining: int, searches: seq<bool>, replies: seq<Response>,
                        batch: seq<Document>, w: Write, rest: Progress)
    requires WellFormed(j.coll)
    requires batch != [] && CountAbove(j.coll, Some(NextCheckpoint(batch))) < CountAbove(j.coll, cp)
    requires w.searchesUsed <= |searches| && w.repliesUsed <= |replies| && w.acked
    requires rest == SyncFrom(j, Some(NextCheckpoint(batch)), remaining - |batch|,
                              searches[w.searchesUsed..], replies[w.repliesUsed..])
    ensures SyncWritten(j, cp, remaining, searches, replies, batch, w)
      == Progress(rest.outcome, w.trace + rest.trace, [batch] + rest.pages, rest.remaining, rest.checkpoint)
  {
  }

  /** The pages whose write's callback ran: all of them, except the last one
      of a stalled run. */
  function Written(p: Progress): seq<seq<Document>>
  {
    if p.outcome == Stalled && p.pages != [] then p.pages[..|p.pages| - 1] else p.pages
  }

  /** `p` fetched a prefix of `all`: the stalled batch last when it stalled,
      all of them when it completed. */
  predicate FetchedFrom(p: Progress, all: seq<seq<Document>>)
  {
    && |p.pages| <= |all| && p.pages == all[..|p.pages|]
    && (p.outcome == SyncComplete ==> p.pages == all)
    && (p.outcome == Stalled ==> p.pages != [])
    && p.outcome != MandatoryOptionsMissing
  }

  /** `p` counted off every batch whose callback ran, from `remaining`, and
      left the checkpoint at the last `_id` of the last of them. */
  predicate CountedOff(p: Progress, remaining: int, cp: Option<nat>)
  {
    && (forall i :: 0 <= i < |p.pages| ==> p.pages[i] != [])
    && (p.outcome == Stalled ==> p.pages != [])
    && p.remaining == remaining - |Flatten(Written(p))|
    && p.checkpoint == (if Written(p) == [] then cp else Some(NextCheckpoint(Written(p)[|Written(p)| - 1])))
  }

  lemma FetchedCons(rest: Progress, later: seq<seq<Document>>, batch: seq<Document>, trace: seq<Request>)
    ensures FetchedFrom(rest, later)
            ==> FetchedFrom(Progress(rest.outcome, trace, [batch] + rest.pages, rest.remaining, rest.checkpoint),
                            [batch] + later)
  {
    if FetchedFrom(rest, later) {
      assert ([batch] + later)[..1 + |rest.pages|] == [batch] + later[..|rest.pages|];
    }
  }

  lemma CountedCons(rest: Progress, remaining: int, cp: Option<nat>, batch: seq<Document>, trace: seq<Request>)
    requires batch != [] && CountedOff(rest, remaining - |batch|, Some(NextCheckpoint(batch)))
    ensures CountedOff(Progress(rest.outcome, trace, [batch] + rest.pages, rest.remaining, rest.checkpoint),
                       remaining, cp)
  {
    var p := Progress(rest.outcome, trace, [batch] + rest.pages, rest.remaining, rest.checkpoint);
    if rest.outcome == Stalled {
      assert ([batch] + rest.pages)[..|rest.pages|] == [batch] + rest.pages[..|rest.pages| - 1];
    }
    assert Written(p) == [batch] + Written(rest);
    FlattenCons(batch, Written(rest));
  }

  /** The run fetches the pages of the collection in order: a prefix of them
      when it stalls, with the stalled batch last, and all of them when it
      completes. */
  lemma SyncFetchesPages(j: Job, cp: Option<nat>, remaining: int, searches: seq<bool>, replies: seq<Response>)
    requires WellFormed(j.coll)
    decreases CountAbove(j.coll, cp), 2
    ensures FetchedFrom(SyncFrom(j, cp, remaining, searches, replies),
                        Pages(j.coll, j.query, j.projection, j.limit, cp))
  {
    var batch := Find(j.coll, FilterFor(j.query, cp), j.projection, j.limit);
    assert SyncFrom(j, cp, remaining, searches, replies) == SyncBatch(j, cp, remaining, searches, replies, batch);
    BatchFetchesPages(j, cp, remaining, searches, replies, batch);
  }

  lemma BatchFetchesPages(j: Job, cp: Option<nat>, remaining: int, searches: seq<bool>, replies: seq<Response>,
                          batch: seq<Document>)
    requires WellFormed(j.coll)
    requires batch == Find(j.coll, FilterFor(j.query, cp), j.projection, j.limit)
    decreases CountAbove(j.coll, cp), 1
    ensures FetchedFrom(SyncBatch(j, cp, remaining, searches, replies, batch),
                        Pages(j.coll, j.query, j.projection, j.limit, cp))
  {
    if batch == [] {
      PagesEnd(j.coll, j.query, j.projection, j.limit, cp);
    } else {
      PagesStep(j.coll, j.query, j.projection, j.limit, cp);
      BatchAdvances(j.coll, j.query, j.projection, j.limit, cp);
      WrittenFetchesPages(j, cp, remaining, searches, replies, batch, WriteBatch(j, batch, searches, replies),
                          Pages(j.coll, j.query, j.projection, j.limit, Some(NextCheckpoint(batch))));
    }
  }

  lemma {:induction false} WrittenFetchesPages(j: Job, cp: Option<nat>, remaining: int, searches: seq<bool>,
                                               replies: seq<Response>, batch: seq<Document>, w: Write,
                                               later: seq<seq<Document>>)
    requires WellFormed(j.coll)
    requires batch != [] && CountAbove(j.coll, Some(NextCheckpoint(batch))) < CountAbove(j.coll, cp)
    requires w.searchesUsed <= |searches| && w.repliesUsed <= |replies|
    requires later == Pages(j.coll, j.query, j.projection, j.limit, Some(NextCheckpoint(batch)))
    decreases CountAbove(j.coll, cp), 0
    ensures FetchedFrom(SyncWritten(j, cp, remaining, searches, replies, batch, w), [batch] + later)
  {
    if w.acked {
      var c := Some(NextCheckpoint(batch));
      SyncFetchesPages(j, c, remaining - |batch|, searches[w.searchesUsed..], replies[w.repliesUsed..]);
      var rest := SyncFrom(j, c, remaining - |batch|, searches[w.searchesUsed..], replies[w.repliesUsed..]);
      FetchedCons(rest, later, batch, w.trace);
    }
  }

  /** `docsRemaining` drops by the size of each batch whose callback ran, and
      the checkpoint is the last `_id` of the last such batch. */
  lemma SyncCountsOff(j: Job, cp: Option<nat>, remaining: int, searches: seq<bool>, replies: seq<Response>)
    requires WellFormed(j.coll)
    decreases CountAbove(j.coll, cp), 2
    ensures CountedOff(SyncFrom(j, cp, remaining, searches, replies), remaining, cp)
  {
    var batch := Find(j.coll, FilterFor(j.query, cp), j.projection, j.limit);
    assert SyncFrom(j, cp, remaining, searches, replies) == SyncBatch(j, cp, remaining, searches, replies, batch);
    if batch != [] {
      BatchAdvances(j.coll, j.query, j.projection, j.limit, cp);
      WrittenCountsOff(j, cp, remaining, searches, replies, batch, WriteBatch(j, batch, searches, replies));
    }
  }

  lemma {:induction false} WrittenCountsOff(j: Job, cp: Option<nat>, remaining: int, searches: seq<bool>,
                                            replies: seq<Response>, batch: seq<Document>, w: Write)
    requires WellFormed(j.coll)
    requires batch != [] && CountAbove(j.coll, Some(NextCheckpoint(batch))) < CountAbove(j.coll, cp)
    requires w.searchesUsed <= |searches| && w.repliesUsed <= |replies|
    decreases CountAbove(j.coll, cp), 1
    ensures CountedOff(SyncWritten(j, cp, remaining, searches, replies, batch, w), remaining, cp)
  {
    if w.acked {
      var c := Some(NextCheckpoint(batch));
      SyncCountsOff(j, c, remaining - |batch|, searches[w.searchesUsed..], replies[w.repliesUsed..]);
      AckedCountsOff(j, cp, remaining, searches, replies, batch, w,
                     SyncFrom(j, c, remaining - |batch|, searches[w.searchesUsed..], replies[w.repliesUsed..]));
    } else {
      assert [batch][..0] == [];
    }
  }

  lemma AckedCountsOff(j: Job, cp: Option<nat>, remaining: int, searches: seq<bool>,
                       replies: seq<Response>, batch: seq<Document>, w: Write, rest: Progress)
    requires WellFormed(j.coll)
    requires batch != [] && CountAbove(j.coll, Some(NextCheckpoint(batch))) < CountAbove(j.coll, cp)
    requires w.searchesUsed <= |searches| && w.repliesUsed <= |replies| && w.acked
    requires rest == SyncFrom(j, Some(NextCheckpoint(batch)), remaining - |batch|,
                              searches[w.searchesUsed..], replies[w.repliesUsed..])
    requires CountedOff(rest, remaining - |batch|, Some(NextCheckpoint(batch)))
    ensures CountedOff(SyncWritten(j, cp, remaining, searches, replies, batch, w), remaining, cp)
  {
    CountedCons(rest, remaining, cp, batch, w.trace);
  }

  /** With storage in ascending `_id` order and `docsRemaining` started from
      count_docs, a run that completes has counted every document off. */
  lemma CompleteCountsToZero(j: Job, cp: Option<nat>, searches: seq<bool>, replies: seq<Response>)
    requires WellFormed(j.coll) && Sorted(j.coll)
    requires cp.Some? || j.query.None? || IdField !in j.query.value
    requires SyncFrom(j, cp, |Select(j.coll, FilterFor(j.query, cp))|, searches, replies).outcome == SyncComplete
    ensures SyncFrom(j, cp, |Select(j.coll, FilterFor(j.query, cp))|, searches, replies).remaining == 0
  {
    var count := |Select(j.coll, FilterFor(j.query, cp))|;
    SyncFetchesPages(j, cp, count, searches, replies);
    SyncCountsOff(j, cp, count, searches, replies);
    PagesMatchCount(j.coll, j.query, j.projection, j.limit, cp);
  }

  /** A first reply of `Ok`, and a successful first search round in lookup
      mode, make a write's callback run after one reply at most. */
  lemma HealthyWriteAcks(j: Job, batch: seq<Document>, searches: seq<bool>, replies: seq<Response>)
    requires replies != [] && replies[0] == Ok
    requires j.mode.LookupUpdate? ==> searches != [] && searches[0]
    ensures var w := WriteBatch(j, batch, searches, replies);
      w.acked && w.searchesUsed <= 1 && w.repliesUsed <= 1
  {
    if j.mode.LookupUpdate? {
      LookupRoundEnds(j.target, j.hook, j.mode.key, j.hits, batch, searches, replies);
    }
  }

  /** Against an index that answers every request with success, the run
      reaches "Sync Complete" once there are as many replies (and search
      rounds, in lookup mode) as documents after the checkpoint. */
  lemma HealthyRunCompletes(j: Job, cp: Option<nat>, remaining: int, searches: seq<bool>, replies: seq<Response>)
    requires WellFormed(j.coll)
    requires forall i :: 0 <= i < |replies| ==> replies[i] == Ok
    requires forall i :: 0 <= i < |searches| ==> searches[i]
    requires CountAbove(j.coll, cp) <= |replies|
    requires j.mode.LookupUpdate? ==> CountAbove(j.coll, cp) <= |searches|
    decreases CountAbove(j.coll, cp), 1
    ensures SyncFrom(j, cp, remaining, searches, replies).outcome == SyncComplete
  {
    var batch := Find(j.coll, FilterFor(j.query, cp), j.projection, j.limit);
    assert SyncFrom(j, cp, remaining, searches, replies) == SyncBatch(j, cp, remaining, searches, replies, batch);
    if batch != [] {
      BatchAdvances(j.coll, j.query, j.projection, j.limit, cp);
      HealthyBatchCompletes(j, cp, remaining, searches, replies, batch);
    }
  }

  lemma {:induction false} HealthyBatchCompletes(j: Job, cp: Option<nat>, remaining: int, searches: seq<bool>,
                                                 replies: seq<Response>, batch: seq<Document>)
    requires WellFormed(j.coll)
    requires batch == Find(j.coll, FilterFor(j.query, cp), j.projection, j.limit) && batch != []
    requires CountAbove(j.coll, Some(NextCheckpoint(batch))) < CountAbove(j.coll, cp)
    requires forall i :: 0 <= i < |replies| ==> replies[i] == Ok
    requires forall i :: 0 <= i < |searches| ==> searches[i]
    requires CountAbove(j.coll, cp) <= |replies|
    requires j.mode.LookupUpdate? ==> CountAbove(j.coll, cp) <= |searches|
    decreases CountAbove(j.coll, cp), 0
    ensures SyncBatch(j, cp, remaining, searches, replies, batch).outcome == SyncComplete
  {
    HealthyWriteAcks(j, batch, searches, replies);
    var w := WriteBatch(j, batch, searches, replies);
    var c := Some(NextCheckpoint(batch));
    HealthyRunCompletes(j, c, remaining - |batch|, searches[w.searchesUsed..], replies[w.repliesUsed..]);
  }

  // ---------------------------------------------------------------------------
  // The shared query object
  // ---------------------------------------------------------------------------

  /** get_docs and count_docs write the `_id` clause into `options.m_query`
      itself. The object they hold still agrees with the user's query on every
      other field, and is the user's query as long as there is no checkpoint. */
  predicate Agrees(shared: Option<Query>, userQuery: Option<Query>, cp: Option<nat>)
  {
    && (shared.Some? <==> userQuery.Some?)
    && (shared.Some? ==> shared.value - {IdField} == userQuery.value - {IdField})
    && (cp.None? ==> shared == userQuery)
  }

  /** The filter built from the rewritten object is the one built from the user's query. */
  lemma AgreedFilter(shared: Option<Query>, userQuery: Option<Query>, cp: Option<nat>)
    requires Agrees(shared, userQuery, cp)
    ensures FilterFor(shared, cp) == FilterFor(userQuery, cp)
  {
    if cp.Some? && shared.Some? {
      var a := FilterFor(shared, cp);
      var b := FilterFor(userQuery, cp);
      forall k | k != IdField
        ensures (k in a <==> k in b) && (k in a ==> a[k] == b[k])
      {
        assert k in shared.value <==> k in shared.value - {IdField};
        assert k in userQuery.value <==> k in userQuery.value - {IdField};
        if k in shared.value {
          assert shared.value[k] == (shared.value - {IdField})[k];
          assert userQuery.value[k] == (userQuery.value - {IdField})[k];
        }
      }
    }
  }

  /** Writing the clause for the current checkpoint keeps the object agreeing,
      at that checkpoint and whatever the next one. */
  lemma AgreesAfterFetch(shared: Option<Query>, userQuery: Option<Query>, cp: Option<nat>, c: nat)
    requires Agrees(shared, userQuery, cp)
    ensures Agrees(if shared.Some? then Some(FilterFor(shared, cp)) else None, userQuery, cp)
    ensures Agrees(if shared.Some? then Some(FilterFor(shared, cp)) else None, userQuery, Some(c))
  {
    if shared.Some? {
      var q := FilterFor(shared, cp);
      assert q - {IdField} == shared.value - {IdField};
    }
  }

  // ---------------------------------------------------------------------------
  // The script
  // ---------------------------------------------------------------------------

  /** The globals and clients of the script. */
  class Sync {
    const mongo: MongoAPI
    const elastic: ElasticAPI
    const mode: WriteMode
    const hook: Hook
    const hits: Value -> seq<string>
    var totalDocs: int
    var docsRemaining: int

    constructor (mongo: MongoAPI, elastic: ElasticAPI, mode: WriteMode, hook: Hook, hits: Value -> seq<string>,
                 count: nat)
      ensures this.mongo == mongo && this.elastic == elastic
      ensures this.mode == mode && this.hook == hook && this.hits == hits
      ensures totalDocs == count && docsRemaining == count
    {
      this.mongo := mongo;
      this.elastic := elastic;
      this.mode := mode;
      this.hook := hook;
      this.hits := hits;
      totalDocs := count;
      docsRemaining := count;
    }

    /** The run as configured, against the user's query. */
    ghost function JobFor(userQuery: Option<Query>): Job
    {
      Job(mongo.coll, userQuery, ProjectionOf(mongo.fields), mongo.limit, mode, elastic.target, hook, hits)
    }

    /** One batch's write, through insertDocs or updateDocs. */
    method WriteDocs(docs: seq<Doc>, ghost userQuery: Option<Query>, searches: seq<bool>, replies: seq<Response>)
      returns (acked: bool, searchesUsed: nat, repliesUsed: nat)
      requires Distinct(docs)
      modifies elastic, docs
      ensures var w := WriteBatch(JobFor(userQuery), old(Fields(docs)), searches, replies);
        && elastic.sent == old(elastic.sent) + w.trace
        && acked == w.acked && searchesUsed == w.searchesUsed && repliesUsed == w.repliesUsed
    {
      if mode.Insert? {
        acked, repliesUsed := elastic.InsertDocs(hook, mode.docIdKey, docs, replies);
        searchesUsed := 0;
      } else {
        acked, searchesUsed, repliesUsed :=
          elastic.UpdateDocs(hook, mode.key, mode.DirectUpdate?, hits, docs, searches, replies);
      }
    }

    /** runner: fetch a batch; when it is empty, the sync is complete;
        otherwise write it. */
    method Runner(ghost userQuery: Option<Query>, searches: seq<bool>, replies: seq<Response>)
      returns (outcome: Outcome)
      requires WellFormed(mongo.coll)
      requires Agrees(mongo.sharedQuery, userQuery, mongo.mongoSkipId)
      modifies this, mongo, elastic
      decreases CountAbove(mongo.coll, mongo.mongoSkipId), 2
      ensures var p := SyncFrom(JobFor(userQuery), old(mongo.mongoSkipId), old(docsRemaining), searches, replies);
        && outcome == p.outcome
        && elastic.sent == old(elastic.sent) + p.trace
        && docsRemaining == p.remaining
        && mongo.mongoSkipId == p.checkpoint
      ensures totalDocs == old(totalDocs) && Agrees(mongo.sharedQuery, userQuery, mongo.mongoSkipId)
    {
      ghost var cp := mongo.mongoSkipId;
      AgreedFilter(mongo.sharedQuery, userQuery, cp);
      var docs := mongo.GetDocs();
      if |docs| == 0 {
        AgreesAfterFetch(old(mongo.sharedQuery), userQuery, cp, 0);
        SyncEnds(JobFor(userQuery), cp, docsRemaining, searches, replies);
        return SyncComplete;
      }
      AgreesAfterFetch(old(mongo.sharedQuery), userQuery, cp, NextCheckpoint(Fields(docs)));
      assert SyncFrom(JobFor(userQuery), cp, docsRemaining, searches, replies)
          == SyncBatch(JobFor(userQuery), cp, docsRemaining, searches, replies, Fields(docs));
      outcome := WriteAndGoOn(docs, userQuery, searches, replies);
    }

    /** The rest of runner for a fetched batch: remember its last `_id` before
        the write transforms the objects, then write it. */
    method WriteAndGoOn(docs: seq<Doc>, ghost userQuery: Option<Query>, searches: seq<bool>, replies: seq<Response>)
      returns (outcome: Outcome)
      requires WellFormed(mongo.coll) && docs != [] && Distinct(docs)
      requires Fields(docs) == Find(mongo.coll, FilterFor(userQuery, mongo.mongoSkipId), ProjectionOf(mongo.fields), mongo.limit)
      requires Agrees(mongo.sharedQuery, userQuery, mongo.mongoSkipId)
      requires Agrees(mongo.sharedQuery, userQuery, Some(NextCheckpoint(Fields(docs))))
      modifies this, mongo, elastic, docs
      decreases CountAbove(mongo.coll, mongo.mongoSkipId), 1
      ensures var p := SyncBatch(JobFor(userQuery), old(mongo.mongoSkipId), old(docsRemaining), searches, replies,
                                 old(Fields(docs)));
        && outcome == p.outcome
        && elastic.sent == old(elastic.sent) + p.trace
        && docsRemaining == p.remaining
        && mongo.mongoSkipId == p.checkpoint
      ensures totalDocs == old(totalDocs) && Agrees(mongo.sharedQuery, userQuery, mongo.mongoSkipId)
    {
      ghost var batch := Fields(docs);
      var lastDocId := IdOf(docs[|docs| - 1].fields);
      assert lastDocId == NextCheckpoint(batch);
      ghost var w := WriteBatch(JobFor(userQuery), batch, searches, replies);
      BatchAdvances(mongo.coll, userQuery, ProjectionOf(mongo.fields), mongo.limit, mongo.mongoSkipId);
      var acked, searchesUsed, repliesUsed := WriteDocs(docs, userQuery, searches, replies);
      outcome := Callback(acked, searchesUsed, repliesUsed, lastDocId, |docs|, userQuery, searches, replies,
                          batch, w, old(elastic.sent));
    }

    /** The write's callback, when it runs: count the batch off, move the
        checkpoint, and run again. */
    method Callback(acked: bool, searchesUsed: nat, repliesUsed: nat, lastDocId: nat, written: nat,
                    ghost userQuery: Option<Query>, searches: seq<bool>, replies: seq<Response>,
                    ghost batch: seq<Document>, ghost w: Write, ghost before: seq<Request>)
      returns (outcome: Outcome)
      requires WellFormed(mongo.coll) && batch != []
      requires CountAbove(mongo.coll, Some(NextCheckpoint(batch))) < CountAbove(mongo.coll, mongo.mongoSkipId)
      requires lastDocId == NextCheckpoint(batch) && written == |batch|
      requires w.searchesUsed <= |searches| && w.repliesUsed <= |replies|
      requires acked == w.acked && searchesUsed == w.searchesUsed && repliesUsed == w.repliesUsed
      requires elastic.sent == before + w.trace
      requires Agrees(mongo.sharedQuery, userQuery, mongo.mongoSkipId)
      requires Agrees(mongo.sharedQuery, userQuery, Some(lastDocId))
      modifies this, mongo, elastic
      decreases CountAbove(mongo.coll, mongo.mongoSkipId), 0
      ensures var p := SyncWritten(JobFor(userQuery), old(mongo.mongoSkipId), old(docsRemaining), searches, replies,
                                   batch, w);
        && outcome == p.outcome
        && elastic.sent == before + p.trace
        && docsRemaining == p.remaining
        && mongo.mongoSkipId == p.checkpoint
      ensures totalDocs == old(totalDocs) && Agrees(mongo.sharedQuery, userQuery, mongo.mongoSkipId)
    {
      if !acked {
        return Stalled;
      }
      ghost var j, cp, remaining := JobFor(userQuery), mongo.mongoSkipId, docsRemaining;
      docsRemaining := docsRemaining - written;
      mongo.mongoSkipId := Some(lastDocId);
      ghost var rest := SyncFrom(j, Some(lastDocId), docsRemaining, searches[searchesUsed..], replies[repliesUsed..]);
      WrittenAdvances(j, cp, remaining, searches, replies, batch, w, rest);
      outcome := Runner(userQuery, searches[searchesUsed..], replies[repliesUsed..]);
      AppendAssoc(before, w.trace, rest.trace);
    }
  }

  /** The script: the mandatory-option check, parse_options, the clients,
      count_docs, then the runner. The collection, the server's major version,
      the search hits and the two input streams stand for the servers. */
  method Script(raw: RawOptions, coll: seq<Document>, major: int, hits: Value -> seq<string>,
                searches: seq<bool>, replies: seq<Response>)
    returns (outcome: Outcome, sent: seq<Request>, docsRemaining: int)
    requires WellFormed(coll)
    ensures !MandatoryPresent(raw) ==> outcome == MandatoryOptionsMissing && sent == []
    ensures MandatoryPresent(raw) ==>
      var s := Configure(raw).settings;
      var j := Job(coll, s.query, ProjectionOf(s.fields), s.limit, s.mode,
                   Target(s.index, s.docType, TypeDeprecated(major)), s.hook, hits);
      var p := SyncFrom(j, s.skipId, |Select(coll, FilterFor(s.query, s.skipId))|, searches, replies);
      outcome == p.outcome && sent == p.trace && docsRemaining == p.remaining
  {
    var config := Configure(raw);
    if config.MandatoryMissing? {
      return MandatoryOptionsMissing, [], 0;
    }
    var s := config.settings;
    var mongo := new MongoAPI(coll, s.fields, s.limit, s.query, s.skipId);
    var elastic := new ElasticAPI(s.index, s.docType, major);
    AgreedFilter(mongo.sharedQuery, s.query, s.skipId);
    var count := mongo.CountDocs();
    if s.skipId.Some? {
      AgreesAfterFetch(s.query, s.query, s.skipId, s.skipId.value);
    }
    var sync := new Sync(mongo, elastic, s.mode, s.hook, hits, count);
    outcome := sync.Runner(s.query, searches, replies);
    sent := elastic.sent;
    docsRemaining := sync.docsRemaining;
  }
}
