/** `MongoAPI` of index.js: builds the filter and projection for each batch,
    and the pagination that follows from advancing the checkpoint.
    The collection is a sequence of documents in the server's natural order;
    `Find` stands for what the server answers to `find(query).project(p).limit(n)`. */
module SourceReader {
  import opened Documents

  // ---------------------------------------------------------------------------
  // The part of MongoDB's query language the engine relies on
  // ---------------------------------------------------------------------------

  /** `{$gt: v}`. */
  function GtClause(v: Value): Value
  {
    Obj(map["$gt" := v])
  }

  /** `$gt` compares values of the same type only. */
  predicate Greater(v: Value, w: Value)
  {
    (v.ObjId? && w.ObjId? && v.id > w.id) || (v.Num? && w.Num? && v.n > w.n)
  }

  /** One clause of a filter: `{$gt: w}` is a comparison, anything else an equality. */
  predicate Holds(clause: Value, v: Value)
  {
    if clause.Obj? && clause.members.Keys == {"$gt"} then Greater(v, clause.members["$gt"])
    else v == clause
  }

  predicate Matches(q: Query, d: Document)
  {
    forall k :: k in q ==> Holds(q[k], Get(d, k))
  }

  /** The documents satisfying `p`, in natural order. */
  function SelectBy(coll: seq<Document>, p: Document -> bool): (r: seq<Document>)
    ensures |r| <= |coll|
  {
    if coll == [] then []
    else (if p(coll[0]) then [coll[0]] else []) + SelectBy(coll[1..], p)
  }

  /** A document is selected exactly when it is stored and satisfies `p`. */
  lemma {:induction false} SelectByKeeps(coll: seq<Document>, p: Document -> bool)
    ensures forall d :: d in SelectBy(coll, p) <==> d in coll && p(d)
  {
    if coll != [] {
      SelectByKeeps(coll[1..], p);
      assert coll == [coll[0]] + coll[1..];
    }
  }

  /** The documents matching a filter, in natural order. */
  function Select(coll: seq<Document>, q: Query): seq<Document>
  {
    SelectBy(coll, d => Matches(q, d))
  }

  /** An inclusion projection: the listed fields and `_id`; an empty one keeps everything. */
  function Project(d: Document, projection: map<string, int>): Document
  {
    if projection == map[] then d
    else map k | k in d && (k == IdField || k in projection) :: d[k]
  }

  function ProjectAll(ds: seq<Document>, projection: map<string, int>): (r: seq<Document>)
    ensures |r| == |ds|
    ensures forall i :: 0 <= i < |ds| ==> r[i] == Project(ds[i], projection)
  {
    seq(|ds|, i requires 0 <= i < |ds| => Project(ds[i], projection))
  }

  /** How many documents `limit(n)` lets through: 0 means no limit, and a
      negative limit is taken by its absolute value. */
  function TakeCount(available: nat, limit: int): (k: nat)
    ensures k <= available
    ensures available > 0 ==> k > 0
  {
    var n := if limit < 0 then -limit else limit;
    if n == 0 || n > available then available else n
  }

  /** The server's answer to `find(q).project(projection).limit(limit).toArray()`. */
  function Find(coll: seq<Document>, q: Query, projection: map<string, int>, limit: int): (r: seq<Document>)
    ensures |r| <= |Select(coll, q)| && (r == [] <==> Select(coll, q) == [])
    ensures limit != 0 ==> |r| <= (if limit < 0 then -limit else limit)
    ensures forall i :: 0 <= i < |r| ==> r[i] == Project(Select(coll, q)[i], projection)
  {
    var all := ProjectAll(Select(coll, q), projection);
    all[..TakeCount(|all|, limit)]
  }

  // ---------------------------------------------------------------------------
  // Query and projection construction
  // ---------------------------------------------------------------------------

  /** The filter get_docs and count_docs send: the user's query, whose `_id`
      clause is replaced by `{$gt: checkpoint}` when there is a checkpoint. */
  function FilterFor(userQuery: Option<Query>, cp: Option<nat>): (q: Query)
    ensures var base := if userQuery.Some? then userQuery.value else map[];
      && (cp.None? ==> q == base)
      && (cp.Some? ==> q.Keys == base.Keys + {IdField} && q[IdField] == GtClause(ObjId(cp.value)))
      && (forall k :: k in base && k != IdField ==> k in q && q[k] == base[k])
  {
    var base := if userQuery.Some? then userQuery.value else map[];
    if cp.Some? then base[IdField := GtClause(ObjId(cp.value))] else base
  }

  /** The projection document: every listed field mapped to 1. */
  function ProjectionOf(fields: Option<seq<string>>): (p: map<string, int>)
    ensures fields.None? ==> p == map[]
    ensures fields.Some? ==> p.Keys == set k | k in fields.value
    ensures forall k :: k in p ==> p[k] == 1
  {
    if fields.None? then map[] else map k | k in fields.value :: 1
  }

  /** The `forEach` loop of get_docs that fills the projection. */
  method BuildProjection(fields: Option<seq<string>>) returns (projection: map<string, int>)
    ensures projection == ProjectionOf(fields)
  {
    projection := map[];
    if fields.Some? {
      var keys := fields.value;
      for i := 0 to |keys|
        invariant projection.Keys == set k | k in keys[..i]
        invariant forall k :: k in projection ==> projection[k] == 1
      {
        assert keys[..i + 1] == keys[..i] + [keys[i]];
        projection := projection[keys[i] := 1];
      }
      assert keys[..|keys|] == keys;
    }
  }

  /** The MongoDB side of the engine. `sharedQuery` is the object held in
      `options.m_query`: get_docs and count_docs assign the `_id` clause into it. */
  class MongoAPI {
    const coll: seq<Document>
    const fields: Option<seq<string>>
    const limit: int
    var mongoSkipId: Option<nat>
    var sharedQuery: Option<Query>

    constructor (coll: seq<Document>, fields: Option<seq<string>>, limit: int,
                 query: Option<Query>, mongoSkipId: Option<nat>)
      ensures this.coll == coll && this.fields == fields && this.limit == limit
      ensures this.sharedQuery == query && this.mongoSkipId == mongoSkipId
    {
      this.coll := coll;
      this.fields := fields;
      this.limit := limit;
      this.sharedQuery := query;
      this.mongoSkipId := mongoSkipId;
    }

    /** `query = options.m_query` (the same object) or `{}`, then the `_id` assignment. */
    method BuildQuery() returns (query: Query)
      modifies this`sharedQuery
      ensures query == FilterFor(old(sharedQuery), mongoSkipId)
      ensures sharedQuery == (if old(sharedQuery).Some? then Some(query) else None)
    {
      query := map[];
      if sharedQuery.Some? {
        query := sharedQuery.value;
      }
      if mongoSkipId.Some? {
        query := query[IdField := GtClause(ObjId(mongoSkipId.value))];
        if sharedQuery.Some? {
          sharedQuery := Some(query);
        }
      }
    }

    /** get_docs: one batch, as fresh document objects. */
    method GetDocs() returns (docs: seq<Doc>)
      modifies this`sharedQuery
      ensures Fields(docs) == Find(coll, FilterFor(old(sharedQuery), mongoSkipId), ProjectionOf(fields), limit)
      ensures sharedQuery == (if old(sharedQuery).Some? then Some(FilterFor(old(sharedQuery), mongoSkipId)) else None)
      ensures Distinct(docs)
      ensures forall i :: 0 <= i < |docs| ==> fresh(docs[i])
    {
      var query := BuildQuery();
      var projection := BuildProjection(fields);
      var found := Find(coll, query, projection, limit);
      docs := [];
      for i := 0 to |found|
        invariant sharedQuery == (if old(sharedQuery).Some? then Some(query) else None)
        invariant |docs| == i
        invariant forall j :: 0 <= j < i ==> fresh(docs[j]) && docs[j].fields == found[j]
        invariant Distinct(docs)
      {
        var d := new Doc(found[i]);
        docs := docs + [d];
      }
      assert Fields(docs) == found;
    }

    /** count_docs: the number of documents matching the same filter get_docs uses. */
    method CountDocs() returns (count: nat)
      modifies this`sharedQuery
      ensures count == |Select(coll, FilterFor(old(sharedQuery), mongoSkipId))|
      ensures sharedQuery == (if old(sharedQuery).Some? then Some(FilterFor(old(sharedQuery), mongoSkipId)) else None)
    {
      var query := BuildQuery();
      count := |Select(coll, query)|;
    }
  }

  /** Writing the `_id` clause into the shared query object changes no later
      filter: with a checkpoint the clause is overwritten again. */
  lemma SharedQueryRewrite(userQuery: Option<Query>, c: nat, c': nat)
    ensures FilterFor(Some(FilterFor(userQuery, Some(c))), Some(c')) == FilterFor(userQuery, Some(c'))
  {
  }

  // ---------------------------------------------------------------------------
  // Pagination
  // ---------------------------------------------------------------------------

  /** The ObjectId under `_id`. */
  function IdOf(d: Document): nat
  {
    if IdField in d && d[IdField].ObjId? then d[IdField].id else 0
  }

  /** Every stored document carries an ObjectId `_id`. */
  ghost predicate WellFormed(coll: seq<Document>)
  {
    forall i :: 0 <= i < |coll| ==> IdField in coll[i] && coll[i][IdField].ObjId?
  }

  /** Natural order is ascending `_id` order. */
  ghost predicate Sorted(ds: seq<Document>)
  {
    forall i, j :: 0 <= i < j < |ds| ==> IdOf(ds[i]) < IdOf(ds[j])
  }

  /** The document lies after the checkpoint. */
  predicate Above(d: Document, cp: Option<nat>)
  {
    cp.None? || IdOf(d) > cp.value
  }

  /** How many stored documents lie after the checkpoint: the pagination's measure. */
  function CountAbove(coll: seq<Document>, cp: Option<nat>): nat
  {
    if coll == [] then 0
    else (if Above(coll[0], cp) then 1 else 0) + CountAbove(coll[1..], cp)
  }

  /** `docs[docs.length - 1]._id`: the checkpoint after a non-empty batch. */
  function NextCheckpoint(batch: seq<Document>): nat
    requires batch != []
  {
    IdOf(batch[|batch| - 1])
  }

  lemma ProjectKeepsId(d: Document, projection: map<string, int>)
    requires IdField in d
    ensures IdField in Project(d, projection) && Project(d, projection)[IdField] == d[IdField]
  {
  }

  /** A filter with a checkpoint admits exactly the documents after it. */
  lemma MatchesWithCheckpoint(userQuery: Option<Query>, c: nat, d: Document)
    requires IdField in d && d[IdField].ObjId?
    ensures Matches(FilterFor(userQuery, Some(c)), d) <==>
            Matches(FilterFor(userQuery, None) - {IdField}, d) && IdOf(d) > c
  {
    var q := FilterFor(userQuery, Some(c));
    assert q[IdField] == GtClause(ObjId(c));
    assert GtClause(ObjId(c)).members.Keys == {"$gt"};
    if Matches(q, d) {
      assert Holds(q[IdField], Get(d, IdField));
    }
  }

  /** Each document of a batch is the projection of a stored document that
      matched the filter, and it keeps that document's `_id`. */
  lemma PageEntryStored(coll: seq<Document>, userQuery: Option<Query>,
                        projection: map<string, int>, limit: int, cp: Option<nat>, i: nat)
    requires WellFormed(coll)
    requires i < |Find(coll, FilterFor(userQuery, cp), projection, limit)|
    ensures var sel := Select(coll, FilterFor(userQuery, cp));
      var batch := Find(coll, FilterFor(userQuery, cp), projection, limit);
      && i < |sel| && sel[i] in coll
      && IdOf(batch[i]) == IdOf(sel[i]) && Above(sel[i], cp) && Above(batch[i], cp)
  {
    var sel := Select(coll, FilterFor(userQuery, cp));
    var e := sel[i];
    assert e in sel;
    SelectByKeeps(coll, d => Matches(FilterFor(userQuery, cp), d));
    var n :| 0 <= n < |coll| && coll[n] == e;
    ProjectKeepsId(e, projection);
    if cp.Some? {
      MatchesWithCheckpoint(userQuery, cp.value, e);
    }
  }

  /** A non-empty batch ends on a stored document after the checkpoint, so the
      next checkpoint leaves fewer documents ahead. */
  lemma {:induction false} BatchAdvances(coll: seq<Document>, userQuery: Option<Query>,
                                         projection: map<string, int>, limit: int, cp: Option<nat>)
    requires WellFormed(coll)
    requires Find(coll, FilterFor(userQuery, cp), projection, limit) != []
    ensures var batch := Find(coll, FilterFor(userQuery, cp), projection, limit);
      && (forall d :: d in batch ==> Above(d, cp))
      && CountAbove(coll, Some(NextCheckpoint(batch))) < CountAbove(coll, cp)
  {
    var sel := Select(coll, FilterFor(userQuery, cp));
    var batch := Find(coll, FilterFor(userQuery, cp), projection, limit);
    forall d | d in batch
      ensures Above(d, cp)
    {
      var i :| 0 <= i < |batch| && batch[i] == d;
      PageEntryStored(coll, userQuery, projection, limit, cp, i);
    }
    PageEntryStored(coll, userQuery, projection, limit, cp, |batch| - 1);
    CountAboveShrinks(coll, cp, sel[|batch| - 1]);
  }

  lemma {:induction false} CountAboveShrinks(coll: seq<Document>, cp: Option<nat>, e: Document)
    requires e in coll && Above(e, cp)
    ensures CountAbove(coll, Some(IdOf(e))) < CountAbove(coll, cp)
  {
    if coll[0] == e {
      CountAboveWeaker(coll[1..], cp, IdOf(e));
    } else {
      CountAboveShrinks(coll[1..], cp, e);
    }
  }

  lemma {:induction false} CountAboveWeaker(coll: seq<Document>, cp: Option<nat>, c: nat)
    requires cp.None? || c >= cp.value
    ensures CountAbove(coll, Some(c)) <= CountAbove(coll, cp)
  {
    if coll != [] {
      CountAboveWeaker(coll[1..], cp, c);
    }
  }

  /** The batches a run fetches from checkpoint `cp` until a fetch comes back
      empty, each fetched with the checkpoint left by the one before. */
  ghost function Pages(coll: seq<Document>, userQuery: Option<Query>, projection: map<string, int>,
                       limit: int, cp: Option<nat>): seq<seq<Document>>
    requires WellFormed(coll)
    decreases CountAbove(coll, cp)
  {
    var batch := Find(coll, FilterFor(userQuery, cp), projection, limit);
    if batch == [] then []
    else
      BatchAdvances(coll, userQuery, projection, limit, cp);
      [batch] + Pages(coll, userQuery, projection, limit, Some(NextCheckpoint(batch)))
  }

  /** One fetch: a non-empty batch is the first page, and the pages after it
      are fetched from its last `_id`. */
  lemma PagesStep(coll: seq<Document>, userQuery: Option<Query>, projection: map<string, int>,
                  limit: int, cp: Option<nat>)
    requires WellFormed(coll)
    requires Find(coll, FilterFor(userQuery, cp), projection, limit) != []
    ensures var batch := Find(coll, FilterFor(userQuery, cp), projection, limit);
      Pages(coll, userQuery, projection, limit, cp)
      == [batch] + Pages(coll, userQuery, projection, limit, Some(NextCheckpoint(batch)))
  {
  }

  /** An empty fetch ends the pages. */
  lemma PagesEnd(coll: seq<Document>, userQuery: Option<Query>, projection: map<string, int>,
                 limit: int, cp: Option<nat>)
    requires WellFormed(coll)
    requires Find(coll, FilterFor(userQuery, cp), projection, limit) == []
    ensures Pages(coll, userQuery, projection, limit, cp) == []
  {
  }

  /** Checkpoint monotonicity over a sequence of pages: every page is non-empty
      and lies after the checkpoint it was fetched with (`cp` for the first,
      then the last `_id` of the page before), so the checkpoint strictly
      increases from page to page. */
  predicate PagesRise(pages: seq<seq<Document>>, cp: Option<nat>)
  {
    && (forall i :: 0 <= i < |pages| ==> pages[i] != [])
    && (pages != [] ==> forall d :: d in pages[0] ==> Above(d, cp))
    && (forall i, d :: 0 < i < |pages| && d in pages[i] ==> IdOf(d) > NextCheckpoint(pages[i - 1]))
    && (forall i :: 0 < i < |pages| ==> NextCheckpoint(pages[i - 1]) < NextCheckpoint(pages[i]))
  }

  lemma RiseCons(batch: seq<Document>, rest: seq<seq<Document>>, cp: Option<nat>)
    requires batch != [] && forall d :: d in batch ==> Above(d, cp)
    requires PagesRise(rest, Some(NextCheckpoint(batch)))
    ensures PagesRise([batch] + rest, cp)
  {
    var pages := [batch] + rest;
    forall i | 0 < i < |pages|
      ensures pages[i] == rest[i - 1]
    {
    }
    forall i, d | 0 < i < |pages| && d in pages[i]
      ensures IdOf(d) > NextCheckpoint(pages[i - 1])
    {
      if i == 1 {
        assert d in rest[0];
      }
    }
    forall i | 0 < i < |pages|
      ensures NextCheckpoint(pages[i - 1]) < NextCheckpoint(pages[i])
    {
      var last := pages[i][|pages[i]| - 1];
      assert last in pages[i];
    }
  }

  /** With or without ordered storage, the checkpoint rises from page to page. */
  lemma {:induction false} PagesAfterCheckpoint(coll: seq<Document>, userQuery: Option<Query>,
                                                projection: map<string, int>, limit: int, cp: Option<nat>)
    requires WellFormed(coll)
    decreases CountAbove(coll, cp)
    ensures PagesRise(Pages(coll, userQuery, projection, limit, cp), cp)
  {
    var batch := Find(coll, FilterFor(userQuery, cp), projection, limit);
    if batch != [] {
      BatchAdvances(coll, userQuery, projection, limit, cp);
      var c := NextCheckpoint(batch);
      PagesAfterCheckpoint(coll, userQuery, projection, limit, Some(c));
      PagesStep(coll, userQuery, projection, limit, cp);
      RiseCons(batch, Pages(coll, userQuery, projection, limit, Some(c)), cp);
    } else {
      PagesEnd(coll, userQuery, projection, limit, cp);
    }
  }

  // ---------------------------------------------------------------------------
  // With storage in ascending `_id` order: every matching document, once, in order
  // ---------------------------------------------------------------------------

  /** The documents of `s` after `c`. */
  function AfterId(s: seq<Document>, c: nat): (r: seq<Document>)
  {
    if s == [] then []
    else (if IdOf(s[0]) > c then [s[0]] else []) + AfterId(s[1..], c)
  }

  function Flatten(pages: seq<seq<Document>>): seq<Document>
  {
    if pages == [] then [] else pages[0] + Flatten(pages[1..])
  }

  lemma {:induction false} SelectNarrowed(coll: seq<Document>, p1: Document -> bool, p2: Document -> bool, c: nat)
    requires forall d :: d in coll ==> (p2(d) <==> p1(d) && IdOf(d) > c)
    ensures SelectBy(coll, p2) == AfterId(SelectBy(coll, p1), c)
  {
    if coll != [] {
      SelectNarrowed(coll[1..], p1, p2, c);
      var x := coll[0];
      assert x in coll;
      var rest := SelectBy(coll[1..], p1);
      var s := SelectBy(coll, p1);
      if p1(x) {
        assert s == [x] + rest;
        assert s[0] == x && s[1..] == rest;
        assert AfterId(s, c) == (if IdOf(x) > c then [x] else []) + AfterId(rest, c);
      } else {
        assert s == rest;
      }
    }
  }

  lemma {:induction false} SelectSorted(coll: seq<Document>, p: Document -> bool)
    requires Sorted(coll)
    ensures Sorted(SelectBy(coll, p))
  {
    if coll != [] {
      SelectSorted(coll[1..], p);
      var rest := SelectBy(coll[1..], p);
      SelectByKeeps(coll[1..], p);
      forall d | d in rest
        ensures IdOf(coll[0]) < IdOf(d)
      {
        var j :| 0 <= j < |coll[1..]| && coll[1..][j] == d;
        assert coll[j + 1] == d;
      }
    }
  }

  lemma {:induction false} AfterIdAll(s: seq<Document>, c: nat)
    requires forall d :: d in s ==> IdOf(d) > c
    ensures AfterId(s, c) == s
  {
    if s != [] {
      AfterIdAll(s[1..], c);
      assert s[0] in s;
    }
  }

  /** In ascending order, what lies after the k-th document's id is the suffix from k. */
  lemma {:induction false} AfterIdSuffix(s: seq<Document>, k: nat)
    requires Sorted(s) && 1 <= k <= |s|
    ensures AfterId(s, IdOf(s[k - 1])) == s[k..]
  {
    if k == 1 {
      forall d | d in s[1..]
        ensures IdOf(d) > IdOf(s[0])
      {
        var j :| 0 <= j < |s[1..]| && s[1..][j] == d;
        assert s[j + 1] == d;
      }
      AfterIdAll(s[1..], IdOf(s[0]));
    } else {
      assert s[1..][k - 2] == s[k - 1];
      AfterIdSuffix(s[1..], k - 1);
      assert s[1..][k - 1..] == s[k..];
    }
  }

  /** Same-direction filters: after a first checkpoint, every later filter is the
      first one narrowed to ids after the new checkpoint. */
  lemma NarrowedFilter(coll: seq<Document>, userQuery: Option<Query>, cp: Option<nat>, c: nat)
    requires WellFormed(coll)
    requires cp.Some? || userQuery.None? || IdField !in userQuery.value
    requires cp.None? || c > cp.value
    ensures forall d :: d in coll ==>
      (Matches(FilterFor(userQuery, Some(c)), d) <==> Matches(FilterFor(userQuery, cp), d) && IdOf(d) > c)
  {
    forall d | d in coll
      ensures Matches(FilterFor(userQuery, Some(c)), d) <==> Matches(FilterFor(userQuery, cp), d) && IdOf(d) > c
    {
      var n :| 0 <= n < |coll| && coll[n] == d;
      MatchesWithCheckpoint(userQuery, c, d);
      if cp.Some? {
        MatchesWithCheckpoint(userQuery, cp.value, d);
      } else {
        assert FilterFor(userQuery, None) - {IdField} == FilterFor(userQuery, None);
      }
    }
  }

  /** A page is the projected front of the matching documents, and its last
      `_id` is that of the last matching document it took. */
  lemma PageEndsOnMatch(coll: seq<Document>, userQuery: Option<Query>,
                        projection: map<string, int>, limit: int, cp: Option<nat>)
    requires WellFormed(coll)
    requires Find(coll, FilterFor(userQuery, cp), projection, limit) != []
    ensures var m := Select(coll, FilterFor(userQuery, cp));
      var batch := Find(coll, FilterFor(userQuery, cp), projection, limit);
      && |batch| <= |m|
      && batch == ProjectAll(m[..|batch|], projection)
      && NextCheckpoint(batch) == IdOf(m[|batch| - 1])
      && (cp.None? || NextCheckpoint(batch) > cp.value)
  {
    var batch := Find(coll, FilterFor(userQuery, cp), projection, limit);
    PageEntryStored(coll, userQuery, projection, limit, cp, |batch| - 1);
  }

  /** With a later checkpoint, the filter selects the documents the earlier
      filter selects that lie after it. */
  lemma SelectAfter(coll: seq<Document>, userQuery: Option<Query>, cp: Option<nat>, c: nat)
    requires WellFormed(coll)
    requires cp.Some? || userQuery.None? || IdField !in userQuery.value
    requires cp.None? || c > cp.value
    ensures Select(coll, FilterFor(userQuery, Some(c))) == AfterId(Select(coll, FilterFor(userQuery, cp)), c)
  {
    var q1 := FilterFor(userQuery, cp);
    var q2 := FilterFor(userQuery, Some(c));
    NarrowedFilter(coll, userQuery, cp, c);
    SelectNarrowed(coll, d => Matches(q1, d), d => Matches(q2, d), c);
  }

  /** After a page, the next filter selects exactly the matching documents the
      page did not take. */
  lemma NextPageIsRest(coll: seq<Document>, userQuery: Option<Query>,
                       projection: map<string, int>, limit: int, cp: Option<nat>)
    requires WellFormed(coll) && Sorted(coll)
    requires cp.Some? || userQuery.None? || IdField !in userQuery.value
    requires Find(coll, FilterFor(userQuery, cp), projection, limit) != []
    ensures var m := Select(coll, FilterFor(userQuery, cp));
      var batch := Find(coll, FilterFor(userQuery, cp), projection, limit);
      && |batch| <= |m|
      && batch == ProjectAll(m[..|batch|], projection)
      && Select(coll, FilterFor(userQuery, Some(NextCheckpoint(batch)))) == m[|batch|..]
  {
    var q1 := FilterFor(userQuery, cp);
    var m := Select(coll, q1);
    var batch := Find(coll, q1, projection, limit);
    PageEndsOnMatch(coll, userQuery, projection, limit, cp);
    SelectAfter(coll, userQuery, cp, NextCheckpoint(batch));
    SelectSorted(coll, d => Matches(q1, d));
    AfterIdSuffix(m, |batch|);
  }

  /** Resume and completeness: when storage is in ascending `_id` order, the
      pages fetched from a checkpoint are exactly the matching documents after
      it, each once and in order. Without a checkpoint, this needs a user query
      with no `_id` clause, since later pages drop that clause. */
  lemma {:induction false} PagesCoverMatches(coll: seq<Document>, userQuery: Option<Query>,
                                             projection: map<string, int>, limit: int, cp: Option<nat>)
    requires WellFormed(coll) && Sorted(coll)
    requires cp.Some? || userQuery.None? || IdField !in userQuery.value
    decreases CountAbove(coll, cp)
    ensures Flatten(Pages(coll, userQuery, projection, limit, cp))
            == ProjectAll(Select(coll, FilterFor(userQuery, cp)), projection)
  {
    var m := Select(coll, FilterFor(userQuery, cp));
    var batch := Find(coll, FilterFor(userQuery, cp), projection, limit);
    var pages := Pages(coll, userQuery, projection, limit, cp);
    if batch == [] {
      assert |ProjectAll(m, projection)| == |m|;
    } else {
      BatchAdvances(coll, userQuery, projection, limit, cp);
      NextPageIsRest(coll, userQuery, projection, limit, cp);
      var k := |batch|;
      var c := NextCheckpoint(batch);
      var rest := Pages(coll, userQuery, projection, limit, Some(c));
      PagesCoverMatches(coll, userQuery, projection, limit, Some(c));
      PagesStep(coll, userQuery, projection, limit, cp);
      FlattenCons(batch, rest);
      ProjectAllSplit(m, k, projection);
    }
  }

  lemma FlattenCons(page: seq<Document>, rest: seq<seq<Document>>)
    ensures Flatten([page] + rest) == page + Flatten(rest)
  {
    assert ([page] + rest)[1..] == rest;
  }

  lemma ProjectAllSplit(m: seq<Document>, k: nat, projection: map<string, int>)
    requires k <= |m|
    ensures ProjectAll(m, projection) == ProjectAll(m[..k], projection) + ProjectAll(m[k..], projection)
  {
  }

  /** Progress: the pages hold as many documents as count_docs reported for the
      same checkpoint, so `docsRemaining` reaches zero at "Sync Complete". */
  lemma PagesMatchCount(coll: seq<Document>, userQuery: Option<Query>,
                        projection: map<string, int>, limit: int, cp: Option<nat>)
    requires WellFormed(coll) && Sorted(coll)
    requires cp.Some? || userQuery.None? || IdField !in userQuery.value
    ensures |Flatten(Pages(coll, userQuery, projection, limit, cp))| == |Select(coll, FilterFor(userQuery, cp))|
  {
    PagesCoverMatches(coll, userQuery, projection, limit, cp);
  }

  // ---------------------------------------------------------------------------
  // What the missing sort and the `_id` override do
  // ---------------------------------------------------------------------------

  function Stored(n: nat): Document
  {
    map[IdField := ObjId(n)]
  }

  lemma SelectThree(a: Document, b: Document, c: Document, p: Document -> bool)
    ensures SelectBy([a, b, c], p)
            == (if p(a) then [a] else []) + (if p(b) then [b] else []) + (if p(c) then [c] else [])
  {
    assert [c][1..] == [];
    assert SelectBy([c], p) == (if p(c) then [c] else []);
    assert [b, c][1..] == [c];
    assert SelectBy([b, c], p) == (if p(b) then [b] else []) + SelectBy([c], p);
    assert [a, b, c][1..] == [b, c];
  }

  lemma StoredWellFormed(x: nat, y: nat, z: nat)
    ensures WellFormed([Stored(x), Stored(y), Stored(z)])
  {
  }

  /** No stored document lies after the largest id: the fetch comes back empty. */
  lemma NothingAfter(x: nat, y: nat, z: nat, userQuery: Option<Query>, c: nat,
                     projection: map<string, int>, limit: int)
    requires x <= c && y <= c && z <= c
    ensures Select([Stored(x), Stored(y), Stored(z)], FilterFor(userQuery, Some(c))) == []
    ensures Find([Stored(x), Stored(y), Stored(z)], FilterFor(userQuery, Some(c)), projection, limit) == []
  {
    var q := FilterFor(userQuery, Some(c));
    assert !Holds(q[IdField], Get(Stored(x), IdField));
    assert !Holds(q[IdField], Get(Stored(y), IdField));
    assert !Holds(q[IdField], Get(Stored(z), IdField));
    SelectThree(Stored(x), Stored(y), Stored(z), d => Matches(q, d));
  }

  /** With no filter and `limit(1)`, the first batch is the first stored document. */
  lemma FirstOfUnfiltered(a: Document, b: Document, c: Document)
    ensures Select([a, b, c], map[]) == [a, b, c]
    ensures Find([a, b, c], map[], map[], 1) == [a]
  {
    SelectThree(a, b, c, d => Matches(map[], d));
    assert ProjectAll([a, b, c], map[]) == [a, b, c];
  }

  /** `find` has no sort: if natural order is not ascending, a batch can end on
      a high id and every lower id not yet fetched is never fetched. */
  lemma UnsortedStorageSkips()
    ensures WellFormed([Stored(3), Stored(1), Stored(2)])
    ensures Pages([Stored(3), Stored(1), Stored(2)], None, map[], 1, None) == [[Stored(3)]]
    ensures |Select([Stored(3), Stored(1), Stored(2)], FilterFor(None, None))| == 3
  {
    var coll := [Stored(3), Stored(1), Stored(2)];
    StoredWellFormed(3, 1, 2);
    assert FilterFor(None, None) == map[];
    FirstOfUnfiltered(Stored(3), Stored(1), Stored(2));
    assert NextCheckpoint([Stored(3)]) == 3;
    NothingAfter(3, 1, 2, None, 3, map[], 1);
    PagesEnd(coll, None, map[], 1, Some(3));
    PagesStep(coll, None, map[], 1, None);
  }

  /** The first page under a user `_id` equality clause: the one document it names. */
  lemma FirstPageOfIdQuery()
    ensures Select([Stored(1), Stored(2), Stored(3)], FilterFor(Some(map[IdField := ObjId(1)]), None)) == [Stored(1)]
    ensures Find([Stored(1), Stored(2), Stored(3)], FilterFor(Some(map[IdField := ObjId(1)]), None), map[], 100)
            == [Stored(1)]
  {
    var q0 := FilterFor(Some(map[IdField := ObjId(1)]), None);
    assert q0 == map[IdField := ObjId(1)];
    assert Matches(q0, Stored(1));
    assert !Holds(q0[IdField], Get(Stored(2), IdField));
    assert !Holds(q0[IdField], Get(Stored(3), IdField));
    SelectThree(Stored(1), Stored(2), Stored(3), d => Matches(q0, d));
    assert ProjectAll([Stored(1)], map[]) == [Stored(1)];
  }

  /** `{_id: {$gt: 1}}` selects the two later documents. */
  lemma AfterFirstSelected()
    ensures Select([Stored(1), Stored(2), Stored(3)], map[IdField := GtClause(ObjId(1))]) == [Stored(2), Stored(3)]
  {
    var q1 := map[IdField := GtClause(ObjId(1))];
    assert !Holds(q1[IdField], Get(Stored(1), IdField));
    assert Holds(q1[IdField], Get(Stored(2), IdField));
    assert Holds(q1[IdField], Get(Stored(3), IdField));
    SelectThree(Stored(1), Stored(2), Stored(3), d => Matches(q1, d));
  }

  /** The second page: the checkpoint has replaced the user's `_id` clause. */
  lemma SecondPageOfIdQuery()
    ensures Find([Stored(1), Stored(2), Stored(3)], FilterFor(Some(map[IdField := ObjId(1)]), Some(1)), map[], 100)
            == [Stored(2), Stored(3)]
  {
    assert FilterFor(Some(map[IdField := ObjId(1)]), Some(1)) == map[IdField := GtClause(ObjId(1))];
    AfterFirstSelected();
    assert ProjectAll([Stored(2), Stored(3)], map[]) == [Stored(2), Stored(3)];
  }

  /** From the first page's checkpoint on, the pages hold every later document. */
  lemma LaterPagesOfIdQuery()
    ensures WellFormed([Stored(1), Stored(2), Stored(3)])
    ensures Pages([Stored(1), Stored(2), Stored(3)], Some(map[IdField := ObjId(1)]), map[], 100, Some(1))
            == [[Stored(2), Stored(3)]]
  {
    var coll := [Stored(1), Stored(2), Stored(3)];
    var user := Some(map[IdField := ObjId(1)]);
    StoredWellFormed(1, 2, 3);
    SecondPageOfIdQuery();
    NothingAfter(1, 2, 3, user, 3, map[], 100);
    PagesEnd(coll, user, map[], 100, Some(3));
    assert NextCheckpoint([Stored(2), Stored(3)]) == 3;
    PagesStep(coll, user, map[], 100, Some(1));
  }

  /** A user `_id` clause holds for the first page only: later pages replace it
      by the checkpoint, fetching documents the query excludes, and more than
      count_docs reported. */
  lemma UserIdClauseDropped()
    ensures WellFormed([Stored(1), Stored(2), Stored(3)])
    ensures |Select([Stored(1), Stored(2), Stored(3)], FilterFor(Some(map[IdField := ObjId(1)]), None))| == 1
    ensures Pages([Stored(1), Stored(2), Stored(3)], Some(map[IdField := ObjId(1)]), map[], 100, None)
            == [[Stored(1)], [Stored(2), Stored(3)]]
  {
    FirstPageOfIdQuery();
    LaterPagesOfIdQuery();
    assert NextCheckpoint([Stored(1)]) == 1;
  }
}
