/** `ElasticAPI` of index.js: builds the bulk bodies by transforming the batch's
    document objects in place, sends them, and retries the whole batch until a
    reply is clean. Every request is appended to `sent`; replies and search
    outcomes are input streams. */
module IndexWriter {
  import opened Documents
  import opened TransformStep
  import opened BulkBody
  import opened RetryPolicy

  /** A keyed write of a batch holding `ds`: the first attempt sends the body
      built from `ds`, every retry the body built from the transformed objects. */
  function KeyedRetry(op: Op, t: Target, h: Hook, key: string, ds: seq<Document>, replies: seq<Response>): (r: Run)
    ensures r.trace != [] && r.trace[0] == Bulk(KeyedBody(op, t, h, key, ds))
    ensures r.acked <==> Ok in replies
    ensures !r.acked ==> r.used == |replies|
  {
    AckedAtFirstOk(t.index, KeyedBody(op, t, h, key, ds), KeyedBody(op, t, h, key, Steps(h, ds)), replies);
    BulkRetry(t.index, KeyedBody(op, t, h, key, ds), KeyedBody(op, t, h, key, Steps(h, ds)), replies)
  }

  /** A keyed write whose first reply asks for a retry: the bulk request, a
      flush after a transport error, then the write of the transformed
      documents with the remaining replies. */
  lemma KeyedRetried(op: Op, t: Target, h: Hook, key: string, ds: seq<Document>, replies: seq<Response>)
    requires replies != [] && replies[0] != Ok
    ensures var r := KeyedRetry(op, t, h, key, ds, replies);
      var rest := KeyedRetry(op, t, h, key, Steps(h, ds), replies[1..]);
      var body := KeyedBody(op, t, h, key, ds);
      && r.trace == (if replies[0] == Err then [Bulk(body), Flush(t.index)] else [Bulk(body)]) + rest.trace
      && r.acked == rest.acked
      && r.used == rest.used + 1
  {
    var again := KeyedBody(op, t, h, key, Steps(h, ds));
    BulkRetried(t.index, KeyedBody(op, t, h, key, ds), again, replies);
    StepsIdempotent(h, ds);
    assert KeyedBody(op, t, h, key, Steps(h, Steps(h, ds))) == again;
  }

  /**
   * Regroups a request log around a retry's own trace. Proved on its own so
   * that the methods below do not reason about sequence equality in their
   * larger contexts.
   */
  lemma AppendAssoc<T>(a: seq<T>, b: seq<T>, c: seq<T>)
    ensures a + (b + c) == (a + b) + c
  {
  }

  class ElasticAPI {
    const target: Target
    var sent: seq<Request>

    /** The client, with `isTypeDepricated` taken from the server's major version. */
    constructor (index: string, docType: string, major: int)
      ensures target == Target(index, docType, TypeDeprecated(major))
      ensures sent == []
    {
      target := Target(index, docType, TypeDeprecated(major));
      sent := [];
    }

    /** The `forEach` callback: the action line keyed by the document's field
        as it was, then the line the transform returns. */
    method KeyedEntry(op: Op, h: Hook, key: string, doc: Doc) returns (pair: seq<Entry>)
      modifies doc
      ensures pair == KeyedPair(op, target, h, key, old(doc.fields))
      ensures doc.fields == Step(h, old(doc.fields))
    {
      var id := Get(doc.fields, key);
      var transformed := TransformDoc(h, doc);
      pair := [Command(op, Describe(target, id)), Payload(op, transformed)];
    }

    /** The `forEach` of insertDocs (`IndexOp`) and of the direct-key branch of
        updateDocs (`UpdateOp`): the id is read, then transformDoc runs on the
        object, and both lines are pushed. */
    method BuildKeyedBody(op: Op, h: Hook, key: string, docs: seq<Doc>) returns (body: seq<Entry>)
      requires Distinct(docs)
      modifies docs
      ensures body == KeyedBody(op, target, h, key, old(Fields(docs)))
      ensures Fields(docs) == Steps(h, old(Fields(docs)))
    {
      ghost var ds := Fields(docs);
      body := [];
      for i := 0 to |docs|
        invariant body == KeyedBody(op, target, h, key, ds[..i])
        invariant forall j :: 0 <= j < i ==> docs[j].fields == Step(h, ds[j])
        invariant forall j :: i <= j < |docs| ==> docs[j].fields == ds[j]
      {
        var pair := KeyedEntry(op, h, key, docs[i]);
        KeyedBodySnoc(op, target, h, key, ds, i);
        body := body + pair;
      }
      assert ds[..|docs|] == ds;
    }

    /** insertDocs, or the direct-key branch of updateDocs: build, send, and on
        a bad reply call itself again with the same (now transformed) objects. */
    method KeyedWrite(op: Op, h: Hook, key: string, docs: seq<Doc>, replies: seq<Response>)
      returns (acked: bool, used: nat)
      requires Distinct(docs)
      modifies this, docs
      decreases |replies|
      ensures var r := KeyedRetry(op, target, h, key, old(Fields(docs)), replies);
        && sent == old(sent) + r.trace
        && acked == r.acked
        && used == r.used
      ensures Fields(docs) == Steps(h, old(Fields(docs)))
    {
      ghost var ds := Fields(docs);
      var body := BuildKeyedBody(op, h, key, docs);
      sent := sent + [Bulk(body)];
      if replies == [] {
        return false, 0;
      }
      if replies[0] == Ok {
        return true, 1;
      }
      KeyedRetried(op, target, h, key, ds, replies);
      if replies[0] == Err {
        sent := sent + [Flush(target.index)];
      }
      ghost var head := if replies[0] == Err then [Bulk(body), Flush(target.index)] else [Bulk(body)];
      assert sent == old(sent) + head;
      assert Fields(docs) == Steps(h, ds);
      StepsIdempotent(h, ds);
      acked, used := KeyedWrite(op, h, key, docs, replies[1..]);
      ghost var rest := KeyedRetry(op, target, h, key, Steps(h, ds), replies[1..]);
      AppendAssoc(old(sent), head, rest.trace);
      used := used + 1;
    }

    /** insertDocs: `index` actions keyed by `e_doc_id`. */
    method InsertDocs(h: Hook, docIdKey: string, docs: seq<Doc>, replies: seq<Response>)
      returns (acked: bool, used: nat)
      requires Distinct(docs)
      modifies this, docs
      ensures var r := KeyedRetry(IndexOp, target, h, docIdKey, old(Fields(docs)), replies);
        sent == old(sent) + r.trace && acked == r.acked && used == r.used
      ensures Fields(docs) == Steps(h, old(Fields(docs)))
    {
      acked, used := KeyedWrite(IndexOp, h, docIdKey, docs, replies);
    }

    /** The `docsToUpdate.forEach` of one search callback: an `update` of every
        hit id, each followed by transformDoc of the same object. */
    method PushHits(h: Hook, doc: Doc, ids: seq<string>) returns (pairs: seq<Entry>)
      modifies doc
      ensures pairs == HitPairs(target, Transformed(h, old(doc.fields)), ids)
      ensures doc.fields == if ids == [] then old(doc.fields) else Step(h, old(doc.fields))
    {
      ghost var d := doc.fields;
      TransformedStable(h, d);
      StepIdempotent(h, d);
      pairs := [];
      for j := 0 to |ids|
        invariant pairs == HitPairs(target, Transformed(h, d), ids[..j])
        invariant doc.fields == if j == 0 then d else Step(h, d)
      {
        var r := TransformDoc(h, doc);
        pairs := pairs + [Command(UpdateOp, Describe(target, Str(ids[j]))), PartialDoc(r)];
        assert ids[..j + 1][..j] == ids[..j];
      }
      assert ids[..|ids|] == ids;
    }

    /** One lookup round's bulk body: every document's search hits, in batch order. */
    method BuildLookupBody(h: Hook, key: string, hits: Value -> seq<string>, docs: seq<Doc>)
      returns (body: seq<Entry>)
      requires Distinct(docs)
      modifies docs
      ensures body == LookupBody(target, h, key, hits, old(Fields(docs)))
      ensures Fields(docs) == LookupSteps(h, key, hits, old(Fields(docs)))
    {
      ghost var ds := Fields(docs);
      body := [];
      for i := 0 to |docs|
        invariant body == LookupBody(target, h, key, hits, ds[..i])
        invariant forall k :: 0 <= k < i ==> docs[k].fields == LookupStep(h, key, hits, ds[k])
        invariant forall k :: i <= k < |docs| ==> docs[k].fields == ds[k]
      {
        var ids := hits(Get(docs[i].fields, key));
        var pairs := PushHits(h, docs[i], ids);
        body := body + pairs;
        assert ds[..i + 1][..i] == ds[..i];
      }
      assert ds[..|docs|] == ds;
    }

    /** The lookup branch of updateDocs: a search round, then the bulk write of
        what it found; a failed round flushes and calls itself again. */
    method LookupWrite(h: Hook, key: string, hits: Value -> seq<string>, docs: seq<Doc>,
                       searches: seq<bool>, replies: seq<Response>)
      returns (acked: bool, searchesUsed: nat, repliesUsed: nat)
      requires Distinct(docs)
      modifies this, docs
      ensures var r := LookupRetry(target, h, key, hits, old(Fields(docs)), searches, replies);
        && sent == old(sent) + r.trace
        && acked == r.acked
        && searchesUsed == r.searchesUsed
        && repliesUsed == r.repliesUsed
        && Fields(docs) == r.final
      decreases |searches|, 2
    {
      if searches == [] {
        return false, 0, 0;
      }
      if !searches[0] {
        ghost var ds := Fields(docs);
        sent := sent + [Flush(target.index)];
        assert Fields(docs) == ds;
        acked, searchesUsed, repliesUsed := LookupWrite(h, key, hits, docs, searches[1..], replies);
        ghost var rest := LookupRetry(target, h, key, hits, ds, searches[1..], replies);
        AppendAssoc(old(sent), [Flush(target.index)], rest.trace);
        searchesUsed := searchesUsed + 1;
      } else {
        acked, searchesUsed, repliesUsed := WriteFound(h, key, hits, docs, searches, replies);
      }
    }

    /** A round whose searches all answered: build the body from what they
        found, transforming the objects, and send it unless it is empty. */
    method WriteFound(h: Hook, key: string, hits: Value -> seq<string>, docs: seq<Doc>,
                      searches: seq<bool>, replies: seq<Response>)
      returns (acked: bool, searchesUsed: nat, repliesUsed: nat)
      requires Distinct(docs)
      requires searches != [] && searches[0]
      modifies this, docs
      ensures var r := LookupRetry(target, h, key, hits, old(Fields(docs)), searches, replies);
        && sent == old(sent) + r.trace
        && acked == r.acked
        && searchesUsed == r.searchesUsed
        && repliesUsed == r.repliesUsed
        && Fields(docs) == r.final
      decreases |searches|, 1
    {
      ghost var ds := Fields(docs);
      var body := BuildLookupBody(h, key, hits, docs);
      if body == [] {
        LookupRoundEnds(target, h, key, hits, ds, searches, replies);
        return true, 1, 0;
      }
      if replies == [] || replies[0] == Ok {
        sent := sent + [Bulk(body)];
        LookupRoundEnds(target, h, key, hits, ds, searches, replies);
        return replies != [], 1, if replies == [] then 0 else 1;
      }
      acked, searchesUsed, repliesUsed := SendAndRetry(h, key, hits, docs, searches, replies, ds, body);
    }

    /** The bulk request of a searched round whose reply asks for a retry: a
        flush after a transport error, then back to searching with the objects
        as this round left them. */
    method SendAndRetry(h: Hook, key: string, hits: Value -> seq<string>, docs: seq<Doc>,
                        searches: seq<bool>, replies: seq<Response>, ghost ds: seq<Document>, body: seq<Entry>)
      returns (acked: bool, searchesUsed: nat, repliesUsed: nat)
      requires Distinct(docs)
      requires searches != [] && searches[0] && replies != [] && replies[0] != Ok
      requires body == LookupBody(target, h, key, hits, ds) && body != []
      requires Fields(docs) == LookupSteps(h, key, hits, ds)
      modifies this, docs
      ensures var r := LookupRetry(target, h, key, hits, ds, searches, replies);
        && sent == old(sent) + r.trace
        && acked == r.acked
        && searchesUsed == r.searchesUsed
        && repliesUsed == r.repliesUsed
        && Fields(docs) == r.final
      decreases |searches|, 0
    {
      LookupRetried(target, h, key, hits, ds, searches, replies);
      sent := sent + [Bulk(body)];
      if replies[0] == Err {
        sent := sent + [Flush(target.index)];
      }
      ghost var head := if replies[0] == Err then [Bulk(body), Flush(target.index)] else [Bulk(body)];
      assert sent == old(sent) + head;
      acked, searchesUsed, repliesUsed := LookupWrite(h, key, hits, docs, searches[1..], replies[1..]);
      ghost var rest := LookupRetry(target, h, key, hits, LookupSteps(h, key, hits, ds), searches[1..], replies[1..]);
      AppendAssoc(old(sent), head, rest.trace);
      searchesUsed := searchesUsed + 1;
      repliesUsed := repliesUsed + 1;
    }

    /** updateDocs: keyed by `e_update_key[0]`, directly when the flag says it
        holds the index id, else through a search per document. */
    method UpdateDocs(h: Hook, key: string, isId: bool, hits: Value -> seq<string>, docs: seq<Doc>,
                      searches: seq<bool>, replies: seq<Response>)
      returns (acked: bool, searchesUsed: nat, repliesUsed: nat)
      requires Distinct(docs)
      modifies this, docs
      ensures isId ==>
        var r := KeyedRetry(UpdateOp, target, h, key, old(Fields(docs)), replies);
        && sent == old(sent) + r.trace && acked == r.acked
        && searchesUsed == 0 && repliesUsed == r.used
        && Fields(docs) == Steps(h, old(Fields(docs)))
      ensures !isId ==>
        var r := LookupRetry(target, h, key, hits, old(Fields(docs)), searches, replies);
        && sent == old(sent) + r.trace && acked == r.acked
        && searchesUsed == r.searchesUsed && repliesUsed == r.repliesUsed
        && Fields(docs) == r.final
    {
      if isId {
        acked, repliesUsed := KeyedWrite(UpdateOp, h, key, docs, replies);
        searchesUsed := 0;
      } else {
        acked, searchesUsed, repliesUsed := LookupWrite(h, key, hits, docs, searches, replies);
      }
    }
  }
}
