/** The bodies `insertDocs` and `updateDocs` of index.js hand to the bulk API:
    an action description followed by the document, per document (insert and
    direct-key update) or per search hit (lookup update). */
module BulkBody {
  import opened Documents
  import opened TransformStep
  import TransformExample

  /** `parseInt(response.version.number) > 6`: from version 7 on, mapping types are gone. */
  function TypeDeprecated(major: int): bool
  {
    major > 6
  }

  /** Where the documents go: `e_index`, `e_type`, and whether `_type` is left out. */
  datatype Target = Target(index: string, docType: string, typeDeprecated: bool)

  /** `{_index, _id[, _type]}`. */
  datatype Action = Action(index: string, id: Value, docType: Option<string>)

  /** The action description for a document id; `_type` only before version 7. */
  function Describe(t: Target, id: Value): Action
  {
    Action(t.index, id, if t.typeDeprecated then None else Some(t.docType))
  }

  /** `index` (insertDocs) or `update` (updateDocs). */
  datatype Op = IndexOp | UpdateOp

  /** One line of a bulk body: an action, the document to index, or `{doc: …}`
      for a partial update. */
  datatype Entry =
    | Command(op: Op, action: Action)
    | Source(doc: Document)
    | PartialDoc(doc: Document)

  /** The line that follows an action. */
  function Payload(op: Op, d: Document): Entry
  {
    if op == IndexOp then Source(d) else PartialDoc(d)
  }

  /** The two lines at positions `2i` and `2i + 1`. */
  function PairAt(body: seq<Entry>, i: nat): seq<Entry>
    requires 2 * i + 2 <= |body|
  {
    body[2 * i..2 * i + 2]
  }

  lemma PairAtPrefix(prefix: seq<Entry>, tail: seq<Entry>, i: nat)
    requires 2 * i + 2 <= |prefix|
    ensures PairAt(prefix + tail, i) == PairAt(prefix, i)
  {
    assert (prefix + tail)[2 * i..2 * i + 2] == prefix[2 * i..2 * i + 2];
  }

  lemma PairAtSuffix(prefix: seq<Entry>, tail: seq<Entry>, m: nat, j: nat)
    requires |prefix| == 2 * m && 2 * j + 2 <= |tail|
    ensures PairAt(prefix + tail, m + j) == PairAt(tail, j)
  {
    assert (prefix + tail)[2 * (m + j)..2 * (m + j) + 2] == tail[2 * j..2 * j + 2];
  }

  /** The `j`-th pair of a middle part whose prefix holds `m` pairs is the
      `m + j`-th pair of the whole. */
  lemma PairInMiddle(whole: seq<Entry>, before: seq<Entry>, own: seq<Entry>, after: seq<Entry>,
                     m: nat, j: nat, pair: seq<Entry>)
    requires whole == before + (own + after)
    requires |before| == 2 * m && 2 * j + 2 <= |own| && PairAt(own, j) == pair
    ensures 2 * (m + j) + 2 <= |whole| && PairAt(whole, m + j) == pair
  {
    PairAtPrefix(own, after, j);
    PairAtSuffix(before, own + after, m, j);
  }

  /** The two lines one document contributes when keyed by its own field. The
      id is read from the document as it was before transformDoc ran on it. */
  function KeyedPair(op: Op, t: Target, h: Hook, key: string, d: Document): seq<Entry>
  {
    [Command(op, Describe(t, Get(d, key))), Payload(op, Transformed(h, d))]
  }

  /** The body built by the `forEach` of insertDocs (`IndexOp`, keyed by
      `e_doc_id`) or of the direct-key branch of updateDocs (`UpdateOp`,
      keyed by `e_update_key[0]`). */
  function KeyedBody(op: Op, t: Target, h: Hook, key: string, ds: seq<Document>): (body: seq<Entry>)
    ensures |body| == 2 * |ds|
    ensures forall i {:trigger PairAt(body, i)} :: 0 <= i < |ds| ==> PairAt(body, i) == KeyedPair(op, t, h, key, ds[i])
  {
    if ds == [] then []
    else
      var prefix := KeyedBody(op, t, h, key, ds[..|ds| - 1]);
      var body := prefix + KeyedPair(op, t, h, key, ds[|ds| - 1]);
      assert forall i :: 0 <= i < |ds| - 1 ==> PairAt(body, i) == PairAt(prefix, i) by {
        forall i | 0 <= i < |ds| - 1 {
          PairAtPrefix(prefix, KeyedPair(op, t, h, key, ds[|ds| - 1]), i);
        }
      }
      assert PairAt(body, |ds| - 1) == KeyedPair(op, t, h, key, ds[|ds| - 1]);
      body
  }

  /** The body of a prefix one document longer: the pair of that document appended. */
  lemma KeyedBodySnoc(op: Op, t: Target, h: Hook, key: string, ds: seq<Document>, i: nat)
    requires i < |ds|
    ensures KeyedBody(op, t, h, key, ds[..i + 1]) == KeyedBody(op, t, h, key, ds[..i]) + KeyedPair(op, t, h, key, ds[i])
  {
    assert ds[..i + 1][..i] == ds[..i];
  }

  /** `_type` appears in every action exactly when the server's major version is at most 6. */
  lemma TypeOnlyBeforeSeven(op: Op, index: string, docType: string, major: int, h: Hook, key: string,
                            ds: seq<Document>, i: nat)
    requires i < |ds|
    ensures var body := KeyedBody(op, Target(index, docType, TypeDeprecated(major)), h, key, ds);
      && body[2 * i].Command?
      && body[2 * i].action.index == index
      && (body[2 * i].action.docType == Some(docType) <==> major <= 6)
      && (body[2 * i].action.docType == None <==> major > 6)
  {
    var body := KeyedBody(op, Target(index, docType, TypeDeprecated(major)), h, key, ds);
    assert body[2 * i] == PairAt(body, i)[0];
  }

  /** Two bodies agreeing pair by pair are equal. */
  lemma PairwiseEqual(a: seq<Entry>, b: seq<Entry>, n: nat)
    requires |a| == |b| == 2 * n
    requires forall i :: 0 <= i < n ==> PairAt(a, i) == PairAt(b, i)
    ensures a == b
  {
    forall m | 0 <= m < |a|
      ensures a[m] == b[m]
    {
      var i := m / 2;
      assert PairAt(a, i) == PairAt(b, i);
      assert a[m] == PairAt(a, i)[m - 2 * i];
      assert b[m] == PairAt(b, i)[m - 2 * i];
    }
  }

  /** transformDoc changes no field but `_id` and the one the example hooks write. */
  lemma StepKeepsField(h: Hook, d: Document, key: string)
    requires key != IdField && key != TransformExample.Timestamp
    ensures Get(Step(h, d), key) == Get(d, key)
  {
  }

  /** A retry rebuilds the body from documents transformDoc has already
      handled: the documents sent are the same, and so are the ids unless the
      id is read from `_id` (deleted by the first attempt) or from the field
      the example hooks overwrite. */
  lemma RetryBody(op: Op, t: Target, h: Hook, key: string, ds: seq<Document>)
    ensures var first := KeyedBody(op, t, h, key, ds);
      var again := KeyedBody(op, t, h, key, Steps(h, ds));
      && |again| == |first|
      && (forall i :: 0 <= i < |ds| ==> PairAt(again, i)[1] == PairAt(first, i)[1])
      && (key != IdField && key != TransformExample.Timestamp ==> again == first)
  {
    var first := KeyedBody(op, t, h, key, ds);
    var again := KeyedBody(op, t, h, key, Steps(h, ds));
    forall i | 0 <= i < |ds|
      ensures PairAt(again, i)[1] == PairAt(first, i)[1]
    {
      TransformedStable(h, ds[i]);
    }
    if key != IdField && key != TransformExample.Timestamp {
      forall i | 0 <= i < |ds|
        ensures PairAt(again, i) == PairAt(first, i)
      {
        TransformedStable(h, ds[i]);
        StepKeepsField(h, ds[i], key);
      }
      PairwiseEqual(again, first, |ds|);
    }
  }

  /** With `e_doc_id` set to `_id`, every retried action carries an undefined id:
      the first attempt deleted `_id` from the documents it transformed. */
  lemma RetriedIdsUndefined(op: Op, t: Target, h: Hook, ds: seq<Document>, i: nat)
    requires i < |ds|
    ensures KeyedBody(op, t, h, IdField, Steps(h, ds))[2 * i] == Command(op, Describe(t, Undefined))
  {
    var again := KeyedBody(op, t, h, IdField, Steps(h, ds));
    assert again[2 * i] == PairAt(again, i)[0];
  }

  // ---------------------------------------------------------------------------
  // Lookup update: one pair per search hit
  // ---------------------------------------------------------------------------

  /** The `update` action of one hit id followed by the transformed document. */
  function HitPair(t: Target, doc: Document, id: string): seq<Entry>
  {
    [Command(UpdateOp, Describe(t, Str(id))), PartialDoc(doc)]
  }

  /** The pairs one document contributes: an `update` of every hit id, each
      followed by the transformed document. */
  function HitPairs(t: Target, doc: Document, ids: seq<string>): (pairs: seq<Entry>)
    ensures |pairs| == 2 * |ids|
    ensures forall j {:trigger PairAt(pairs, j)} :: 0 <= j < |ids| ==>
              PairAt(pairs, j) == HitPair(t, doc, ids[j])
  {
    if ids == [] then []
    else
      var prefix := HitPairs(t, doc, ids[..|ids| - 1]);
      var pair := HitPair(t, doc, ids[|ids| - 1]);
      var pairs := prefix + pair;
      assert forall j :: 0 <= j < |ids| - 1 ==> PairAt(pairs, j) == PairAt(prefix, j) by {
        forall j | 0 <= j < |ids| - 1 {
          PairAtPrefix(prefix, pair, j);
        }
      }
      assert PairAt(pairs, |ids| - 1) == pair;
      pairs
  }

  /** The ids the term search on `e_update_key[0]` returns for a document. */
  function HitsFor(hits: Value -> seq<string>, key: string, d: Document): seq<string>
  {
    hits(Get(d, key))
  }

  /** The body the lookup branch of updateDocs collects, documents taken in order. */
  function LookupBody(t: Target, h: Hook, key: string, hits: Value -> seq<string>, ds: seq<Document>)
    : (body: seq<Entry>)
    ensures |body| % 2 == 0
  {
    if ds == [] then []
    else
      var d := ds[|ds| - 1];
      LookupBody(t, h, key, hits, ds[..|ds| - 1]) + HitPairs(t, Transformed(h, d), HitsFor(hits, key, d))
  }

  /** The number of hits over a batch. */
  function TotalHits(hits: Value -> seq<string>, key: string, ds: seq<Document>): nat
  {
    if ds == [] then 0
    else TotalHits(hits, key, ds[..|ds| - 1]) + |HitsFor(hits, key, ds[|ds| - 1])|
  }

  /** Each hit gives the body exactly two lines. */
  lemma {:induction false} LookupBodyLength(t: Target, h: Hook, key: string, hits: Value -> seq<string>,
                                            ds: seq<Document>)
    ensures |LookupBody(t, h, key, hits, ds)| == 2 * TotalHits(hits, key, ds)
  {
    if ds != [] {
      LookupBodyLength(t, h, key, hits, ds[..|ds| - 1]);
    }
  }

  /** Documents without hits add nothing: the body is empty exactly when no
      document has a hit. */
  lemma {:induction false} LookupBodyEmpty(t: Target, h: Hook, key: string, hits: Value -> seq<string>,
                                           ds: seq<Document>)
    ensures LookupBody(t, h, key, hits, ds) == [] <==>
            forall i :: 0 <= i < |ds| ==> HitsFor(hits, key, ds[i]) == []
  {
    if ds != [] {
      var n := |ds| - 1;
      LookupBodyEmpty(t, h, key, hits, ds[..n]);
      assert forall i :: 0 <= i < n ==> ds[..n][i] == ds[i];
    }
  }

  /** The lookup body of a batch is the bodies of its parts, one after the other. */
  lemma {:induction false} LookupBodyAppend(t: Target, h: Hook, key: string, hits: Value -> seq<string>,
                                            a: seq<Document>, b: seq<Document>)
    ensures LookupBody(t, h, key, hits, a + b) == LookupBody(t, h, key, hits, a) + LookupBody(t, h, key, hits, b)
  {
    if b == [] {
      assert a + b == a;
    } else {
      var n := |b| - 1;
      assert (a + b)[..|a + b| - 1] == a + b[..n];
      assert (a + b)[|a + b| - 1] == b[n];
      LookupBodyAppend(t, h, key, hits, a, b[..n]);
    }
  }

  /** The body around one document: the pairs of the documents before it,
      its own pairs, then the pairs of the documents after it. */
  lemma LookupBodyAround(t: Target, h: Hook, key: string, hits: Value -> seq<string>, ds: seq<Document>, i: nat)
    requires i < |ds|
    ensures LookupBody(t, h, key, hits, ds)
            == LookupBody(t, h, key, hits, ds[..i])
               + (HitPairs(t, Transformed(h, ds[i]), HitsFor(hits, key, ds[i]))
                  + LookupBody(t, h, key, hits, ds[i + 1..]))
  {
    var rest := [ds[i]] + ds[i + 1..];
    assert ds == ds[..i] + rest;
    LookupBodyAppend(t, h, key, hits, ds[..i], rest);
    LookupBodyAppend(t, h, key, hits, [ds[i]], ds[i + 1..]);
    assert [ds[i]][..0] == [];
    assert LookupBody(t, h, key, hits, [ds[i]]) == HitPairs(t, Transformed(h, ds[i]), HitsFor(hits, key, ds[i]));
  }

  /** Taking out of `order` one occurrence of the last element of `ds`, when
      the two hold the same elements, leaves the elements of the rest of `ds`. */
  lemma WithoutLast<T>(order: seq<T>, ds: seq<T>, k: nat)
    requires multiset(order) == multiset(ds) && ds != []
    requires k < |order| && order[k] == ds[|ds| - 1]
    ensures multiset(order[..k] + order[k + 1..]) == multiset(ds[..|ds| - 1])
  {
    var n := |ds| - 1;
    assert order == order[..k] + [order[k]] + order[k + 1..];
    assert ds == ds[..n] + [ds[n]];
    var others := multiset(order[..k] + order[k + 1..]);
    assert others + multiset{ds[n]} == multiset(ds[..n]) + multiset{ds[n]};
    assert forall x :: others[x] == multiset(ds[..n])[x] by {
      forall x ensures others[x] == multiset(ds[..n])[x] {
        assert (others + multiset{ds[n]})[x] == (multiset(ds[..n]) + multiset{ds[n]})[x];
      }
    }
  }

  /** The searches of a round complete in any order, and each search's callback
      pushes its document's pairs in one go. Whatever the order, the body holds
      the same lines, each as often as the body in batch order does. */
  lemma {:induction false} LookupBodyAnyOrder(t: Target, h: Hook, key: string, hits: Value -> seq<string>,
                                              ds: seq<Document>, order: seq<Document>)
    requires multiset(order) == multiset(ds)
    ensures multiset(LookupBody(t, h, key, hits, order)) == multiset(LookupBody(t, h, key, hits, ds))
    decreases |ds|
  {
    if ds == [] {
      assert order == [];
    } else {
      var n := |ds| - 1;
      var d := ds[n];
      assert d in multiset(ds);
      var k :| 0 <= k < |order| && order[k] == d;
      var others := order[..k] + order[k + 1..];
      WithoutLast(order, ds, k);
      LookupBodyAnyOrder(t, h, key, hits, ds[..n], others);
      LookupBodyWithout(t, h, key, hits, order, k);
      LookupBodyWithout(t, h, key, hits, ds, n);
      assert ds[..n] + ds[n + 1..] == ds[..n];
    }
  }

  /** The lines of a body are those of the body without one document, plus
      that document's pairs. */
  lemma LookupBodyWithout(t: Target, h: Hook, key: string, hits: Value -> seq<string>, ds: seq<Document>, i: nat)
    requires i < |ds|
    ensures multiset(LookupBody(t, h, key, hits, ds))
            == multiset(LookupBody(t, h, key, hits, ds[..i] + ds[i + 1..]))
               + multiset(HitPairs(t, Transformed(h, ds[i]), HitsFor(hits, key, ds[i])))
  {
    LookupBodyAround(t, h, key, hits, ds, i);
    LookupBodyAppend(t, h, key, hits, ds[..i], ds[i + 1..]);
  }

  /** The `j`-th hit pair of a document whose pairs follow `m` pairs. */
  lemma HitInMiddle(whole: seq<Entry>, before: seq<Entry>, t: Target, doc: Document, hs: seq<string>,
                    after: seq<Entry>, m: nat, j: nat)
    requires whole == before + (HitPairs(t, doc, hs) + after)
    requires |before| == 2 * m && j < |hs|
    ensures 2 * (m + j) + 2 <= |whole| && PairAt(whole, m + j) == HitPair(t, doc, hs[j])
  {
    PairInMiddle(whole, before, HitPairs(t, doc, hs), after, m, j, HitPair(t, doc, hs[j]));
  }

  /** Every hit id of every document is updated with that document's transform,
      in batch order: the pair for the `j`-th hit of document `i` comes after
      the pairs of every hit of the documents before it. */
  lemma LookupBodyHasHit(t: Target, h: Hook, key: string, hits: Value -> seq<string>,
                         ds: seq<Document>, i: nat, j: nat)
    requires i < |ds| && j < |HitsFor(hits, key, ds[i])|
    ensures 2 * (TotalHits(hits, key, ds[..i]) + j) + 2 <= |LookupBody(t, h, key, hits, ds)|
    ensures PairAt(LookupBody(t, h, key, hits, ds), TotalHits(hits, key, ds[..i]) + j)
            == HitPair(t, Transformed(h, ds[i]), HitsFor(hits, key, ds[i])[j])
  {
    LookupBodyAround(t, h, key, hits, ds, i);
    LookupBodyLength(t, h, key, hits, ds[..i]);
    HitInMiddle(LookupBody(t, h, key, hits, ds), LookupBody(t, h, key, hits, ds[..i]), t, Transformed(h, ds[i]),
                HitsFor(hits, key, ds[i]), LookupBody(t, h, key, hits, ds[i + 1..]), TotalHits(hits, key, ds[..i]), j);
  }

  /** When the search finds, for each document, exactly the one index document
      whose id is the key's string value, the lookup body is the direct-key body. */
  lemma {:induction false} LookupAsDirect(t: Target, h: Hook, key: string, hits: Value -> seq<string>,
                                          ds: seq<Document>)
    requires forall i :: 0 <= i < |ds| ==>
               Get(ds[i], key).Str? && HitsFor(hits, key, ds[i]) == [Get(ds[i], key).s]
    ensures LookupBody(t, h, key, hits, ds) == KeyedBody(UpdateOp, t, h, key, ds)
  {
    if ds != [] {
      var n := |ds| - 1;
      assert forall i :: 0 <= i < n ==> ds[..n][i] == ds[i];
      LookupAsDirect(t, h, key, hits, ds[..n]);
      var tail := HitPairs(t, Transformed(h, ds[n]), HitsFor(hits, key, ds[n]));
      assert PairAt(tail, 0) == tail;
    }
  }

  /** What a document object holds after a successful lookup round: transformed
      when it had at least one hit, untouched otherwise. */
  function LookupStep(h: Hook, key: string, hits: Value -> seq<string>, d: Document): Document
  {
    if HitsFor(hits, key, d) == [] then d else Step(h, d)
  }

  function LookupSteps(h: Hook, key: string, hits: Value -> seq<string>, ds: seq<Document>): (r: seq<Document>)
    ensures |r| == |ds|
    ensures forall i {:trigger r[i]} :: 0 <= i < |ds| ==> r[i] == LookupStep(h, key, hits, ds[i])
  {
    seq(|ds|, i requires 0 <= i < |ds| => LookupStep(h, key, hits, ds[i]))
  }
}
