/** The whole-batch retry policy of `insertDocs` and `updateDocs` in index.js.
    The bulk API's answers form an input stream: each attempt takes the next
    reply. A transport error (`Err`) triggers a flush of the index and a retry;
    item-level errors (`Errors`) a retry with no flush; `Ok` ends the write and
    the callback runs. When a stream runs out, the attempt in flight is left
    waiting and the write is not acknowledged. */
module RetryPolicy {
  import opened Documents
  import opened TransformStep
  import opened BulkBody

  /** `err` set, `resp.errors` set, or a clean response. */
  datatype Response = Err | Errors | Ok

  /** What the engine asks of the index: a bulk write or `indices.flush`. */
  datatype Request = Bulk(body: seq<Entry>) | Flush(index: string)

  /** The requests one write issues, whether its callback ran, and how many replies it consumed. */
  datatype Run = Run(trace: seq<Request>, acked: bool, used: nat)

  /** A keyed write: `first` on the first attempt, `again` on every retry. */
  function BulkRetry(index: string, first: seq<Entry>, again: seq<Entry>, replies: seq<Response>): (r: Run)
    ensures r.used <= |replies|
    ensures r.trace != [] && r.trace[0] == Bulk(first)
    decreases |replies|
  {
    if replies == [] then Run([Bulk(first)], false, 0)
    else if replies[0] == Ok then Run([Bulk(first)], true, 1)
    else
      var rest := BulkRetry(index, again, again, replies[1..]);
      var attempt := if replies[0] == Err then [Bulk(first), Flush(index)] else [Bulk(first)];
      Run(attempt + rest.trace, rest.acked, rest.used + 1)
  }

  /** An attempt whose reply asks for a retry: the bulk request, a flush after
      a transport error, then the retries with the remaining replies. */
  lemma BulkRetried(index: string, first: seq<Entry>, again: seq<Entry>, replies: seq<Response>)
    requires replies != [] && replies[0] != Ok
    ensures var r := BulkRetry(index, first, again, replies);
      var rest := BulkRetry(index, again, again, replies[1..]);
      && r.trace == (if replies[0] == Err then [Bulk(first), Flush(index)] else [Bulk(first)]) + rest.trace
      && r.acked == rest.acked
      && r.used == rest.used + 1
  {
  }

  function CountErr(rs: seq<Response>): nat
  {
    if rs == [] then 0 else (if rs[0] == Err then 1 else 0) + CountErr(rs[1..])
  }

  function CountFailed(searches: seq<bool>): nat
  {
    if searches == [] then 0 else (if searches[0] then 0 else 1) + CountFailed(searches[1..])
  }

  function CountBulks(trace: seq<Request>): nat
  {
    if trace == [] then 0 else (if trace[0].Bulk? then 1 else 0) + CountBulks(trace[1..])
  }

  function CountFlushes(trace: seq<Request>): nat
  {
    if trace == [] then 0 else (if trace[0].Flush? then 1 else 0) + CountFlushes(trace[1..])
  }

  lemma {:induction false} CountBulksAppend(a: seq<Request>, b: seq<Request>)
    ensures CountBulks(a + b) == CountBulks(a) + CountBulks(b)
    ensures CountFlushes(a + b) == CountFlushes(a) + CountFlushes(b)
  {
    if a != [] {
      assert (a + b)[1..] == a[1..] + b;
      CountBulksAppend(a[1..], b);
      assert CountBulks(a + b) == (if a[0].Bulk? then 1 else 0) + CountBulks(a[1..] + b);
      assert CountFlushes(a + b) == (if a[0].Flush? then 1 else 0) + CountFlushes(a[1..] + b);
    } else {
      assert a + b == b;
    }
  }

  /** The callback runs exactly when some reply is `Ok`, right after the first
      one; until then every reply is consumed. */
  lemma {:induction false} AckedAtFirstOk(index: string, first: seq<Entry>, again: seq<Entry>, replies: seq<Response>)
    ensures var r := BulkRetry(index, first, again, replies);
      && (r.acked <==> Ok in replies)
      && (r.acked ==> 0 < r.used && replies[r.used - 1] == Ok && Ok !in replies[..r.used - 1])
      && (!r.acked ==> r.used == |replies|)
    decreases |replies|
  {
    if replies != [] && replies[0] != Ok {
      AckedAtFirstOk(index, again, again, replies[1..]);
      var r := BulkRetry(index, first, again, replies);
      assert replies == [replies[0]] + replies[1..];
      if r.acked {
        assert replies[..r.used - 1] == [replies[0]] + replies[1..][..r.used - 2];
      }
    }
  }

  /** One bulk request per attempt, the last one left unanswered when the
      replies ran out, and one flush per transport error. */
  lemma {:induction false} RetryCounts(index: string, first: seq<Entry>, again: seq<Entry>, replies: seq<Response>)
    ensures var r := BulkRetry(index, first, again, replies);
      && CountBulks(r.trace) == (if r.acked then r.used else r.used + 1)
      && CountFlushes(r.trace) == CountErr(replies[..r.used])
    decreases |replies|
  {
    var r := BulkRetry(index, first, again, replies);
    if replies != [] && replies[0] != Ok {
      var rest := BulkRetry(index, again, again, replies[1..]);
      RetryCounts(index, again, again, replies[1..]);
      var head := if replies[0] == Err then [Bulk(first), Flush(index)] else [Bulk(first)];
      assert r.trace == head + rest.trace;
      assert r.used == rest.used + 1 && r.acked == rest.acked;
      RetriedCounts(index, first, replies, rest.trace, rest.used);
    } else if replies == [] {
      assert r.trace == [Bulk(first)];
      assert r.trace[1..] == [];
    } else {
      assert replies[..1] == [Ok];
      assert r.trace[1..] == [];
    }
  }

  /** One attempt's requests: a bulk request, and a flush after a transport error. */
  lemma HeadCounts(index: string, body: seq<Entry>, reply: Response)
    ensures var head := if reply == Err then [Bulk(body), Flush(index)] else [Bulk(body)];
      CountBulks(head) == 1 && CountFlushes(head) == (if reply == Err then 1 else 0)
  {
    var head := if reply == Err then [Bulk(body), Flush(index)] else [Bulk(body)];
    if reply == Err {
      assert head[1..] == [Flush(index)];
      assert head[1..][1..] == [];
      assert CountFlushes(head[1..]) == 1 && CountBulks(head[1..]) == 0;
    } else {
      assert head[1..] == [];
    }
  }

  /** The count step of a retried attempt. */
  lemma RetriedCounts(index: string, body: seq<Entry>, replies: seq<Response>, trace: seq<Request>, k: nat)
    requires replies != [] && replies[0] != Ok && k < |replies|
    ensures var head := if replies[0] == Err then [Bulk(body), Flush(index)] else [Bulk(body)];
      && CountBulks(head + trace) == CountBulks(trace) + 1
      && CountFlushes(head + trace) - CountFlushes(trace) == CountErr(replies[..k + 1]) - CountErr(replies[1..][..k])
  {
    var head := if replies[0] == Err then [Bulk(body), Flush(index)] else [Bulk(body)];
    HeadCounts(index, body, replies[0]);
    CountBulksAppend(head, trace);
    assert replies[..k + 1] == [replies[0]] + replies[1..][..k];
  }

  /** What the requests look like: every retry resends `again`, a flush comes
      only right after a bulk request, and the trace ends on the bulk request
      whose reply decided the outcome. */
  predicate RetryShaped(index: string, again: seq<Entry>, trace: seq<Request>)
  {
    && trace != []
    && (forall i :: 0 < i < |trace| && trace[i].Bulk? ==> trace[i].body == again)
    && (forall i :: 0 <= i < |trace| && trace[i].Flush? ==>
          0 < i && trace[i - 1].Bulk? && trace[i].index == index)
    && trace[|trace| - 1].Bulk?
  }

  lemma {:induction false} RetryShape(index: string, first: seq<Entry>, again: seq<Entry>, replies: seq<Response>)
    ensures RetryShaped(index, again, BulkRetry(index, first, again, replies).trace)
    decreases |replies|
  {
    var r := BulkRetry(index, first, again, replies);
    if replies != [] && replies[0] != Ok {
      var rest := BulkRetry(index, again, again, replies[1..]);
      RetryShape(index, again, again, replies[1..]);
      var head := if replies[0] == Err then [Bulk(first), Flush(index)] else [Bulk(first)];
      assert r.trace == head + rest.trace;
      ShapedAfterHead(index, again, head, rest.trace);
    }
  }

  lemma ShapedAfterHead(index: string, again: seq<Entry>, head: seq<Request>, rest: seq<Request>)
    requires head != [] && head[0].Bulk? && RetryShaped(index, again, rest)
    requires |head| == 1 || (|head| == 2 && head[1] == Flush(index))
    requires rest[0].Bulk? && rest[0].body == again
    ensures RetryShaped(index, again, head + rest)
  {
    var trace := head + rest;
    forall i | 0 < i < |trace| && trace[i].Bulk?
      ensures trace[i].body == again
    {
      if i >= |head| {
        assert trace[i] == rest[i - |head|];
      }
    }
    forall i | 0 <= i < |trace| && trace[i].Flush?
      ensures 0 < i && trace[i - 1].Bulk? && trace[i].index == index
    {
      if i >= |head| {
        assert trace[i] == rest[i - |head|];
        if i > |head| {
          assert trace[i - 1] == rest[i - 1 - |head|];
        }
      }
    }
  }

  // ---------------------------------------------------------------------------
  // Lookup update: search round, then bulk write
  // ---------------------------------------------------------------------------

  /** The requests of a lookup-mode write, whether its callback ran, how many
      search rounds and bulk replies it consumed, and the documents' final contents. */
  datatype LookupRun = LookupRun(trace: seq<Request>, acked: bool, searchesUsed: nat, repliesUsed: nat,
                                 final: seq<Document>)

  /** The lookup branch of updateDocs. Each round searches every document of the
      batch; `searches` says whether the whole round (`Promise.all`) succeeded.
      A failed round flushes and starts over; a round with no hits completes
      without a bulk request; otherwise the bulk reply decides as for a keyed
      write, and a retry searches again with the documents as the round left them. */
  function LookupRetry(t: Target, h: Hook, key: string, hits: Value -> seq<string>, ds: seq<Document>,
                       searches: seq<bool>, replies: seq<Response>): (r: LookupRun)
    ensures r.searchesUsed <= |searches| && r.repliesUsed <= |replies|
    ensures |r.final| == |ds|
    decreases |searches|
  {
    if searches == [] then LookupRun([], false, 0, 0, ds)
    else if !searches[0] then
      var rest := LookupRetry(t, h, key, hits, ds, searches[1..], replies);
      LookupRun([Flush(t.index)] + rest.trace, rest.acked, rest.searchesUsed + 1, rest.repliesUsed, rest.final)
    else
      var body := LookupBody(t, h, key, hits, ds);
      var next := LookupSteps(h, key, hits, ds);
      if body == [] then LookupRun([], true, 1, 0, next)
      else if replies == [] then LookupRun([Bulk(body)], false, 1, 0, next)
      else if replies[0] == Ok then LookupRun([Bulk(body)], true, 1, 1, next)
      else
        var rest := LookupRetry(t, h, key, hits, next, searches[1..], replies[1..]);
        var attempt := if replies[0] == Err then [Bulk(body), Flush(t.index)] else [Bulk(body)];
        LookupRun(attempt + rest.trace, rest.acked, rest.searchesUsed + 1, rest.repliesUsed + 1, rest.final)
  }

  /** A searched round whose bulk reply asks for a retry: the bulk request, a
      flush after a transport error, then the next round over the objects as
      this round left them, with the remaining searches and replies. */
  lemma LookupRetried(t: Target, h: Hook, key: string, hits: Value -> seq<string>, ds: seq<Document>,
                      searches: seq<bool>, replies: seq<Response>)
    requires searches != [] && searches[0] && LookupBody(t, h, key, hits, ds) != []
    requires replies != [] && replies[0] != Ok
    ensures var r := LookupRetry(t, h, key, hits, ds, searches, replies);
      var rest := LookupRetry(t, h, key, hits, LookupSteps(h, key, hits, ds), searches[1..], replies[1..]);
      var body := LookupBody(t, h, key, hits, ds);
      && r.trace == (if replies[0] == Err then [Bulk(body), Flush(t.index)] else [Bulk(body)]) + rest.trace
      && r.acked == rest.acked
      && r.searchesUsed == rest.searchesUsed + 1
      && r.repliesUsed == rest.repliesUsed + 1
      && r.final == rest.final
  {
  }

  /** A searched round that ends the write: nothing to send, no reply left
      for the bulk request, or an `Ok` reply. */
  lemma LookupRoundEnds(t: Target, h: Hook, key: string, hits: Value -> seq<string>, ds: seq<Document>,
                        searches: seq<bool>, replies: seq<Response>)
    requires searches != [] && searches[0]
    requires var body := LookupBody(t, h, key, hits, ds); body == [] || replies == [] || replies[0] == Ok
    ensures var r := LookupRetry(t, h, key, hits, ds, searches, replies);
      var body := LookupBody(t, h, key, hits, ds);
      && r.trace == (if body == [] then [] else [Bulk(body)])
      && r.acked == (body == [] || replies != [])
      && r.searchesUsed == 1
      && r.repliesUsed == (if body == [] || replies == [] then 0 else 1)
      && r.final == LookupSteps(h, key, hits, ds)
  {
  }

  /** A lookup round in which no document has a hit is not an error: the
      callback runs and nothing is written. */
  lemma NoHitsNoWrite(t: Target, h: Hook, key: string, hits: Value -> seq<string>, ds: seq<Document>,
                      searches: seq<bool>, replies: seq<Response>)
    requires searches != [] && searches[0]
    requires forall i :: 0 <= i < |ds| ==> HitsFor(hits, key, ds[i]) == []
    ensures var r := LookupRetry(t, h, key, hits, ds, searches, replies);
      r.acked && r.trace == [] && r.repliesUsed == 0 && r.final == ds
  {
    LookupBodyEmpty(t, h, key, hits, ds);
    assert LookupSteps(h, key, hits, ds) == ds;
  }

  /** The callback runs only after a successful search round whose bulk reply
      is `Ok`, or which found nothing to update; no reply after an `Ok` is
      consumed; and the write stalls only when an input stream runs out. */
  predicate AckedAfterOk(t: Target, h: Hook, key: string, hits: Value -> seq<string>,
                         searches: seq<bool>, replies: seq<Response>, r: LookupRun)
  {
    && r.searchesUsed <= |searches| && r.repliesUsed <= |replies|
    && (r.acked ==>
          && 0 < r.searchesUsed && searches[r.searchesUsed - 1]
          && ((0 < r.repliesUsed && replies[r.repliesUsed - 1] == Ok)
              || LookupBody(t, h, key, hits, r.final) == []))
    && (0 < r.repliesUsed ==> Ok !in replies[..r.repliesUsed - 1])
    && (!r.acked ==> r.searchesUsed == |searches| || r.repliesUsed == |replies|)
  }

  lemma {:induction false} LookupAcked(t: Target, h: Hook, key: string, hits: Value -> seq<string>,
                                       ds: seq<Document>, searches: seq<bool>, replies: seq<Response>)
    ensures AckedAfterOk(t, h, key, hits, searches, replies, LookupRetry(t, h, key, hits, ds, searches, replies))
    decreases |searches|
  {
    if searches != [] {
      if !searches[0] {
        LookupAcked(t, h, key, hits, ds, searches[1..], replies);
        LookupAckedFailedRound(t, h, key, hits, ds, searches, replies);
      } else {
        var body := LookupBody(t, h, key, hits, ds);
        var next := LookupSteps(h, key, hits, ds);
        if body == [] {
          LookupBodyEmpty(t, h, key, hits, ds);
          assert next == ds;
        } else if replies != [] && replies[0] != Ok {
          LookupAcked(t, h, key, hits, next, searches[1..], replies[1..]);
          LookupAckedRetry(t, h, key, hits, ds, searches, replies);
        }
      }
    }
  }

  lemma LookupAckedFailedRound(t: Target, h: Hook, key: string, hits: Value -> seq<string>,
                               ds: seq<Document>, searches: seq<bool>, replies: seq<Response>)
    requires searches != [] && !searches[0]
    requires AckedAfterOk(t, h, key, hits, searches[1..], replies,
                          LookupRetry(t, h, key, hits, ds, searches[1..], replies))
    ensures AckedAfterOk(t, h, key, hits, searches, replies, LookupRetry(t, h, key, hits, ds, searches, replies))
  {
    var r := LookupRetry(t, h, key, hits, ds, searches, replies);
    var rest := LookupRetry(t, h, key, hits, ds, searches[1..], replies);
    assert r.acked == rest.acked && r.final == rest.final && r.repliesUsed == rest.repliesUsed;
    assert r.searchesUsed == rest.searchesUsed + 1;
  }

  lemma LookupAckedRetry(t: Target, h: Hook, key: string, hits: Value -> seq<string>,
                         ds: seq<Document>, searches: seq<bool>, replies: seq<Response>)
    requires searches != [] && searches[0] && replies != [] && replies[0] != Ok
    requires LookupBody(t, h, key, hits, ds) != []
    requires AckedAfterOk(t, h, key, hits, searches[1..], replies[1..],
                          LookupRetry(t, h, key, hits, LookupSteps(h, key, hits, ds), searches[1..], replies[1..]))
    ensures AckedAfterOk(t, h, key, hits, searches, replies, LookupRetry(t, h, key, hits, ds, searches, replies))
  {
    var r := LookupRetry(t, h, key, hits, ds, searches, replies);
    var rest := LookupRetry(t, h, key, hits, LookupSteps(h, key, hits, ds), searches[1..], replies[1..]);
    LookupRetried(t, h, key, hits, ds, searches, replies);
    if 0 < rest.repliesUsed {
      PrefixCons(replies, rest.repliesUsed);
    } else {
      assert replies[..r.repliesUsed - 1] == [];
    }
  }

  lemma PrefixCons<T>(s: seq<T>, k: nat)
    requires 0 < k <= |s|
    ensures s[..k] == [s[0]] + s[1..][..k - 1]
  {
  }

  /** One flush per failed search round and per transport error among the
      searches and replies a lookup write consumed. */
  predicate FlushesCounted(searches: seq<bool>, replies: seq<Response>, r: LookupRun)
  {
    && r.searchesUsed <= |searches| && r.repliesUsed <= |replies|
    && CountFlushes(r.trace) == CountFailed(searches[..r.searchesUsed]) + CountErr(replies[..r.repliesUsed])
  }

  lemma {:induction false} LookupFlushes(t: Target, h: Hook, key: string, hits: Value -> seq<string>,
                                         ds: seq<Document>, searches: seq<bool>, replies: seq<Response>)
    ensures FlushesCounted(searches, replies, LookupRetry(t, h, key, hits, ds, searches, replies))
    decreases |searches|
  {
    if searches != [] {
      if !searches[0] {
        LookupFlushes(t, h, key, hits, ds, searches[1..], replies);
        FlushesFailedRound(t, h, key, hits, ds, searches, replies);
      } else if LookupBody(t, h, key, hits, ds) != [] && replies != [] && replies[0] != Ok {
        LookupFlushes(t, h, key, hits, LookupSteps(h, key, hits, ds), searches[1..], replies[1..]);
        FlushesRetried(t, h, key, hits, ds, searches, replies);
      } else {
        FlushesLastRound(t, h, key, hits, ds, searches, replies);
      }
    }
  }

  lemma FlushesFailedRound(t: Target, h: Hook, key: string, hits: Value -> seq<string>,
                           ds: seq<Document>, searches: seq<bool>, replies: seq<Response>)
    requires searches != [] && !searches[0]
    requires FlushesCounted(searches[1..], replies, LookupRetry(t, h, key, hits, ds, searches[1..], replies))
    ensures FlushesCounted(searches, replies, LookupRetry(t, h, key, hits, ds, searches, replies))
  {
    var r := LookupRetry(t, h, key, hits, ds, searches, replies);
    var rest := LookupRetry(t, h, key, hits, ds, searches[1..], replies);
    assert r.trace == [Flush(t.index)] + rest.trace;
    assert r.searchesUsed == rest.searchesUsed + 1 && r.repliesUsed == rest.repliesUsed;
    CountBulksAppend([Flush(t.index)], rest.trace);
    assert searches[..r.searchesUsed] == [searches[0]] + searches[1..][..rest.searchesUsed];
  }

  lemma FlushesRetried(t: Target, h: Hook, key: string, hits: Value -> seq<string>,
                       ds: seq<Document>, searches: seq<bool>, replies: seq<Response>)
    requires searches != [] && searches[0] && LookupBody(t, h, key, hits, ds) != []
    requires replies != [] && replies[0] != Ok
    requires FlushesCounted(searches[1..], replies[1..],
                            LookupRetry(t, h, key, hits, LookupSteps(h, key, hits, ds), searches[1..], replies[1..]))
    ensures FlushesCounted(searches, replies, LookupRetry(t, h, key, hits, ds, searches, replies))
  {
    var r := LookupRetry(t, h, key, hits, ds, searches, replies);
    var rest := LookupRetry(t, h, key, hits, LookupSteps(h, key, hits, ds), searches[1..], replies[1..]);
    LookupRetried(t, h, key, hits, ds, searches, replies);
    RetriedFlushes(t.index, LookupBody(t, h, key, hits, ds), searches, replies, rest.trace,
                   rest.searchesUsed, rest.repliesUsed);
    assert r.searchesUsed == rest.searchesUsed + 1 && r.repliesUsed == rest.repliesUsed + 1;
    assert CountFlushes(r.trace) == CountFailed(searches[..r.searchesUsed]) + CountErr(replies[..r.repliesUsed]);
  }

  lemma FlushesLastRound(t: Target, h: Hook, key: string, hits: Value -> seq<string>,
                         ds: seq<Document>, searches: seq<bool>, replies: seq<Response>)
    requires searches != [] && searches[0]
    requires LookupBody(t, h, key, hits, ds) == [] || replies == [] || replies[0] == Ok
    ensures FlushesCounted(searches, replies, LookupRetry(t, h, key, hits, ds, searches, replies))
  {
    var r := LookupRetry(t, h, key, hits, ds, searches, replies);
    assert searches[..1] == [true];
    assert r.searchesUsed == 1 && CountFlushes(r.trace) == 0;
    if r.repliesUsed == 1 {
      assert replies[..1] == [Ok];
    }
  }

  /** The count step of a searched round whose bulk reply asks for a retry. */
  lemma RetriedFlushes(index: string, body: seq<Entry>, searches: seq<bool>, replies: seq<Response>,
                       trace: seq<Request>, s: nat, k: nat)
    requires searches != [] && searches[0] && s < |searches|
    requires replies != [] && replies[0] != Ok && k < |replies|
    requires CountFlushes(trace) == CountFailed(searches[1..][..s]) + CountErr(replies[1..][..k])
    ensures CountFlushes((if replies[0] == Err then [Bulk(body), Flush(index)] else [Bulk(body)]) + trace)
            == CountFailed(searches[..s + 1]) + CountErr(replies[..k + 1])
  {
    RetriedCounts(index, body, replies, trace, k);
    assert searches[..s + 1] == [searches[0]] + searches[1..][..s];
  }

  /** However many rounds ran, each document ends either as it was or as one
      transformDoc leaves it: a retry never transforms twice over. */
  lemma {:induction false} LookupFinal(t: Target, h: Hook, key: string, hits: Value -> seq<string>,
                                       ds: seq<Document>, searches: seq<bool>, replies: seq<Response>)
    ensures var r := LookupRetry(t, h, key, hits, ds, searches, replies);
      forall i :: 0 <= i < |ds| ==> r.final[i] == ds[i] || r.final[i] == Step(h, ds[i])
    decreases |searches|
  {
    var r := LookupRetry(t, h, key, hits, ds, searches, replies);
    if searches != [] {
      if !searches[0] {
        LookupFinal(t, h, key, hits, ds, searches[1..], replies);
      } else {
        var body := LookupBody(t, h, key, hits, ds);
        var next := LookupSteps(h, key, hits, ds);
        if body != [] && replies != [] && replies[0] != Ok {
          LookupFinal(t, h, key, hits, next, searches[1..], replies[1..]);
          forall i | 0 <= i < |ds|
            ensures r.final[i] == ds[i] || r.final[i] == Step(h, ds[i])
          {
            assert next[i] == LookupStep(h, key, hits, ds[i]);
            StepIdempotent(h, ds[i]);
          }
        }
      }
    }
  }
}
