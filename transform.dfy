/** transform-examples/transform.js: a transform hook that copies
    `_created_at` into `@timestamp` on the object it is given. */
module TransformExample {
  import opened Documents

  const Timestamp: string := "@timestamp"
  const CreatedAt: string := "_created_at"

  /** The document after `doc['@timestamp'] = doc._created_at`. */
  function StampCreatedAt(d: Document): (r: Document)
    ensures Timestamp in r && r[Timestamp] == Get(d, CreatedAt)
    ensures r.Keys == d.Keys + {Timestamp}
    ensures forall k :: k in d && k != Timestamp ==> r[k] == d[k]
  {
    d[Timestamp := Get(d, CreatedAt)]
  }

  /** The hook assigns into its argument and returns that same object. */
  method Transform(doc: Doc) returns (r: Doc)
    modifies doc
    ensures r == doc
    ensures doc.fields == StampCreatedAt(old(doc.fields))
  {
    doc.fields := doc.fields[Timestamp := Get(doc.fields, CreatedAt)];
    r := doc;
  }

  /** Applying the hook a second time changes nothing: `_created_at` is not
      the key written, so the copied value is the same. */
  lemma StampIdempotent(d: Document)
    ensures StampCreatedAt(StampCreatedAt(d)) == StampCreatedAt(d)
  {
    var once := StampCreatedAt(d);
    assert Get(once, CreatedAt) == Get(d, CreatedAt);
  }

  /** With `_created_at` missing, `@timestamp` is still created, holding `undefined`. */
  lemma StampWithoutCreatedAt(d: Document)
    requires CreatedAt !in d
    ensures Timestamp in StampCreatedAt(d) && StampCreatedAt(d)[Timestamp] == Undefined
  {
  }

  /** The hook never removes `_id` and never adds it back. */
  lemma StampKeepsId(d: Document)
    ensures IdField in StampCreatedAt(d) <==> IdField in d
  {
  }
}
