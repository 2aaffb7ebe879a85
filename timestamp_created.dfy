/** transform-examples/timestamp-created.js: the same `_created_at` to
    `@timestamp` copy as transform.js, in a module of its own. */
module TimestampCreated {
  import opened Documents
  import TransformExample

  /** Assigns `@timestamp` on the object passed in and returns that object. */
  method Transform(doc: Doc) returns (r: Doc)
    modifies doc
    ensures r == doc
    ensures doc.fields == TransformExample.StampCreatedAt(old(doc.fields))
    ensures forall k :: k in old(doc.fields) && k != TransformExample.Timestamp ==>
              k in doc.fields && doc.fields[k] == old(doc.fields)[k]
  {
    doc.fields := doc.fields[TransformExample.Timestamp := Get(doc.fields, TransformExample.CreatedAt)];
    r := doc;
  }
}
