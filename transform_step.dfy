/** `transformDoc` of index.js: strip `_id` from the document object, then hand
    it to the configured transform hook and return what the hook returns. */
module TransformStep {
  import opened Documents
  import TransformExample
  import TimestampCreated

  /** The transform hook loaded from `m_transform`. `Identity` is the default
      `function (doc) { return doc; }`; the two example modules assign into
      their argument and return it; `Fresh(f)` stands for a user module that
      builds and returns a new object from its argument without changing it. */
  datatype Hook =
    | Identity
    | ExampleTransform
    | ExampleTimestampCreated
    | Fresh(f: Document -> Document)

  /** The value the hook returns when given `d`. */
  function Hooked(h: Hook, d: Document): Document
  {
    match h
    case Identity => d
    case ExampleTransform => TransformExample.StampCreatedAt(d)
    case ExampleTimestampCreated => TransformExample.StampCreatedAt(d)
    case Fresh(f) => f(d)
  }

  /** The value `transformDoc(doc)` returns, for a document holding `d`. */
  function Transformed(h: Hook, d: Document): (r: Document)
    ensures !h.Fresh? ==> IdField !in r
    ensures h.Fresh? ==> r == h.f(d - {IdField})
  {
    Hooked(h, Strip(d))
  }

  /** What the document object itself holds after `transformDoc(doc)`. */
  function Step(h: Hook, d: Document): (r: Document)
    ensures IdField !in r
    ensures !h.Fresh? ==> r == Transformed(h, d)
  {
    if h.Fresh? then Strip(d) else Transformed(h, d)
  }

  /** `Step` applied to every document of a batch. */
  function Steps(h: Hook, ds: seq<Document>): (r: seq<Document>)
    ensures |r| == |ds|
    ensures forall i {:trigger r[i]} :: 0 <= i < |ds| ==> r[i] == Step(h, ds[i])
  {
    seq(|ds|, i requires 0 <= i < |ds| => Step(h, ds[i]))
  }

  /** transformDoc: deletes `_id` in place, then calls the hook on the same
      object; the result is the hook's return value. */
  method TransformDoc(h: Hook, doc: Doc) returns (r: Document)
    modifies doc
    ensures IdField !in doc.fields
    ensures r == Transformed(h, old(doc.fields))
    ensures doc.fields == Step(h, old(doc.fields))
    ensures !h.Fresh? ==> doc.fields == r
  {
    doc.fields := Strip(doc.fields);
    match h {
      case Identity =>
        r := doc.fields;
      case ExampleTransform =>
        var same := TransformExample.Transform(doc);
        r := same.fields;
      case ExampleTimestampCreated =>
        var same := TimestampCreated.Transform(doc);
        r := same.fields;
      case Fresh(f) =>
        var made := new Doc(f(doc.fields));
        r := made.fields;
    }
  }

  /** A hook can re-add `_id`: the engine does not enforce its absence in
      what is sent to the index. */
  lemma HookMayRestoreId()
    ensures IdField in Transformed(Fresh(d => d[IdField := Null]), map[IdField := ObjId(7)])
  {
  }

  /** Running transformDoc again on an already transformed object leaves it as it is. */
  lemma StepIdempotent(h: Hook, d: Document)
    ensures Step(h, Step(h, d)) == Step(h, d)
  {
    match h {
      case Identity =>
        assert Strip(Strip(d)) == Strip(d);
      case ExampleTransform =>
        TransformExample.StampIdempotent(Strip(d));
        assert Strip(TransformExample.StampCreatedAt(Strip(d))) == TransformExample.StampCreatedAt(Strip(d));
      case ExampleTimestampCreated =>
        TransformExample.StampIdempotent(Strip(d));
        assert Strip(TransformExample.StampCreatedAt(Strip(d))) == TransformExample.StampCreatedAt(Strip(d));
      case Fresh(f) =>
        assert Strip(Strip(d)) == Strip(d);
    }
  }

  /** A retry hands the hook an already transformed object, and for these hooks
      gets the same document back as the first attempt did. */
  lemma TransformedStable(h: Hook, d: Document)
    ensures Transformed(h, Step(h, d)) == Transformed(h, d)
  {
    if h.Fresh? {
      assert Strip(Strip(d)) == Strip(d);
    } else {
      StepIdempotent(h, d);
    }
  }

  lemma StepsIdempotent(h: Hook, ds: seq<Document>)
    ensures Steps(h, Steps(h, ds)) == Steps(h, ds)
  {
    forall i | 0 <= i < |ds|
      ensures Steps(h, Steps(h, ds))[i] == Steps(h, ds)[i]
    {
      StepIdempotent(h, ds[i]);
    }
  }
}
