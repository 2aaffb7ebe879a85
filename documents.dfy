/** Documents as the sync engine handles them: JSON-like field maps, held in
    mutable objects that the engine changes in place. */
module Documents {

  datatype Option<+T> = None | Some(value: T)

  /** A field value. `Undefined` is what JavaScript yields for a missing key,
      and what an assignment from a missing key stores. */
  datatype Value =
    | Undefined
    | Null
    | Bool(b: bool)
    | Num(n: int)
    | Str(s: string)
    | ObjId(id: nat)                      // a MongoDB ObjectId, ordered by `id`
    | Obj(members: map<string, Value>)

  type Document = map<string, Value>

  /** A MongoDB filter document, as `JSON.parse` of `m_query` yields it. */
  type Query = map<string, Value>

  const IdField: string := "_id"

  /** `d[key]` in JavaScript. */
  function Get(d: Document, key: string): Value
  {
    if key in d then d[key] else Undefined
  }

  /** `delete d._id`. */
  function Strip(d: Document): (r: Document)
    ensures IdField !in r && r.Keys == d.Keys - {IdField}
    ensures forall k :: k in r ==> r[k] == d[k]
  {
    d - {IdField}
  }

  /** A document object as returned by the MongoDB driver. */
  class Doc {
    var fields: Document

    constructor (fields: Document)
      ensures this.fields == fields
    {
      this.fields := fields;
    }
  }

  /** The driver returns a fresh object per document: no object occurs twice in a batch. */
  ghost predicate Distinct(docs: seq<Doc>)
  {
    forall i, j :: 0 <= i < j < |docs| ==> docs[i] != docs[j]
  }

  /** The current contents of a batch of document objects. */
  function Fields(docs: seq<Doc>): seq<Document>
    reads docs
  {
    seq(|docs|, i requires 0 <= i < |docs| reads docs => docs[i].fields)
  }
}
