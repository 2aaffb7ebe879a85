/** The mandatory-option check and `parse_options` of index.js: from the
    command-line values to the settings the sync engine runs with. */
module Options {
  import opened Documents
  import opened TransformStep

  /** The options as command-line-args yields them. `mQuery` is already the
      result of `JSON.parse`, `mSkipId` already an ObjectId and `mTransform`
      the hook exported by the named module. */
  datatype RawOptions = RawOptions(
    mHost: Option<string>,
    mDb: Option<string>,
    mCollection: Option<string>,
    mLimit: Option<int>,
    mFields: Option<string>,
    mQuery: Option<Query>,
    mSkipId: Option<nat>,
    mTransform: Option<Hook>,
    eHost: Option<string>,
    eIndex: Option<string>,
    eType: Option<string>,
    eDocId: Option<string>,
    eUpdateKey: Option<string>)

  /** JavaScript truthiness of a string option: present and not empty. */
  predicate Truthy(o: Option<string>)
  {
    o.Some? && o.value != ""
  }

  /** The check at the start of the script: every connection and target
      option is set, and at least one of `e_doc_id` and `e_update_key`. */
  predicate MandatoryPresent(raw: RawOptions)
  {
    && Truthy(raw.mHost) && Truthy(raw.mDb) && Truthy(raw.mCollection)
    && Truthy(raw.eHost) && Truthy(raw.eIndex) && Truthy(raw.eType)
    && (Truthy(raw.eDocId) || Truthy(raw.eUpdateKey))
  }

  /** The write strategy: insert under `e_doc_id`, or update by `e_update_key`,
      directly when its flag says the key is the index id, else by lookup. */
  datatype WriteMode =
    | Insert(docIdKey: string)
    | DirectUpdate(key: string)
    | LookupUpdate(key: string)

  datatype Settings = Settings(
    limit: int,
    fields: Option<seq<string>>,
    query: Option<Query>,
    skipId: Option<nat>,
    hook: Hook,
    index: string,
    docType: string,
    mode: WriteMode)

  datatype Config = Configured(settings: Settings) | MandatoryMissing

  /** `String.prototype.split(',')`. */
  function Split(s: string): (parts: seq<string>)
    ensures |parts| >= 1
    ensures forall i :: 0 <= i < |parts| ==> ',' !in parts[i]
  {
    if s == [] then [""]
    else
      var rest := Split(s[1..]);
      if s[0] == ',' then [""] + rest
      else [[s[0]] + rest[0]] + rest[1..]
  }

  /** `Array.prototype.join(',')`. */
  function Join(parts: seq<string>): string
    requires |parts| >= 1
  {
    if |parts| == 1 then parts[0] else parts[0] + "," + Join(parts[1..])
  }

  /** Splitting loses nothing: joining the parts back gives the input. */
  lemma {:induction false} SplitJoin(s: string)
    ensures Join(Split(s)) == s
  {
    if s != [] {
      var rest := Split(s[1..]);
      SplitJoin(s[1..]);
      if s[0] != ',' {
        var parts := Split(s);
        assert parts[0] == [s[0]] + rest[0];
        if |rest| == 1 {
          assert parts == [[s[0]] + rest[0]];
        } else {
          assert parts[1..] == rest[1..];
          assert Join(rest) == rest[0] + "," + Join(rest[1..]);
        }
      } else {
        assert Split(s)[1..] == rest;
      }
    }
  }

  /** A prefix without a comma is the first part, and splitting continues after the comma. */
  lemma {:induction false} SplitAfterComma(a: string, b: string)
    requires ',' !in a
    ensures Split(a + "," + b) == [a] + Split(b)
  {
    if a != [] {
      assert (a + "," + b)[1..] == a[1..] + "," + b;
      SplitAfterComma(a[1..], b);
      assert [a[0]] + a[1..] == a;
    } else {
      assert (a + "," + b)[1..] == b;
    }
  }

  /** A string without a comma splits into itself alone. */
  lemma {:induction false} SplitNoComma(a: string)
    requires ',' !in a
    ensures Split(a) == [a]
  {
    if a != [] {
      SplitNoComma(a[1..]);
      assert [a[0]] + a[1..] == a;
    }
  }

  /** Joining comma-free parts and splitting again gives the parts back. */
  lemma {:induction false} JoinSplit(parts: seq<string>)
    requires |parts| >= 1
    requires forall i :: 0 <= i < |parts| ==> ',' !in parts[i]
    ensures Split(Join(parts)) == parts
  {
    if |parts| == 1 {
      SplitNoComma(parts[0]);
    } else {
      JoinSplit(parts[1..]);
      SplitAfterComma(parts[0], Join(parts[1..]));
    }
  }

  /** The first part is the longest comma-free prefix of the input. */
  lemma {:induction false} SplitHead(s: string)
    ensures |Split(s)[0]| <= |s| && Split(s)[0] == s[..|Split(s)[0]|]
    ensures |Split(s)[0]| == |s| || s[|Split(s)[0]|] == ','
  {
    if s != [] && s[0] != ',' {
      SplitHead(s[1..]);
    }
  }

  datatype UpdateKey = UpdateKey(field: string, isId: bool)

  /** `e_update_key` after `split(',')` and the `=== 'true'` test on its second part. */
  function ParseUpdateKey(k: string): (u: UpdateKey)
    ensures ',' !in u.field && |u.field| <= |k| && k[..|u.field|] == u.field
    ensures u.isId ==> |u.field| < |k| && k[|u.field|] == ','
  {
    var parts := Split(k);
    SplitHead(k);
    assert |parts[0]| == |k| ==> |parts| == 1 by {
      if |parts[0]| == |k| {
        assert k == parts[0];
        SplitNoComma(k);
      }
    }
    UpdateKey(parts[0], |parts| > 1 && parts[1] == "true")
  }

  /** `b` reads `true` up to its first comma. */
  predicate StartsTrue(b: string)
  {
    b == "true" || (|b| >= 5 && b[..5] == "true,")
  }

  lemma HeadIsTrue(b: string)
    ensures Split(b)[0] == "true" <==> StartsTrue(b)
  {
    SplitHead(b);
    var h := Split(b)[0];
    if StartsTrue(b) && b != "true" {
      assert b[4] == ',';
    }
  }

  /** The field is the text before the first comma, and the direct-key flag
      is set exactly when the text after that comma reads `true` up to the
      next comma. */
  lemma UpdateKeyMeaning(k: string)
    ensures var f := ParseUpdateKey(k).field;
      && ',' !in f && |f| <= |k| && k[..|f|] == f
      && (|f| < |k| ==> k[|f|] == ',')
      && (ParseUpdateKey(k).isId <==> |f| < |k| && StartsTrue(k[|f| + 1..]))
  {
    SplitHead(k);
    var f := Split(k)[0];
    if |f| < |k| {
      var b := k[|f| + 1..];
      assert k == f + "," + b;
      SplitAfterComma(f, b);
      HeadIsTrue(b);
    } else {
      assert k == f;
      SplitNoComma(k);
    }
  }

  /** The mandatory-option check, then parse_options. */
  function Configure(raw: RawOptions): (c: Config)
    ensures c.MandatoryMissing? <==> !MandatoryPresent(raw)
  {
    if !MandatoryPresent(raw) then MandatoryMissing
    else
      var mode :=
        if Truthy(raw.eUpdateKey) then
          var k := ParseUpdateKey(raw.eUpdateKey.value);
          if k.isId then DirectUpdate(k.field) else LookupUpdate(k.field)
        else Insert(raw.eDocId.value);
      Configured(Settings(
        if raw.mLimit.Some? && raw.mLimit.value != 0 then raw.mLimit.value else 100,
        if Truthy(raw.mFields) then Some(Split(raw.mFields.value)) else None,
        raw.mQuery,
        raw.mSkipId,
        if raw.mTransform.Some? then raw.mTransform.value else Identity,
        raw.eIndex.value,
        raw.eType.value,
        mode))
  }

  /** What a run is configured with, read back against the raw options. */
  lemma ConfigureMeaning(raw: RawOptions)
    requires MandatoryPresent(raw)
    ensures var s := Configure(raw).settings;
      && s.limit != 0
      && (raw.mLimit.None? || raw.mLimit.value == 0 ==> s.limit == 100)
      && (raw.mLimit.Some? && raw.mLimit.value != 0 ==> s.limit == raw.mLimit.value)
      && (s.fields.Some? <==> Truthy(raw.mFields))
      && (s.fields.Some? ==> Join(s.fields.value) == raw.mFields.value)
      && (s.mode.Insert? <==> !Truthy(raw.eUpdateKey))
      && (s.mode.Insert? ==> s.mode.docIdKey == raw.eDocId.value && s.mode.docIdKey != "")
      && (s.mode.DirectUpdate? ==> ParseUpdateKey(raw.eUpdateKey.value) == UpdateKey(s.mode.key, true))
      && (s.mode.LookupUpdate? ==> ParseUpdateKey(raw.eUpdateKey.value) == UpdateKey(s.mode.key, false))
  {
    if Truthy(raw.mFields) {
      SplitJoin(raw.mFields.value);
    }
  }
}
