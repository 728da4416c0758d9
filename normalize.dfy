/**
 * `_normalizeRecordsAndFields` of src/model.js: what a backend hands over as
 * records and fields, either of which may be missing, an array of rows or
 * an array of objects, is turned into fields that are objects with an `id`
 * and records that are objects keyed by those ids.  Three steps run one
 * after the other: the fields are read off the records when none are given
 * (a header row, or the keys of the first record), headings that are not
 * objects are renamed into unique ids, and rows given as arrays are zipped
 * with the fields.
 */
module Normalize {
  import opened Wrappers
  import opened JsonValue
  import opened JsSemantics
  import opened Headings

  /** The `{fields, records}` the function returns. */
  datatype Normalized = Normalized(fields: Json, records: Json)

  /** A value that is truthy and whose `length` is above zero. */
  predicate NonEmpty(v: Json)
  {
    Truthy(v) && GreaterThanZero(Get(v, "length"))
  }

  /** A field for each id: `{id: id}`. */
  function IdFields(ids: seq<string>): (fs: seq<Json>)
    ensures |fs| == |ids|
  {
    seq(|ids|, i requires 0 <= i < |ids| => JObj([("id", JStr(ids[i]))]))
  }

  // ---------------------------------------------------------------- the three steps

  /**
   * Without fields, a non-empty set of records gives them: a first record
   * that is an array is the header row and the records are the rows after
   * it (an array-like object has no `slice` and throws); otherwise the keys
   * of the first record are the ids.
   */
  function Headers(records: Json, fields: Json): (r: Option<Normalized>)
    ensures Truthy(fields) ==> r == Some(Normalized(fields, records))
    ensures r.None? ==> !records.JArr?
    ensures r.Some? && r.value.records != records ==> records.JArr? && |records.items| > 0 && r.value.records == JArr(records.items[1..])
  {
    if !Truthy(fields) && NonEmpty(records) then
      var first := Get(records, "0");
      if first.JArr? then
        if records.JArr? && |records.items| > 0 then Some(Normalized(first, JArr(records.items[1..])))
        else None
      else Some(Normalized(JArr(IdFields(KeysOf(first))), records))
    else Some(Normalized(fields, records))
  }

  /** Fields whose first element is null or not an object: a row of headings. */
  predicate IsHeadingRow(fields: Json)
  {
    NonEmpty(fields) && !IsObject(Get(fields, "0"))
  }

  /**
   * Fields whose first element is null or not an object are headings: each
   * is renamed into a unique id and becomes `{id: id}`; an undefined heading
   * has no `toString` and throws.
   */
  function HeadingFields(fields: Json): (r: Option<Json>)
    ensures !IsHeadingRow(fields) ==> r == Some(fields)
    ensures r.Some? && IsHeadingRow(fields) ==> r.value.JArr? && |r.value.items| == |Values(fields)|
  {
    if IsHeadingRow(fields) then
      var (ids, _) :- NameAllUnique(Values(fields));
      Some(JArr(IdFields(ids)))
    else Some(fields)
  }

  /**
   * `_.each(fields, ...)` over one row: `tmp[field.id] = doc[idx]` for each
   * (index, field), in order; reading from an undefined or null field or
   * row throws.
   */
  function Zipped(doc: Json, es: seq<(Json, Json)>): Option<Members>
    decreases |es|
  {
    if |es| == 0 then Some([])
    else
      var tmp :- Zipped(doc, es[..|es| - 1]);
      var (idx, field) := es[|es| - 1];
      if !Readable(field) || !Readable(doc) then None
      else Some(Put(tmp, PropKey(Get(field, "id")), Get(doc, PropKey(idx))))
  }

  /** One row zipped into a record. */
  function ZipRecord(doc: Json, fields: Json): Option<Json>
  {
    var m :- Zipped(doc, Entries(fields));
    Some(JObj(m))
  }

  /** The callback of `_.map(records, ...)`. */
  function ZipOne(fields: Json): Json -> Option<Json>
  {
    (doc: Json) => ZipRecord(doc, fields)
  }

  /** Records whose first element is an array are zipped row by row with the fields. */
  function Zip(records: Json, fields: Json): (r: Option<Json>)
    ensures !(NonEmpty(records) && Get(records, "0").JArr?) ==> r == Some(records)
    ensures r.Some? && NonEmpty(records) && Get(records, "0").JArr? ==> r.value.JArr? && |r.value.items| == |Values(records)|
  {
    if NonEmpty(records) && Get(records, "0").JArr? then
      var rows :- Traverse(Values(records), ZipOne(fields));
      Some(JArr(rows))
    else Some(records)
  }

  /** The three steps in turn; `None` where one of them throws. */
  function NormalizeRecordsAndFields(records: Json, fields: Json): (r: Option<Normalized>)
    ensures Headers(records, fields).None? ==> r.None?
    ensures r.Some? && !IsHeadingRow(Headers(records, fields).value.fields) ==> r.value.fields == Headers(records, fields).value.fields
  {
    var h :- Headers(records, fields);
    var fs :- HeadingFields(h.fields);
    var rs :- Zip(h.records, fs);
    Some(Normalized(fs, rs))
  }

  // ---------------------------------------------------------------- what the steps do

  /** The record a row gives under the ids: the `i`-th id names the row's `i`-th element. */
  function Row(doc: Json, ids: seq<string>): (m: Members)
    ensures Keys(m) == ids
  {
    seq(|ids|, j requires 0 <= j < |ids| => (ids[j], Get(doc, NatToString(j))))
  }

  /** Every row zipped under the ids. */
  function Rows(docs: seq<Json>, ids: seq<string>): (rs: seq<Json>)
    ensures |rs| == |docs|
  {
    seq(|docs|, i requires 0 <= i < |docs| => JObj(Row(docs[i], ids)))
  }

  /** A non-empty array is non-empty, and its element 0 is its first element. */
  lemma ArrayFacts(items: seq<Json>)
    ensures NonEmpty(JArr(items)) <==> |items| > 0
    ensures |items| > 0 ==> Get(JArr(items), "0") == items[0]
  {
    assert ArrayIndex("0") == Some(0);
  }

  /** Reading index `j` of an array: its element, or undefined past the end. */
  lemma ArrayAt(items: seq<Json>, j: nat)
    ensures Get(JArr(items), NatToString(j)) == if j < |items| then items[j] else JUndef
  {
    NatToStringIndex(j);
    assert NatToString(j) != "length" by {
      assert IsDecimalDigit(NatToString(j)[0]);
    }
  }

  /** The `id` of a field built from an id is that id. */
  lemma IdFieldId(ids: seq<string>, i: nat)
    requires i < |ids|
    ensures Entries(JArr(IdFields(ids)))[i] == (JNum(i), IdFields(ids)[i])
    ensures Readable(IdFields(ids)[i]) && Get(IdFields(ids)[i], "id") == JStr(ids[i])
  {
  }

  /** `_.each` over one more field. */
  lemma ZippedLast(doc: Json, es: seq<(Json, Json)>, n: nat)
    requires 0 < n <= |es|
    ensures Zipped(doc, es[..n])
         == match Zipped(doc, es[..n - 1])
            case None => None
            case Some(tmp) =>
              if !Readable(es[n - 1].1) || !Readable(doc) then None
              else Some(Put(tmp, PropKey(Get(es[n - 1].1, "id")), Get(doc, PropKey(es[n - 1].0))))
  {
    assert es[..n][..n - 1] == es[..n - 1];
  }

  /** One more field zipped: its id, not yet in the record, is appended with the row's element. */
  lemma ZippedStep(doc: Json, ids: seq<string>, n: nat)
    requires Readable(doc) && Distinct(ids) && 0 < n <= |ids|
    requires Zipped(doc, Entries(JArr(IdFields(ids)))[..n - 1]) == Some(Row(doc, ids[..n - 1]))
    ensures Zipped(doc, Entries(JArr(IdFields(ids)))[..n]) == Some(Row(doc, ids[..n]))
  {
    var es := Entries(JArr(IdFields(ids)));
    ZippedLast(doc, es, n);
    IdFieldId(ids, n - 1);
    var tmp := Row(doc, ids[..n - 1]);
    var v := Get(doc, NatToString(n - 1));
    assert PropKey(JNum(n - 1)) == NatToString(n - 1);
    assert PropKey(JStr(ids[n - 1])) == ids[n - 1];
    assert ids[n - 1] !in Keys(tmp) by {
      assert Keys(tmp) == ids[..n - 1];
    }
    PutNew(tmp, ids[n - 1], v);
    RowSnoc(doc, ids, n);
  }

  lemma RowSnoc(doc: Json, ids: seq<string>, n: nat)
    requires 0 < n <= |ids|
    ensures Row(doc, ids[..n]) == Row(doc, ids[..n - 1]) + [(ids[n - 1], Get(doc, NatToString(n - 1)))]
  {
    var a := Row(doc, ids[..n]);
    var b := Row(doc, ids[..n - 1]) + [(ids[n - 1], Get(doc, NatToString(n - 1)))];
    assert |a| == |b|;
    forall j | 0 <= j < |a| ensures a[j] == b[j] {
      if j < n - 1 {
        assert ids[..n][j] == ids[..n - 1][j];
      }
    }
  }

  /** The first `n` fields zipped over a readable row give the record of the first `n` ids. */
  lemma {:induction false} ZippedRow(doc: Json, ids: seq<string>, n: nat)
    requires Readable(doc) && Distinct(ids) && n <= |ids|
    ensures Zipped(doc, Entries(JArr(IdFields(ids)))[..n]) == Some(Row(doc, ids[..n]))
    decreases n
  {
    if n > 0 {
      ZippedRow(doc, ids, n - 1);
      ZippedStep(doc, ids, n);
    }
  }

  /** A readable row zipped with fields of distinct ids is the record `Row` describes. */
  lemma ZipRecordSpec(doc: Json, ids: seq<string>)
    requires Readable(doc) && Distinct(ids)
    ensures ZipRecord(doc, JArr(IdFields(ids))) == Some(JObj(Row(doc, ids)))
  {
    var es := Entries(JArr(IdFields(ids)));
    ZippedRow(doc, ids, |ids|);
    assert es[..|ids|] == es;
    assert ids[..|ids|] == ids;
  }

  /** Under distinct ids, the `j`-th id of a zipped row reads its `j`-th element, undefined where the row is short. */
  lemma RowAt(items: seq<Json>, ids: seq<string>, j: nat)
    requires Distinct(ids) && j < |ids|
    ensures Lookup(Row(JArr(items), ids), ids[j]) == if j < |items| then items[j] else JUndef
  {
    var m := Row(JArr(items), ids);
    assert UniqueKeys(m) by {
      assert forall a, b :: 0 <= a < b < |m| ==> m[a].0 == ids[a] && m[b].0 == ids[b];
    }
    LookupAt(m, j);
    ArrayAt(items, j);
  }

  /** Records that start with an array row are mapped row by row. */
  lemma ZipUnfold(docs: seq<Json>, fields: Json)
    requires |docs| > 0 && docs[0].JArr?
    ensures Zip(JArr(docs), fields) == (match Traverse(docs, ZipOne(fields))
                                         case Some(rows) => Some(JArr(rows))
                                         case None => None)
  {
    ArrayFacts(docs);
    ValuesOfArray(docs);
  }

  /** Every row that is an array zips into its record. */
  lemma ZippedRows(docs: seq<Json>, ids: seq<string>)
    requires Distinct(ids) && forall i :: 0 <= i < |docs| ==> docs[i].JArr?
    ensures Traverse(docs, ZipOne(JArr(IdFields(ids)))) == Some(Rows(docs, ids))
  {
    var f := ZipOne(JArr(IdFields(ids)));
    forall i | 0 <= i < |docs| ensures f(docs[i]) == Some(JObj(Row(docs[i], ids))) {
      ZipRecordSpec(docs[i], ids);
    }
    TraverseContents(docs, f);
    assert Traverse(docs, f).Some?;
    var r := Traverse(docs, f).value;
    forall i | 0 <= i < |docs| ensures r[i] == Rows(docs, ids)[i] {
      assert r[i] == f(docs[i]).value;
    }
    assert r == Rows(docs, ids);
  }

  /** Rows that are arrays, zipped with fields of distinct ids, give one record per row. */
  lemma ZipRowsSpec(docs: seq<Json>, ids: seq<string>)
    requires Distinct(ids) && forall i :: 0 <= i < |docs| ==> docs[i].JArr?
    ensures Zip(JArr(docs), JArr(IdFields(ids))) == Some(JArr(Rows(docs, ids)))
  {
    if |docs| > 0 {
      ZipUnfold(docs, JArr(IdFields(ids)));
      ZippedRows(docs, ids);
    } else {
      ArrayFacts(docs);
      assert Rows(docs, ids) == docs;
    }
  }

  /** Headings that are not objects become `{id: ...}` fields with the ids the renaming hands out. */
  lemma HeadingsRenamed(hs: seq<Json>)
    requires |hs| > 0 && !IsObject(hs[0]) && forall i :: 0 <= i < |hs| ==> !hs[i].JUndef?
    ensures NameAllUnique(hs).Some?
    ensures HeadingFields(JArr(hs)) == Some(JArr(IdFields(NameAllUnique(hs).value.0)))
  {
    NameAllUniqueDefined(hs);
    ArrayFacts(hs);
    ValuesOfArray(hs);
  }

  /** One undefined heading makes the renaming throw. */
  lemma UndefinedHeadingThrows(hs: seq<Json>, i: nat)
    requires i < |hs| && hs[i].JUndef? && !IsObject(hs[0])
    ensures HeadingFields(JArr(hs)) == None
  {
    NameAllUniqueDefined(hs);
    ArrayFacts(hs);
    ValuesOfArray(hs);
  }

  /** A header row read off the records: it is the fields, and the rows after it are the records. */
  lemma HeaderRowTaken(header: seq<Json>, rows: seq<Json>, fields: Json)
    requires !Truthy(fields)
    ensures Headers(JArr([JArr(header)] + rows), fields) == Some(Normalized(JArr(header), JArr(rows)))
  {
    ArrayFacts([JArr(header)] + rows);
    assert ([JArr(header)] + rows)[1..] == rows;
  }

  // ---------------------------------------------------------------- the whole function

  /**
   * Headings given as fields, with rows that are arrays: the fields become
   * one `{id: ...}` per heading, with distinct ids, and each row becomes the
   * record mapping the `j`-th id to the row's `j`-th element (undefined
   * where the row is short).
   */
  lemma HeadingsAndRows(hs: seq<Json>, docs: seq<Json>)
    requires |hs| > 0 && !IsObject(hs[0]) && forall i :: 0 <= i < |hs| ==> !hs[i].JUndef?
    requires forall i :: 0 <= i < |docs| ==> docs[i].JArr?
    ensures NameAllUnique(hs).Some?
    ensures var ids := NameAllUnique(hs).value.0;
      && |ids| == |hs| && Distinct(ids)
      && NormalizeRecordsAndFields(JArr(docs), JArr(hs)) == Some(Normalized(JArr(IdFields(ids)), JArr(Rows(docs, ids))))
  {
    HeadingsRenamed(hs);
    NameAllUniqueDistinct(hs);
    ZipRowsSpec(docs, NameAllUnique(hs).value.0);
  }

  /**
   * Without fields, records whose first row is an array: that row is the
   * header, renamed into distinct ids, and the rows after it are the
   * records, zipped with the ids.
   */
  lemma HeaderRowSpec(header: seq<Json>, rows: seq<Json>, fields: Json)
    requires !Truthy(fields)
    requires |header| > 0 && !IsObject(header[0]) && forall i :: 0 <= i < |header| ==> !header[i].JUndef?
    requires forall i :: 0 <= i < |rows| ==> rows[i].JArr?
    ensures NameAllUnique(header).Some?
    ensures var ids := NameAllUnique(header).value.0;
      && |ids| == |header| && Distinct(ids)
      && NormalizeRecordsAndFields(JArr([JArr(header)] + rows), fields)
         == Some(Normalized(JArr(IdFields(ids)), JArr(Rows(rows, ids))))
  {
    HeaderRowTaken(header, rows, fields);
    HeadingsRenamed(header);
    NameAllUniqueDistinct(header);
    ZipRowsSpec(rows, NameAllUnique(header).value.0);
  }

  /** In a zipped record, the `j`-th heading's id reads the row's `j`-th element. */
  lemma HeaderRowRecordAt(header: seq<Json>, rows: seq<Json>, i: nat, j: nat)
    requires |header| > 0 && !IsObject(header[0]) && forall k :: 0 <= k < |header| ==> !header[k].JUndef?
    requires forall k :: 0 <= k < |rows| ==> rows[k].JArr?
    requires i < |rows| && j < |header|
    ensures NameAllUnique(header).Some? && |NameAllUnique(header).value.0| == |header|
    ensures var ids := NameAllUnique(header).value.0;
      Get(Rows(rows, ids)[i], ids[j]) == if j < |rows[i].items| then rows[i].items[j] else JUndef
  {
    NameAllUniqueDefined(header);
    NameAllUniqueDistinct(header);
    var ids := NameAllUnique(header).value.0;
    RecordAt(rows, ids, i, j);
  }

  lemma RecordAt(rows: seq<Json>, ids: seq<string>, i: nat, j: nat)
    requires Distinct(ids) && i < |rows| && j < |ids| && rows[i].JArr?
    ensures Get(Rows(rows, ids)[i], ids[j]) == if j < |rows[i].items| then rows[i].items[j] else JUndef
  {
    assert Rows(rows, ids)[i] == JObj(Row(JArr(rows[i].items), ids));
    RowAt(rows[i].items, ids, j);
  }

  /**
   * Without fields, records whose first record is an object: the fields are
   * that record's keys, in order, and the records are returned as given.
   */
  lemma ObjectRecordsSpec(records: seq<Json>, fields: Json)
    requires !Truthy(fields) && |records| > 0 && records[0].JObj?
    ensures NormalizeRecordsAndFields(JArr(records), fields)
         == Some(Normalized(JArr(IdFields(Keys(records[0].members))), JArr(records)))
  {
    ArrayFacts(records);
    var fs := IdFields(Keys(records[0].members));
    ArrayFacts(fs);
  }

  /** Fields given as `{id: ...}` objects with distinct ids are kept, and rows that are arrays are zipped with them. */
  lemma ObjectFieldsSpec(ids: seq<string>, docs: seq<Json>)
    requires Distinct(ids) && forall i :: 0 <= i < |docs| ==> docs[i].JArr?
    ensures NormalizeRecordsAndFields(JArr(docs), JArr(IdFields(ids)))
         == Some(Normalized(JArr(IdFields(ids)), JArr(Rows(docs, ids))))
  {
    ArrayFacts(IdFields(ids));
    ZipRowsSpec(docs, ids);
  }

  /** Fields that are objects and records that are not rows are returned as given. */
  lemma ObjectsKept(fs: seq<Json>, records: seq<Json>)
    requires |fs| == 0 || IsObject(fs[0])
    requires |records| == 0 || !records[0].JArr?
    ensures NormalizeRecordsAndFields(JArr(records), JArr(fs)) == Some(Normalized(JArr(fs), JArr(records)))
  {
    ArrayFacts(fs);
    ArrayFacts(records);
  }

  /** An array-like object of rows has no `slice`: reading the header row off it throws. */
  lemma ArrayLikeRowsThrow(m: Members, fields: Json)
    requires !Truthy(fields) && NonEmpty(JObj(m)) && Lookup(m, "0").JArr?
    ensures NormalizeRecordsAndFields(JObj(m), fields) == None
  {
  }

  /** An undefined heading makes the whole function throw. */
  lemma UndefinedHeadingFails(hs: seq<Json>, docs: seq<Json>, i: nat)
    requires i < |hs| && hs[i].JUndef? && !IsObject(hs[0])
    ensures NormalizeRecordsAndFields(JArr(docs), JArr(hs)) == None
  {
    UndefinedHeadingThrows(hs, i);
  }

  /** A row that is undefined or null, among rows that start with an array, throws once there is a field. */
  lemma UnreadableRowFails(ids: seq<string>, docs: seq<Json>, k: nat)
    requires |ids| > 0 && Distinct(ids) && |docs| > 0 && docs[0].JArr?
    requires k < |docs| && !Readable(docs[k])
    ensures NormalizeRecordsAndFields(JArr(docs), JArr(IdFields(ids))) == None
  {
    ArrayFacts(IdFields(ids));
    ZipUnfold(docs, JArr(IdFields(ids)));
    var f := ZipOne(JArr(IdFields(ids)));
    var es := Entries(JArr(IdFields(ids)));
    ZippedLast(docs[k], es, 1);
    assert f(docs[k]).None? by {
      ZippedFails(docs[k], es, 1);
    }
    TraverseContents(docs, f);
  }

  /** Once a prefix of the fields has thrown, the whole row throws. */
  lemma {:induction false} ZippedFails(doc: Json, es: seq<(Json, Json)>, n: nat)
    requires n <= |es| && Zipped(doc, es[..n]).None?
    ensures Zipped(doc, es).None?
    decreases |es| - n
  {
    if n < |es| {
      ZippedLast(doc, es, n + 1);
      ZippedFails(doc, es, n + 1);
    } else {
      assert es[..n] == es;
    }
  }

  // ---------------------------------------------------------------- as the loops run it

  /** `_.each(fields, ...)` over one row, filling `tmp`. */
  method ZipRow(doc: Json, fields: Json) returns (r: Option<Json>)
    ensures r == ZipRecord(doc, fields)
  {
    var es := Entries(fields);
    var tmp: Members := [];
    var i := 0;
    while i < |es|
      invariant 0 <= i <= |es|
      invariant Zipped(doc, es[..i]) == Some(tmp)
    {
      var idx, field := es[i].0, es[i].1;
      ZippedLast(doc, es, i + 1);
      if !Readable(field) || !Readable(doc) {
        assert Zipped(doc, es[..i + 1]).None?;
        ZippedFails(doc, es, i + 1);
        return None;
      }
      var next := Put(tmp, PropKey(Get(field, "id")), Get(doc, PropKey(idx)));
      assert Zipped(doc, es[..i + 1]) == Some(next);
      tmp := next;
      i := i + 1;
    }
    assert es[..i] == es;
    return Some(JObj(tmp));
  }

  lemma ZipMapped(records: Json, fields: Json, rows: seq<Json>)
    requires NonEmpty(records) && Get(records, "0").JArr?
    requires Traverse(Values(records), ZipOne(fields)) == Some(rows)
    ensures Zip(records, fields) == Some(JArr(rows))
  {
  }

  /** `_.map(records, ...)` when the records are rows. */
  method ZipRecords(records: Json, fields: Json) returns (r: Option<Json>)
    ensures r == Zip(records, fields)
  {
    if !(NonEmpty(records) && Get(records, "0").JArr?) {
      return Some(records);
    }
    var docs := Values(records);
    var rows: seq<Json> := [];
    var i := 0;
    while i < |docs|
      invariant 0 <= i <= |docs|
      invariant Traverse(docs[..i], ZipOne(fields)) == Some(rows)
    {
      TraverseStep(docs, ZipOne(fields), i);
      var row := ZipRow(docs[i], fields);
      assert ZipOne(fields)(docs[i]) == row;
      if row.None? {
        TraverseFailsFrom(docs, ZipOne(fields), i + 1);
        return None;
      }
      assert Traverse(docs[..i + 1], ZipOne(fields)) == Some(rows + [row.value]);
      rows := rows + [row.value];
      i := i + 1;
    }
    assert docs[..i] == docs;
    ZipMapped(records, fields, rows);
    return Some(JArr(rows));
  }

  /** `_normalizeRecordsAndFields` step by step. */
  method NormalizeRecords(records: Json, fields: Json) returns (r: Option<Normalized>)
    ensures r == NormalizeRecordsAndFields(records, fields)
  {
    var h := Headers(records, fields);
    if h.None? {
      return None;
    }
    var fs := FieldsFromHeadings(h.value.fields);
    if fs.None? {
      return None;
    }
    var rs := ZipRecords(h.value.records, fs.value);
    if rs.None? {
      return None;
    }
    return Some(Normalized(fs.value, rs.value));
  }

  /** The renaming step: a row of headings becomes `{id}` fields, any other fields stay. */
  method FieldsFromHeadings(fields: Json) returns (r: Option<Json>)
    ensures r == HeadingFields(fields)
  {
    if NonEmpty(fields) && !IsObject(Get(fields, "0")) {
      var named := NameHeadingsUnique(Values(fields));
      if named.None? {
        return None;
      }
      return Some(JArr(IdFields(named.value.0)));
    }
    return Some(fields);
  }

  // ---------------------------------------------------------------- as written

  /** What the function as written comes to: its result, a TypeError, or a loop that never ends. */
  datatype Run = Ran(result: Normalized) | Threw | Loops

  /** The zip step, and the result it completes. */
  function ZipRun(fields: Json, records: Json): Run
  {
    match Zip(records, fields)
    case None => Threw
    case Some(rs) => Ran(Normalized(fields, rs))
  }

  /**
   * `_normalizeRecordsAndFields` with the renaming as written: the ids of a
   * row of headings are the ones `Headings.NameAll` hands out, which can
   * repeat, and the suffix search can loop.
   */
  function NormalizeAsWritten(records: Json, fields: Json): (r: Run)
    ensures Headers(records, fields).None? ==> r.Threw?
    ensures r.Loops? ==> Headers(records, fields).Some? && IsHeadingRow(Headers(records, fields).value.fields)
    ensures r.Ran? && IsHeadingRow(Headers(records, fields).value.fields) ==>
      r.result.fields.JArr? && |r.result.fields.items| == |Values(Headers(records, fields).value.fields)|
    ensures r.Ran? && !IsHeadingRow(Headers(records, fields).value.fields) ==>
      r.result.fields == Headers(records, fields).value.fields
  {
    match Headers(records, fields)
    case None => Threw
    case Some(h) =>
      if IsHeadingRow(h.fields) then
        match NameAll(Values(h.fields))
        case Throws => Threw
        case Diverges => Loops
        case Named(ids, _) => ZipRun(JArr(IdFields(ids)), h.records)
      else ZipRun(h.fields, h.records)
  }

  /** A result of the corrected function, as a run. */
  function AsRun(r: Option<Normalized>): Run
  {
    match r
    case None => Threw
    case Some(n) => Ran(n)
  }

  /** Where no row of headings is renamed, the function as written and the corrected one agree. */
  lemma AsWrittenWithoutHeadings(records: Json, fields: Json)
    requires Headers(records, fields).Some? ==> !IsHeadingRow(Headers(records, fields).value.fields)
    ensures NormalizeAsWritten(records, fields) == AsRun(NormalizeRecordsAndFields(records, fields))
  {
  }

  /** Where the renaming as written hands out the corrected ids, the two functions agree. */
  lemma AsWrittenSameIds(records: Json, fields: Json)
    requires Headers(records, fields).Some? && IsHeadingRow(Headers(records, fields).value.fields)
    requires var hs := Values(Headers(records, fields).value.fields);
      NameAll(hs).Named? && NameAllUnique(hs).Some? && NameAll(hs).ids == NameAllUnique(hs).value.0
    ensures NormalizeAsWritten(records, fields) == AsRun(NormalizeRecordsAndFields(records, fields))
  {
  }

  /** The header row `x, x, x1`, as written: the ids `x, x1, x1`, the last two the same. */
  lemma HeaderDuplicatesAsWritten(x: string)
    requires Plain(x)
    ensures var r := NormalizeAsWritten(JArr([JArr([JStr(x), JStr(x), JStr(x + "1")])]), JUndef);
      && r.Ran?
      && r.result.fields == JArr(IdFields([x, x + "1", x + "1"]))
      && r.result.records == JArr([])
  {
    var hs := [JStr(x), JStr(x), JStr(x + "1")];
    HeaderRowTaken(hs, [], JUndef);
    assert [JArr(hs)] + [] == [JArr(hs)];
    ArrayFacts(hs);
    ValuesOfArray(hs);
    assert IsHeadingRow(JArr(hs));
    SuffixCollides(x);
    var ids := [x, x + "1", x + "1"];
    assert NormalizeAsWritten(JArr([JArr(hs)]), JUndef) == ZipRun(JArr(IdFields(ids)), JArr([]));
    ArrayFacts([]);
  }

  /** The header row `x, x, x1`, corrected: the ids `x, x1, x11`, all distinct. */
  lemma HeaderCollisionAvoided(x: string)
    requires Plain(x)
    ensures NormalizeRecordsAndFields(JArr([JArr([JStr(x), JStr(x), JStr(x + "1")])]), JUndef)
         == Some(Normalized(JArr(IdFields([x, x + "1", x + "1" + "1"])), JArr([])))
  {
    var hs := [JStr(x), JStr(x), JStr(x + "1")];
    HeaderRowTaken(hs, [], JUndef);
    assert [JArr(hs)] + [] == [JArr(hs)];
    ArrayFacts(hs);
    ValuesOfArray(hs);
    assert IsHeadingRow(JArr(hs));
    SuffixCollisionAvoided(x);
    var ids := [x, x + "1", x + "1" + "1"];
    assert HeadingFields(JArr(hs)) == Some(JArr(IdFields(ids)));
    ArrayFacts([]);
    assert Zip(JArr([]), JArr(IdFields(ids))) == Some(JArr([]));
  }

  /** The header row `x, " xNaN", " x"`, as written: the function never returns. */
  lemma HeaderLoopsAsWritten(x: string)
    requires Plain(x)
    ensures NormalizeAsWritten(JArr([JArr([JStr(x), JStr(" " + x + "NaN"), JStr(" " + x)])]), JUndef) == Loops
  {
    var hs := [JStr(x), JStr(" " + x + "NaN"), JStr(" " + x)];
    HeaderRowTaken(hs, [], JUndef);
    assert [JArr(hs)] + [] == [JArr(hs)];
    ArrayFacts(hs);
    ValuesOfArray(hs);
    assert IsHeadingRow(JArr(hs));
    NaNLoops(x);
  }
}
