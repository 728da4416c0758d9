/**
 * The search request the Elasticsearch table sends (`ES.Table.query`): the
 * query state copied, its query part replaced by the compiled clause, the
 * client-only keys removed step by step, the sort and the highlight block
 * encoded, and the aggregation spec stripped of `selected` and `_type`
 * (`_normalizeAggregation`), with a `top_docs` aggregation injected for the
 * query type 'all'.  The body on the wire is the JSON copy of that object.
 *
 * `_normalizeAggregation` clones the aggregation container but not its
 * entries, so the caller's entries lose their `selected` and `_type` too; the
 * compiled result carries the caller's aggregation value after the call.
 */
module RequestBody {
  import opened Wrappers
  import opened JsonValue
  import opened JsSemantics
  import SortCodec
  import QueryClause

  // ---------------------------------------------------------------- highlight

  const ForceSource: Json := JObj([("force_source", JBool(true))])

  /** The key a highlight entry stands for: its `field`, as a property name. */
  function FieldKey(h: Json): string
  {
    PropKey(Get(h, "field"))
  }

  function HighlightFields(hs: seq<Json>): (r: Option<Members>)
    ensures r.Some? ==> UniqueKeys(r.value)
    decreases |hs|
  {
    if |hs| == 0 then Some([])
    else
      var acc :- HighlightFields(hs[..|hs| - 1]);
      var h := hs[|hs| - 1];
      if !Readable(h) then None else Some(Put(acc, FieldKey(h), ForceSource))
  }

  /** `_normalizeHighlight(queryObj)`: undefined unless both `q` and `highlights` are truthy. */
  function NormalizeHighlight(queryObj: Json): (r: Option<Json>)
    ensures QueryClause.QueryInfo(queryObj).None? ==> r.None?
    ensures r.Some? && r.value != JUndef ==>
      && Truthy(Lookup(QueryClause.QueryInfo(queryObj).value, "q"))
      && Truthy(Lookup(QueryClause.QueryInfo(queryObj).value, "highlights"))
      && r.value.JObj? && Keys(r.value.members) == ["number_of_fragments", "pre_tags", "post_tags", "fields"]
  {
    var info :- QueryClause.QueryInfo(queryObj);
    if Truthy(Lookup(info, "q")) && Truthy(Lookup(info, "highlights")) then
      var fields :- HighlightFields(Values(Lookup(info, "highlights")));
      Some(HighlightBlock(fields))
    else Some(JUndef)
  }

  /** The highlight block around the fields: no fragments, matches in bold. */
  function HighlightBlock(fields: Members): (h: Json)
    ensures h.JObj? && Keys(h.members) == ["number_of_fragments", "pre_tags", "post_tags", "fields"]
  {
    JObj([("number_of_fragments", JNum(0)), ("pre_tags", JArr([JStr("<b>")])),
          ("post_tags", JArr([JStr("</b>")])), ("fields", JObj(fields))])
  }

  /** Some highlight in `hs` names the field `k`. */
  predicate Highlighted(hs: seq<Json>, k: string)
  {
    exists i :: 0 <= i < |hs| && FieldKey(hs[i]) == k
  }

  /** A field is highlighted in `hs` when it is in all but the last, or is the last. */
  lemma HighlightedSnoc(hs: seq<Json>, k: string)
    requires |hs| > 0
    ensures Highlighted(hs, k) <==> Highlighted(hs[..|hs| - 1], k) || FieldKey(hs[|hs| - 1]) == k
  {
    var init := hs[..|hs| - 1];
    if Highlighted(hs, k) {
      var i :| 0 <= i < |hs| && FieldKey(hs[i]) == k;
      if i < |init| {
        assert init[i] == hs[i];
      }
    }
    if Highlighted(init, k) {
      var i :| 0 <= i < |init| && FieldKey(init[i]) == k;
      assert hs[i] == init[i];
    }
  }

  /** The highlight `fields` hold exactly the highlighted field names, each once. */
  lemma {:induction false} HighlightFieldsKeys(hs: seq<Json>)
    requires HighlightFields(hs).Some?
    ensures forall k :: k in Keys(HighlightFields(hs).value) <==> Highlighted(hs, k)
    decreases |hs|
  {
    if |hs| > 0 {
      var init := hs[..|hs| - 1];
      HighlightFieldsKeys(init);
      var acc := HighlightFields(init).value;
      var r := HighlightFields(hs).value;
      assert r == Put(acc, FieldKey(hs[|hs| - 1]), ForceSource);
      forall k
        ensures k in Keys(r) <==> Highlighted(hs, k)
      {
        HighlightedSnoc(hs, k);
      }
    }
  }

  /** Every highlighted field asks for `{force_source: true}`. */
  lemma {:induction false} HighlightFieldsValues(hs: seq<Json>)
    requires HighlightFields(hs).Some?
    ensures forall k :: k in Keys(HighlightFields(hs).value) ==> Lookup(HighlightFields(hs).value, k) == ForceSource
    decreases |hs|
  {
    if |hs| > 0 {
      var init := hs[..|hs| - 1];
      HighlightFieldsValues(init);
      var acc := HighlightFields(init).value;
      var r := HighlightFields(hs).value;
      assert r == Put(acc, FieldKey(hs[|hs| - 1]), ForceSource);
    }
  }


  // ---------------------------------------------------------------- aggregations

  /** One entry with a truthy `selected` and a truthy `_type` deleted. */
  function StripEntry(entry: Json): (r: Json)
    ensures !Truthy(Get(r, "selected")) && !Truthy(Get(r, "_type"))
    ensures entry.JObj? ==> r.JObj? && forall k :: k != "selected" && k != "_type" ==>
      (k in Keys(r.members) <==> k in Keys(entry.members)) && Lookup(r.members, k) == Lookup(entry.members, k)
    ensures !entry.JObj? ==> r == entry
  {
    if entry.JObj? then
      var m1 := if Truthy(Lookup(entry.members, "selected")) then Remove(entry.members, "selected") else entry.members;
      var m2 := if Truthy(Lookup(m1, "_type")) then Remove(m1, "_type") else m1;
      JObj(m2)
    else entry
  }

  /** Stripping twice is stripping once. */
  lemma StripEntryIdempotent(entry: Json)
    ensures StripEntry(StripEntry(entry)) == StripEntry(entry)
  {
    var r := StripEntry(entry);
    if r.JObj? {
      assert Get(r, "selected") == Lookup(r.members, "selected");
      assert Get(r, "_type") == Lookup(r.members, "_type");
    }
  }

  /**
   * The property names `_.each(aggs, ...)` visits on an object, in order: the
   * indices below `length` when the object is array-like, otherwise its own keys.
   */
  function EachKeys(aggs: Json): (ks: seq<string>)
    requires aggs.JObj?
    ensures |ks| == |Entries(aggs)|
    ensures IsArrayLike(aggs) || UniqueKeys(aggs.members) ==>
      forall i :: 0 <= i < |ks| ==> Lookup(aggs.members, ks[i]) == Entries(aggs)[i].1
  {
    if IsArrayLike(aggs) then
      IndexKeys(Get(aggs, "length").n)
    else
      LookupEveryKey(aggs.members);
      Keys(aggs.members)
  }

  /**
   * The `_.each` callback run for the keys `ks` in turn: `aggs[key].selected`
   * throws on an undefined or null entry, otherwise the entry is stripped in place.
   */
  function StripEach(m: Members, ks: seq<string>): Option<Members>
    decreases |ks|
  {
    if |ks| == 0 then Some(m)
    else
      var m' :- StripEach(m, ks[..|ks| - 1]);
      var k := ks[|ks| - 1];
      if Readable(Lookup(m', k)) then Some(Put(m', k, StripEntry(Lookup(m', k)))) else None
  }

  /**
   * The walk succeeds iff every visited entry is readable; then the keys stay
   * as they were, every visited entry is stripped and every other one is kept.
   */
  lemma {:induction false} StripEachSpec(m: Members, ks: seq<string>)
    ensures StripEach(m, ks).Some? <==> forall k :: k in ks ==> Readable(Lookup(m, k))
    ensures StripEach(m, ks).Some? ==>
      var r := StripEach(m, ks).value;
      && Keys(r) == Keys(m)
      && forall k :: Lookup(r, k) == if k in ks then StripEntry(Lookup(m, k)) else Lookup(m, k)
    decreases |ks|
  {
    if |ks| > 0 {
      var init := ks[..|ks| - 1];
      var k := ks[|ks| - 1];
      assert ks == init + [k];
      StripEachSpec(m, init);
      if StripEach(m, init).Some? {
        var m' := StripEach(m, init).value;
        if k in init {
          StripEntryIdempotent(Lookup(m, k));
        }
        assert Readable(Lookup(m', k)) <==> Readable(Lookup(m, k));
      }
    }
  }

  /**
   * `_normalizeAggregation(aggs)`: `_.each` over the shallow clone visits the
   * entries of an object (by index when it is array-like) or of an array, and
   * strips each in place; reading `.selected` of a null or undefined entry
   * throws.  Any other value is returned as it is.
   */
  function NormalizeAggregationSpec(aggs: Json): (r: Option<Json>)
  {
    match aggs
    case JObj(m) =>
      var stripped :- StripEach(m, EachKeys(aggs));
      Some(JObj(stripped))
    case JArr(items) =>
      if forall i :: 0 <= i < |items| ==> Readable(items[i]) then
        Some(JArr(seq(|items|, i requires 0 <= i < |items| => StripEntry(items[i]))))
      else None
    case _ => Some(aggs)
  }

  /** `_normalizeAggregation` as the library runs it: `_.each` deleting keys entry by entry. */
  method NormalizeAggregation(aggs: Json) returns (r: Option<Json>)
    ensures r == NormalizeAggregationSpec(aggs)
  {
    match aggs {
      case JObj(m) =>
        var stripped := StripObjectEntries(m, EachKeys(aggs));
        if stripped.None? {
          return None;
        }
        return Some(JObj(stripped.value));
      case JArr(items) =>
        r := StripArrayEntries(items);
      case _ =>
        return Some(aggs);
    }
  }

  /** The `_.each` loop over the visited keys of an object, stripping each entry in place. */
  method StripObjectEntries(m: Members, ks: seq<string>) returns (r: Option<Members>)
    ensures r == StripEach(m, ks)
  {
    var entries := m;
    var i := 0;
    while i < |ks|
      invariant 0 <= i <= |ks|
      invariant StripEach(m, ks[..i]) == Some(entries)
    {
      var k := ks[i];
      assert ks[..i + 1][..i] == ks[..i] && ks[..i + 1][i] == k;
      if !Readable(Lookup(entries, k)) {
        StripEachSpec(m, ks[..i]);
        StripEachSpec(m, ks);
        return None;
      }
      entries := Put(entries, k, StripEntry(Lookup(entries, k)));
      i := i + 1;
    }
    assert ks[..i] == ks;
    return Some(entries);
  }

  /** The `_.each` loop over the elements of an array, stripping each in place. */
  method StripArrayEntries(items: seq<Json>) returns (r: Option<Json>)
    ensures r == NormalizeAggregationSpec(JArr(items))
  {
    var entries := items;
    var i := 0;
    while i < |entries|
      invariant 0 <= i <= |entries| == |items|
      invariant forall j :: 0 <= j < i ==> Readable(items[j]) && entries[j] == StripEntry(items[j])
      invariant forall j :: i <= j < |items| ==> entries[j] == items[j]
    {
      if !Readable(entries[i]) {
        return None;
      }
      entries := entries[i := StripEntry(entries[i])];
      i := i + 1;
    }
    assert entries == NormalizeAggregationSpec(JArr(items)).value.items;
    return Some(JArr(entries));
  }

  /**
   * On an aggregation map that is not array-like: it throws iff some entry is
   * undefined or null; otherwise it keeps its keys, in order, no entry keeps a
   * truthy `selected` or `_type`, and every other property of every entry reads as before.
   */
  lemma AggregationsStripped(aggs: Json)
    requires aggs.JObj? && !IsArrayLike(aggs)
    ensures NormalizeAggregationSpec(aggs).Some? <==> forall k :: k in Keys(aggs.members) ==> Readable(Lookup(aggs.members, k))
    ensures NormalizeAggregationSpec(aggs).Some? ==>
      var r := NormalizeAggregationSpec(aggs).value;
      && r.JObj? && Keys(r.members) == Keys(aggs.members)
      && forall k :: k in Keys(aggs.members) ==>
           var entry := Lookup(r.members, k);
           && !Truthy(Get(entry, "selected")) && !Truthy(Get(entry, "_type"))
           && forall k' :: k' != "selected" && k' != "_type" ==> Get(entry, k') == Get(Lookup(aggs.members, k), k')
  {
    var m := aggs.members;
    assert EachKeys(aggs) == Keys(m);
    StripEachSpec(m, Keys(m));
    if NormalizeAggregationSpec(aggs).Some? {
      var r := NormalizeAggregationSpec(aggs).value;
      assert r == JObj(StripEach(m, Keys(m)).value);
      forall k | k in Keys(m)
        ensures var entry := Lookup(r.members, k);
          && !Truthy(Get(entry, "selected")) && !Truthy(Get(entry, "_type"))
          && forall k' :: k' != "selected" && k' != "_type" ==> Get(entry, k') == Get(Lookup(m, k), k')
      {
        assert Lookup(r.members, k) == StripEntry(Lookup(m, k));
        StripEntryReads(Lookup(m, k));
      }
    }
  }

  /** Stripping leaves every property other than `selected` and `_type` reading as before. */
  lemma StripEntryReads(entry: Json)
    ensures forall k :: k != "selected" && k != "_type" ==> Get(StripEntry(entry), k) == Get(entry, k)
  {
  }

  /**
   * On an array-like aggregation map `_.each` visits the indices below
   * `length` only: those entries are stripped, every other member (named
   * keys, `length` itself) is passed on untouched, and a missing index throws.
   */
  lemma ArrayLikeAggregations(aggs: Json)
    requires aggs.JObj? && IsArrayLike(aggs)
    ensures var n := Get(aggs, "length").n;
      && (NormalizeAggregationSpec(aggs).Some? <==> forall i :: 0 <= i < n ==> Readable(Lookup(aggs.members, NatToString(i))))
      && (NormalizeAggregationSpec(aggs).Some? ==>
            var r := NormalizeAggregationSpec(aggs).value;
            && r.JObj? && Keys(r.members) == Keys(aggs.members)
            && forall k :: Lookup(r.members, k) ==
                 if k in EachKeys(aggs) then StripEntry(Lookup(aggs.members, k)) else Lookup(aggs.members, k))
  {
    var n := Get(aggs, "length").n;
    var m := aggs.members;
    assert EachKeys(aggs) == IndexKeys(n);
    StripEachSpec(m, IndexKeys(n));
    IndexKeysReadable(m, n);
  }

  /** The indices `0 .. n - 1` as property names. */
  function IndexKeys(n: nat): (ks: seq<string>)
    ensures |ks| == n && forall i :: 0 <= i < n ==> ks[i] == NatToString(i)
  {
    seq(n, i requires 0 <= i < n => NatToString(i))
  }

  /** Every index key reads as a defined value iff every index below `n` does. */
  lemma IndexKeysReadable(m: Members, n: nat)
    ensures (forall k :: k in IndexKeys(n) ==> Readable(Lookup(m, k)))
        <==> (forall i :: 0 <= i < n ==> Readable(Lookup(m, NatToString(i))))
  {
    var ks := IndexKeys(n);
    if forall i :: 0 <= i < n ==> Readable(Lookup(m, NatToString(i))) {
      forall k | k in ks ensures Readable(Lookup(m, k)) {
        var i :| 0 <= i < n && ks[i] == k;
      }
    } else {
      var i :| 0 <= i < n && !Readable(Lookup(m, NatToString(i)));
      assert ks[i] == NatToString(i) && ks[i] in ks;
      assert !Readable(Lookup(m, ks[i]));
    }
  }

  /** `{length: 0, a: {selected: true}}` is array-like with no index, so `a` keeps its `selected`. */
  lemma ArrayLikeEntryNotStripped()
    ensures var entry := JObj([("selected", JBool(true))]);
      var aggs := JObj([("length", JNum(0)), ("a", entry)]);
      NormalizeAggregationSpec(aggs) == Some(aggs)
  {
    var entry := JObj([("selected", JBool(true))]);
    var aggs := JObj([("length", JNum(0)), ("a", entry)]);
    assert Get(aggs, "length") == JNum(0);
    assert EachKeys(aggs) == [];
  }

  /** `{length: 1}` sends `_.each` to the missing index 0, whose `.selected` throws. */
  lemma ArrayLikeMissingIndexThrows()
    ensures NormalizeAggregationSpec(JObj([("length", JNum(1))])).None?
  {
    var aggs := JObj([("length", JNum(1))]);
    assert Get(aggs, "length") == JNum(1);
    assert EachKeys(aggs) == ["0"];
    assert Lookup(aggs.members, "0") == JUndef;
  }

  /** An entry `{terms: {...}, _type: 'term', selected: {...}}` comes out as `{terms: {...}}`. */
  lemma StripTermEntry(terms: Json, selected: Json)
    requires Truthy(selected)
    ensures StripEntry(JObj([("terms", terms), ("_type", JStr("term")), ("selected", selected)]))
      == JObj([("terms", terms)])
  {
    var m := [("terms", terms), ("_type", JStr("term")), ("selected", selected)];
    assert UniqueKeys(m);
    LookupAt(m, 2);
    assert Remove(m[2..], "selected") == [];
    assert Remove(m[1..], "selected") == [m[1]];
    var m1 := Remove(m, "selected");
    assert m1 == [("terms", terms), ("_type", JStr("term"))];
    LookupAt(m1, 1);
    assert Remove(m1[1..], "_type") == [];
  }

  // ---------------------------------------------------------------- top_docs

  /** The `top_docs` aggregation injected for the query type 'all'. */
  const TopDocs: Json :=
    JObj([("terms", JObj([("field", JStr("_type")), ("order", JObj([("top_hit", JStr("desc"))]))])),
          ("aggs", JObj([("top_tags_hits", JObj([("top_hits", JObj([("size", JNum(10))]))])),
                         ("top_hit", JObj([("max", JObj([("script", JStr("_score")), ("lang", JStr("groovy"))]))]))]))])

  /**
   * `aggs = _.clone(esQuery.aggs); aggs.top_docs = ...`: an existing `top_docs`
   * is overwritten; undefined or null throws; the write to a primitive is lost,
   * and so is the one to an array, whose extra properties JSON never carries.
   */
  function AddTopDocs(aggs: Json): (r: Option<Json>)
    ensures r.None? <==> !Readable(aggs)
  {
    match aggs
    case JObj(m) => Some(JObj(Put(m, "top_docs", TopDocs)))
    case JUndef => None
    case JNull => None
    case _ => Some(aggs)
  }

  /**
   * On an object, `top_docs` is set, overwriting any entry of that name, and
   * every other entry is kept; any other readable value is returned unchanged.
   */
  lemma TopDocsInjected(aggs: Json)
    requires Readable(aggs)
    ensures var r := AddTopDocs(aggs).value;
      && (aggs.JObj? ==>
            && r.JObj? && Lookup(r.members, "top_docs") == TopDocs && "top_docs" in Keys(r.members)
            && forall k :: k != "top_docs" ==>
                 Lookup(r.members, k) == Lookup(aggs.members, k) && (k in Keys(r.members) <==> k in Keys(aggs.members)))
      && (!aggs.JObj? ==> r == aggs)
  {
    if aggs.JObj? {
      var m := aggs.members;
      var put := Put(m, "top_docs", TopDocs);
      assert AddTopDocs(aggs) == Some(JObj(put));
      forall k | k != "top_docs" ensures k in Keys(put) <==> k in Keys(m) {
        if "top_docs" !in Keys(m) {
          assert Keys(put) == Keys(m) + ["top_docs"];
          assert k in Keys(m) + ["top_docs"] <==> k in Keys(m);
        }
      }
    }
  }

  /** `top_docs` ranks the hits by type and carries `top_hits` of size 10 and a `max` score aggregation. */
  lemma TopDocsContents()
    ensures Member(Member(TopDocs, "terms"), "field") == JStr("_type")
    ensures Member(Member(Member(Member(TopDocs, "aggs"), "top_tags_hits"), "top_hits"), "size") == JNum(10)
    ensures Member(Member(Member(Member(TopDocs, "aggs"), "top_hit"), "max"), "script") == JStr("_score")
  {
    var subs := Member(TopDocs, "aggs").members;
    assert UniqueKeys(subs);
    LookupAt(subs, 1);
  }

  // ---------------------------------------------------------------- assembly

  /** What compiling a query state gives: the request object and the caller's aggregation value afterwards. */
  datatype Compiled = Compiled(request: Members, callerAggs: Json)

  /** `if (esQuery.sort && esQuery.sort.length > 0) esQuery.sort = _normalizeSort(esQuery.sort)`. */
  function SortStep(m: Members): Option<Members>
  {
    var sort := Lookup(m, "sort");
    if Truthy(sort) && GreaterThanZero(Get(sort, "length")) then
      var entries :- SortCodec.NormalizeSort(sort);
      Some(Put(m, "sort", JArr(entries)))
    else Some(m)
  }

  /** `if (esQuery.ids) { esQuery.size = esQuery.ids.length; delete esQuery.ids; }`. */
  function IdsStep(m: Members): Members
  {
    var ids := Lookup(m, "ids");
    if Truthy(ids) then Remove(Put(m, "size", Get(ids, "length")), "ids") else m
  }

  /** `if (esQuery[k]) delete esQuery[k]`. */
  function DropIfTruthy(m: Members, k: string): (r: Members)
    ensures Truthy(Lookup(m, k)) ==> k !in Keys(r)
    ensures !Truthy(Lookup(m, k)) ==> r == m
    ensures forall x :: x != k ==> (x in Keys(r) <==> x in Keys(m)) && Lookup(r, x) == Lookup(m, x)
  {
    if Truthy(Lookup(m, k)) then Remove(m, k) else m
  }

  /** `if (esQuery.highlights) { esQuery.highlight = _normalizeHighlight(queryObj); delete esQuery.highlights; }`. */
  function HighlightStep(m: Members, queryObj: Json): Option<Members>
  {
    if Truthy(Lookup(m, "highlights")) then
      var h :- NormalizeHighlight(queryObj);
      Some(Remove(Put(m, "highlight", h), "highlights"))
    else Some(m)
  }

  /** The captured `queryType`: the value when truthy, else null. */
  function QueryTypeOf(m: Members): Json
  {
    if Truthy(Lookup(m, "queryType")) then Lookup(m, "queryType") else JNull
  }

  /** The aggregation steps: stripped spec, then `top_docs` when the query type is 'all'. */
  function AggsStep(m: Members, queryType: Json, aggs: Json): Option<Members>
  {
    if LooseEq(queryType, JStr("all")) then
      var withTop :- AddTopDocs(aggs);
      Some(Put(m, "aggs", withTop))
    else Some(Put(m, "aggs", aggs))
  }

  /** The steps after the query part, from `esQuery` with `query` set and `q`, `filters` deleted. */
  function ClientKeySteps(s1: Members, queryObj: Json): Option<Members>
  {
    var s2 :- SortStep(s1);
    var s3 := DropIfTruthy(IdsStep(s2), "boostFields");
    var s4 :- HighlightStep(s3, queryObj);
    Some(DropIfTruthy(s4, "bool"))
  }

  /** The query type capture and the aggregation steps, from `esQuery` with the other client-only keys gone. */
  function AggregationSteps(s5: Members, queryObj: Json): (r: Option<Compiled>)
    ensures r.Some? ==> NormalizeAggregationSpec(Get(queryObj, "aggs")).Some?
                        && r.value.callerAggs == NormalizeAggregationSpec(Get(queryObj, "aggs")).value
  {
    var queryType := QueryTypeOf(s5);
    var s6 := DropIfTruthy(s5, "queryType");
    var aggs :- NormalizeAggregationSpec(Get(queryObj, "aggs"));
    var s7 :- AggsStep(s6, queryType, aggs);
    Some(Compiled(s7, aggs))
  }

  /** Everything after the query part: the client-only keys, the query type and the aggregations. */
  function Assemble(s1: Members, queryObj: Json): (r: Option<Compiled>)
    ensures r.Some? ==> NormalizeAggregationSpec(Get(queryObj, "aggs")).Some?
                        && r.value.callerAggs == NormalizeAggregationSpec(Get(queryObj, "aggs")).value
  {
    var s5 :- ClientKeySteps(s1, queryObj);
    AggregationSteps(s5, queryObj)
  }

  /** The object `ES.Table.query(queryObj)` serialises, with the caller's aggregations afterwards. */
  function CompileSpec(queryObj: Json): (r: Option<Compiled>)
    ensures QueryClause.QueryInfo(queryObj).None? || QueryClause.NormalizeQuerySpec(queryObj).None? ==> r.None?
    ensures r.Some? ==> NormalizeAggregationSpec(Get(queryObj, "aggs")).Some?
                        && r.value.callerAggs == NormalizeAggregationSpec(Get(queryObj, "aggs")).value
  {
    var esQuery :- QueryClause.QueryInfo(queryObj);
    var query :- QueryClause.NormalizeQuerySpec(queryObj);
    Assemble(QueryPart(esQuery, query), queryObj)
  }

  /** `esQuery.query = ...; delete esQuery.q; delete esQuery.filters;`. */
  function QueryPart(esQuery: Members, query: Json): (s1: Members)
  {
    Remove(Remove(Put(esQuery, "query", query), "q"), "filters")
  }

  /** The body on the wire: `JSON.stringify(esQuery)`, read back as data. */
  function WireBody(c: Compiled): (body: Json)
    ensures Defined(body)
  {
    JsonCopyIsDefined(JObj(c.request));
    JsonCopy(JObj(c.request))
  }

  /** `ES.Table.query(queryObj)` as the library runs it, deleting keys from `esQuery` one by one. */
  method Compile(queryObj: Json) returns (r: Option<Compiled>)
    ensures r == CompileSpec(queryObj)
  {
    var info := QueryClause.QueryInfo(queryObj);
    if info.None? {
      return None;
    }
    var esQuery := info.value;
    var query := QueryClause.NormalizeQuery(queryObj);
    if query.None? {
      return None;
    }
    esQuery := Put(esQuery, "query", query.value);
    esQuery := Remove(esQuery, "q");
    esQuery := Remove(esQuery, "filters");
    r := AssembleRequest(esQuery, queryObj);
  }

  /** The rest of `ES.Table.query`, from the sort step on. */
  method AssembleRequest(esQuery: Members, queryObj: Json) returns (r: Option<Compiled>)
    ensures r == Assemble(esQuery, queryObj)
  {
    var cleared := RemoveClientKeys(esQuery, queryObj);
    if cleared.None? {
      return None;
    }
    r := AddAggregations(cleared.value, queryObj);
  }

  /** The `queryType` capture, `_normalizeAggregation` and the `top_docs` injection. */
  method AddAggregations(esQuery: Members, queryObj: Json) returns (r: Option<Compiled>)
    ensures r == AggregationSteps(esQuery, queryObj)
  {
    var m := esQuery;
    var queryType := JNull;
    if Truthy(Lookup(m, "queryType")) {
      queryType := Lookup(m, "queryType");
      m := Remove(m, "queryType");
    }
    assert queryType == QueryTypeOf(esQuery);
    assert m == DropIfTruthy(esQuery, "queryType");
    var aggs := NormalizeAggregation(Get(queryObj, "aggs"));
    if aggs.None? {
      return None;
    }
    var s7 := InjectAggregations(m, queryType, aggs.value);
    if s7.None? {
      return None;
    }
    return Some(Compiled(s7.value, aggs.value));
  }

  /** `esQuery.aggs = aggs`, then, for the query type 'all', a copy with `top_docs` added. */
  method InjectAggregations(m: Members, queryType: Json, aggs: Json) returns (r: Option<Members>)
    ensures r == AggsStep(m, queryType, aggs)
  {
    var withAggs := Put(m, "aggs", aggs);
    if LooseEq(queryType, JStr("all")) {
      var withTop := AddTopDocs(aggs);
      if withTop.None? {
        return None;
      }
      PutOverwrite(m, "aggs", aggs, withTop.value);
      withAggs := Put(withAggs, "aggs", withTop.value);
    }
    return Some(withAggs);
  }

  /** The sort, ids, boostFields, highlights and bool steps of `ES.Table.query`. */
  method RemoveClientKeys(esQuery: Members, queryObj: Json) returns (r: Option<Members>)
    ensures r == ClientKeySteps(esQuery, queryObj)
  {
    var m := esQuery;
    var sort := Lookup(m, "sort");
    if Truthy(sort) && GreaterThanZero(Get(sort, "length")) {
      var entries := SortCodec.NormalizeSort(sort);
      if entries.None? {
        return None;
      }
      m := Put(m, "sort", JArr(entries.value));
    }
    assert SortStep(esQuery) == Some(m);
    var ids := Lookup(m, "ids");
    if Truthy(ids) {
      m := Put(m, "size", Get(ids, "length"));
      m := Remove(m, "ids");
    }
    if Truthy(Lookup(m, "boostFields")) {
      m := Remove(m, "boostFields");
    }
    assert m == DropIfTruthy(IdsStep(SortStep(esQuery).value), "boostFields");
    var highlighted := ReplaceHighlights(m, queryObj);
    if highlighted.None? {
      return None;
    }
    m := highlighted.value;
    if Truthy(Lookup(m, "bool")) {
      m := Remove(m, "bool");
    }
    return Some(m);
  }

  /** The highlights step of `ES.Table.query`. */
  method ReplaceHighlights(esQuery: Members, queryObj: Json) returns (r: Option<Members>)
    ensures r == HighlightStep(esQuery, queryObj)
  {
    var m := esQuery;
    if Truthy(Lookup(m, "highlights")) {
      var h := NormalizeHighlight(queryObj);
      if h.None? {
        return None;
      }
      m := Put(m, "highlight", h.value);
      m := Remove(m, "highlights");
    }
    return Some(m);
  }
  // ---------------------------------------------------------------- what the request holds

  /** The keys only the client understands; `ES.Table.query` deletes each one that is truthy. */
  const ClientOnlyKeys: seq<string> := ["ids", "boostFields", "highlights", "bool", "queryType"]

  /** The keys `ES.Table.query` writes. */
  const RewrittenKeys: seq<string> := ["sort", "size", "highlight", "aggs"]

  /** The sort step writes `sort` and nothing else. */
  lemma SortStepFrame(m: Members, k: string)
    requires SortStep(m).Some? && k != "sort"
    ensures Agrees(SortStep(m).value, m, k)
  {
  }

  /** The ids step writes `size` and deletes a truthy `ids`, and nothing else. */
  lemma IdsStepFrame(m: Members, k: string)
    requires k != "size"
    ensures k == "ids" && Truthy(Lookup(m, k)) ==> k !in Keys(IdsStep(m))
    ensures k != "ids" || !Truthy(Lookup(m, k)) ==> Agrees(IdsStep(m), m, k)
  {
    var ids := Lookup(m, "ids");
    if Truthy(ids) {
      var p := Put(m, "size", Get(ids, "length"));
      PutFrame(m, "size", Get(ids, "length"), k);
      if k != "ids" {
        RemoveFrame(p, "ids", k);
      }
    }
  }

  /** With truthy ids, the ids step sets `size` to their length. */
  lemma IdsStepSize(m: Members)
    requires Truthy(Lookup(m, "ids"))
    ensures "size" in Keys(IdsStep(m)) && Lookup(IdsStep(m), "size") == Get(Lookup(m, "ids"), "length")
  {
    var p := Put(m, "size", Get(Lookup(m, "ids"), "length"));
    RemoveFrame(p, "ids", "size");
  }

  /** With truthy highlights, the highlights step sets `highlight` to the normalised block. */
  lemma HighlightStepSets(m: Members, queryObj: Json)
    requires HighlightStep(m, queryObj).Some? && Truthy(Lookup(m, "highlights"))
    ensures NormalizeHighlight(queryObj).Some?
    ensures var r := HighlightStep(m, queryObj).value;
      "highlight" in Keys(r) && Lookup(r, "highlight") == NormalizeHighlight(queryObj).value
  {
    var p := Put(m, "highlight", NormalizeHighlight(queryObj).value);
    RemoveFrame(p, "highlights", "highlight");
  }

  /** The highlights step writes `highlight` and deletes a truthy `highlights`, and nothing else. */
  lemma HighlightStepFrame(m: Members, queryObj: Json, k: string)
    requires HighlightStep(m, queryObj).Some? && k != "highlight"
    ensures k == "highlights" && Truthy(Lookup(m, k)) ==> k !in Keys(HighlightStep(m, queryObj).value)
    ensures k != "highlights" || !Truthy(Lookup(m, k)) ==> Agrees(HighlightStep(m, queryObj).value, m, k)
  {
  }

  /** The aggregation step writes `aggs` and nothing else. */
  lemma AggsStepFrame(m: Members, queryType: Json, aggs: Json, k: string)
    requires AggsStep(m, queryType, aggs).Some? && k != "aggs"
    ensures Agrees(AggsStep(m, queryType, aggs).value, m, k)
  {
  }

  /** The client-key steps: what they do to the key `k`, given they did not throw. */
  lemma ClientKeyStepsAt(s1: Members, queryObj: Json, k: string)
    requires ClientKeySteps(s1, queryObj).Some?
    requires k != "sort" && k != "size" && k != "highlight"
    ensures var s5 := ClientKeySteps(s1, queryObj).value;
      && (k in ["ids", "boostFields", "highlights", "bool"] && Truthy(Lookup(s1, k)) ==> k !in Keys(s5))
      && (k !in ["ids", "boostFields", "highlights", "bool"] || !Truthy(Lookup(s1, k)) ==> Agrees(s5, s1, k))
  {
    var s2 := SortStep(s1).value;
    var s3 := DropIfTruthy(IdsStep(s2), "boostFields");
    var s4 := HighlightStep(s3, queryObj).value;
    var s5 := DropIfTruthy(s4, "bool");
    SortStepFrame(s1, k);
    IdsStepFrame(s2, k);
    HighlightStepFrame(s3, queryObj, k);
    if k == "ids" {
      if Truthy(Lookup(s1, k)) {
        assert k !in Keys(IdsStep(s2));
      } else {
        assert Agrees(s3, s2, k);
      }
    } else if k == "boostFields" {
      assert Agrees(IdsStep(s2), s2, k);
    } else if k == "highlights" {
      assert Agrees(s3, s2, k);
    } else if k == "bool" {
      assert Agrees(s3, s2, k);
    } else {
      assert Agrees(s3, s2, k);
      assert Agrees(s5, s4, k);
    }
  }

  /** The aggregation steps: what they do to the key `k`, given they did not throw. */
  lemma AggregationStepsAt(s5: Members, queryObj: Json, k: string)
    requires AggregationSteps(s5, queryObj).Some? && k != "aggs"
    ensures var req := AggregationSteps(s5, queryObj).value.request;
      && (k == "queryType" && Truthy(Lookup(s5, k)) ==> k !in Keys(req))
      && (k != "queryType" || !Truthy(Lookup(s5, k)) ==> Agrees(req, s5, k))
  {
    var s6 := DropIfTruthy(s5, "queryType");
    var aggs := NormalizeAggregationSpec(Get(queryObj, "aggs")).value;
    AggsStepFrame(s6, QueryTypeOf(s5), aggs, k);
  }

  /** Every key the steps neither write nor treat as client-only reaches the request as it was. */
  lemma RequestKeepsKey(s1: Members, queryObj: Json, k: string)
    requires Assemble(s1, queryObj).Some?
    requires k !in ClientOnlyKeys && k !in RewrittenKeys
    ensures Agrees(Assemble(s1, queryObj).value.request, s1, k)
  {
    var s5 := ClientKeySteps(s1, queryObj).value;
    ClientKeyStepsAt(s1, queryObj, k);
    AggregationStepsAt(s5, queryObj, k);
  }

  /**
   * A truthy client-only key is gone from the request; a falsy one (the
   * default empty `queryType`, say) is passed through.
   */
  lemma RequestDropsClientKey(s1: Members, queryObj: Json, k: string)
    requires Assemble(s1, queryObj).Some?
    requires k in ClientOnlyKeys
    ensures Truthy(Lookup(s1, k)) ==> k !in Keys(Assemble(s1, queryObj).value.request)
    ensures !Truthy(Lookup(s1, k)) ==> Agrees(Assemble(s1, queryObj).value.request, s1, k)
  {
    var s5 := ClientKeySteps(s1, queryObj).value;
    ClientKeyStepsAt(s1, queryObj, k);
    AggregationStepsAt(s5, queryObj, k);
  }

  /** With a truthy, non-empty sort, the request holds the normalised sort; otherwise `sort` passes through. */
  lemma RequestSort(s1: Members, queryObj: Json)
    requires Assemble(s1, queryObj).Some?
    ensures var req := Assemble(s1, queryObj).value.request;
      var sort := Lookup(s1, "sort");
      && (Truthy(sort) && GreaterThanZero(Get(sort, "length")) ==>
            && SortCodec.NormalizeSort(sort).Some? && "sort" in Keys(req)
            && Lookup(req, "sort") == JArr(SortCodec.NormalizeSort(sort).value))
      && (!(Truthy(sort) && GreaterThanZero(Get(sort, "length"))) ==> Agrees(req, s1, "sort"))
  {
    var s2 := SortStep(s1).value;
    var s3 := DropIfTruthy(IdsStep(s2), "boostFields");
    var s4 := HighlightStep(s3, queryObj).value;
    var s5 := ClientKeySteps(s1, queryObj).value;
    IdsStepFrame(s2, "sort");
    HighlightStepFrame(s3, queryObj, "sort");
    AggregationStepsAt(s5, queryObj, "sort");
  }

  /** With truthy ids, `size` is their length; otherwise `size` passes through. */
  lemma RequestSize(s1: Members, queryObj: Json)
    requires Assemble(s1, queryObj).Some?
    ensures var req := Assemble(s1, queryObj).value.request;
      var ids := Lookup(s1, "ids");
      && (Truthy(ids) ==> "size" in Keys(req) && Lookup(req, "size") == Get(ids, "length"))
      && (!Truthy(ids) ==> Agrees(req, s1, "size"))
  {
    var s2 := SortStep(s1).value;
    var s3 := DropIfTruthy(IdsStep(s2), "boostFields");
    var s4 := HighlightStep(s3, queryObj).value;
    var s5 := ClientKeySteps(s1, queryObj).value;
    SortStepFrame(s1, "ids");
    SortStepFrame(s1, "size");
    if Truthy(Lookup(s1, "ids")) {
      IdsStepSize(s2);
    } else {
      IdsStepFrame(s2, "ids");
    }
    HighlightStepFrame(s3, queryObj, "size");
    assert Agrees(s5, s4, "size");
    AggregationStepsAt(s5, queryObj, "size");
  }

  /** With truthy highlights, `highlight` is the normalised block; otherwise `highlight` passes through. */
  lemma RequestHighlight(s1: Members, queryObj: Json)
    requires Assemble(s1, queryObj).Some?
    ensures var req := Assemble(s1, queryObj).value.request;
      && (Truthy(Lookup(s1, "highlights")) ==>
            && NormalizeHighlight(queryObj).Some? && "highlight" in Keys(req)
            && Lookup(req, "highlight") == NormalizeHighlight(queryObj).value)
      && (!Truthy(Lookup(s1, "highlights")) ==> Agrees(req, s1, "highlight"))
  {
    var s2 := SortStep(s1).value;
    var s3 := DropIfTruthy(IdsStep(s2), "boostFields");
    var s4 := HighlightStep(s3, queryObj).value;
    var s5 := ClientKeySteps(s1, queryObj).value;
    SortStepFrame(s1, "highlights");
    SortStepFrame(s1, "highlight");
    IdsStepFrame(s2, "highlights");
    IdsStepFrame(s2, "highlight");
    assert Agrees(s3, s1, "highlights");
    assert Agrees(s3, s1, "highlight");
    if Truthy(Lookup(s1, "highlights")) {
      HighlightStepSets(s3, queryObj);
    } else {
      HighlightStepFrame(s3, queryObj, "highlights");
    }
    assert Agrees(s5, s4, "highlight");
    AggregationStepsAt(s5, queryObj, "highlight");
  }

  /** The aggregation steps set `aggs` from the stripped caller aggregations. */
  lemma AggregationStepsAggs(s5: Members, queryObj: Json)
    requires AggregationSteps(s5, queryObj).Some?
    ensures var c := AggregationSteps(s5, queryObj).value;
      && NormalizeAggregationSpec(Get(queryObj, "aggs")).Some?
      && c.callerAggs == NormalizeAggregationSpec(Get(queryObj, "aggs")).value
      && "aggs" in Keys(c.request)
      && (LooseEq(QueryTypeOf(s5), JStr("all")) ==>
            AddTopDocs(c.callerAggs).Some? && Lookup(c.request, "aggs") == AddTopDocs(c.callerAggs).value)
      && (!LooseEq(QueryTypeOf(s5), JStr("all")) ==> Lookup(c.request, "aggs") == c.callerAggs)
  {
  }

  /**
   * The caller's aggregations end up stripped, and the request's `aggs` is
   * that value, with `top_docs` when the captured query type is loosely equal
   * to 'all'.
   */
  lemma RequestAggregations(s1: Members, queryObj: Json)
    requires Assemble(s1, queryObj).Some?
    ensures var c := Assemble(s1, queryObj).value;
      && NormalizeAggregationSpec(Get(queryObj, "aggs")).Some?
      && c.callerAggs == NormalizeAggregationSpec(Get(queryObj, "aggs")).value
      && "aggs" in Keys(c.request)
      && (LooseEq(QueryTypeOf(s1), JStr("all")) ==>
            AddTopDocs(c.callerAggs).Some? && Lookup(c.request, "aggs") == AddTopDocs(c.callerAggs).value)
      && (!LooseEq(QueryTypeOf(s1), JStr("all")) ==> Lookup(c.request, "aggs") == c.callerAggs)
  {
    var s5 := ClientKeySteps(s1, queryObj).value;
    ClientKeyStepsAt(s1, queryObj, "queryType");
    assert QueryTypeOf(s5) == QueryTypeOf(s1);
    AggregationStepsAggs(s5, queryObj);
  }

  /**
   * With the query type 'all' and no aggregations on the query state,
   * `_.clone(undefined)` gives undefined and setting `top_docs` on it throws.
   */
  lemma AllWithoutAggregationsFails(s1: Members, queryObj: Json)
    requires ClientKeySteps(s1, queryObj).Some?
    requires LooseEq(QueryTypeOf(s1), JStr("all")) && !Readable(Get(queryObj, "aggs"))
    ensures Assemble(s1, queryObj).None?
  {
    var s5 := ClientKeySteps(s1, queryObj).value;
    ClientKeyStepsAt(s1, queryObj, "queryType");
    assert QueryTypeOf(s5) == QueryTypeOf(s1);
  }

  /** A compiled query is the assembly of the query part. */
  lemma CompileSpecAssembles(queryObj: Json)
    requires CompileSpec(queryObj).Some?
    ensures QueryClause.QueryInfo(queryObj).Some? && QueryClause.NormalizeQuerySpec(queryObj).Some?
    ensures CompileSpec(queryObj)
      == Assemble(QueryPart(QueryClause.QueryInfo(queryObj).value, QueryClause.NormalizeQuerySpec(queryObj).value), queryObj)
  {
  }

  /** The query part sets `query` and removes `q` and `filters`. */
  lemma QueryPartKeys(esQuery: Members, query: Json)
    ensures var s1 := QueryPart(esQuery, query);
      "query" in Keys(s1) && Lookup(s1, "query") == query && "q" !in Keys(s1) && "filters" !in Keys(s1)
  {
    var s0 := Remove(Put(esQuery, "query", query), "q");
    RemoveFrame(Put(esQuery, "query", query), "q", "query");
    RemoveFrame(s0, "filters", "query");
    RemoveFrame(s0, "filters", "q");
  }

  /** The keys the query part writes are neither client-only nor rewritten by the later steps. */
  lemma QueryPartKeysPassThrough()
    ensures forall k :: k in ["query", "q", "filters"] ==> k !in ClientOnlyKeys && k !in RewrittenKeys
  {
    forall k | k in ["query", "q", "filters"]
      ensures k !in ClientOnlyKeys && k !in RewrittenKeys
    {
      assert |k| == 5 || |k| == 1 || |k| == 7;
    }
  }

  /** After the query part, the request carries `query`. */
  lemma AssembledQuery(esQuery: Members, query: Json, queryObj: Json)
    requires Assemble(QueryPart(esQuery, query), queryObj).Some?
    ensures var req := Assemble(QueryPart(esQuery, query), queryObj).value.request;
      "query" in Keys(req) && Lookup(req, "query") == query
  {
    QueryPartKeys(esQuery, query);
    QueryPartKeysPassThrough();
    RequestKeepsKey(QueryPart(esQuery, query), queryObj, "query");
  }

  /** After the query part, the request carries neither `q` nor `filters`. */
  lemma AssembledOmits(esQuery: Members, query: Json, queryObj: Json, k: string)
    requires Assemble(QueryPart(esQuery, query), queryObj).Some?
    requires k == "q" || k == "filters"
    ensures k !in Keys(Assemble(QueryPart(esQuery, query), queryObj).value.request)
  {
    QueryPartKeys(esQuery, query);
    QueryPartKeysPassThrough();
    RequestKeepsKey(QueryPart(esQuery, query), queryObj, k);
  }

  /**
   * The compiled request carries the normalised query under `query`, and
   * neither `q` nor `filters`, whatever the query state held.
   */
  lemma CompiledQuery(queryObj: Json)
    requires CompileSpec(queryObj).Some?
    ensures var req := CompileSpec(queryObj).value.request;
      && "query" in Keys(req) && Lookup(req, "query") == QueryClause.NormalizeQuerySpec(queryObj).value
      && "q" !in Keys(req) && "filters" !in Keys(req)
  {
    CompileSpecAssembles(queryObj);
    var esQuery := QueryClause.QueryInfo(queryObj).value;
    var query := QueryClause.NormalizeQuerySpec(queryObj).value;
    AssembledQuery(esQuery, query, queryObj);
    AssembledOmits(esQuery, query, queryObj, "q");
    AssembledOmits(esQuery, query, queryObj, "filters");
  }
}
