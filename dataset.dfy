/**
 * The Dataset model of src/model.js, where it turns what a backend returns
 * into models: the aggregations of a search result come back under their
 * keys, are given back the id of the field they were built for, and have
 * the buckets that active term filters select marked; rows given as arrays
 * are named from a header row and zipped into records.
 */
module Dataset {
  import opened Wrappers
  import opened JsonValue
  import opened JsSemantics
  import opened QueryState
  import opened AggregationKeys
  import opened Aggregations

  // ---------------------------------------------------------------- selectInBuckets

  /** `filter.type == "term" && bucket.key == filter.term`, for a bucket with that key. */
  predicate TermHit(filter: Json, key: Json)
  {
    LooseEq(Get(filter, "type"), JStr("term")) && LooseEq(key, Get(filter, "term"))
  }

  /** Some filter of the list selects the bucket with that key. */
  predicate HitSomewhere(filters: seq<Json>, key: Json)
  {
    exists i :: 0 <= i < |filters| && TermHit(filters[i], key)
  }

  /**
   * One filter visits one bucket: reading `type` of an undefined or null
   * filter, or `key` of such a bucket, throws; a hit writes
   * `bucket.selected = true`, which throws on a primitive (strict mode) and
   * is not represented on an array.
   */
  function Visit(bucket: Json, filter: Json): (r: Option<Json>)
    ensures !Readable(filter) ==> r.None?
    ensures r.Some? && r.value != bucket ==>
      r.value.JObj? && Lookup(r.value.members, "selected") == JBool(true) && LooseEq(Get(bucket, "key"), Get(filter, "term"))
  {
    if !Readable(filter) then None
    else if !LooseEq(Get(filter, "type"), JStr("term")) then Some(bucket)
    else if !Readable(bucket) then None
    else if !LooseEq(Get(bucket, "key"), Get(filter, "term")) then Some(bucket)
    else
      match bucket
      case JObj(m) =>
        var marked := Put(m, "selected", JBool(true));
        assert Lookup(marked, "selected") == JBool(true);
        Some(JObj(marked))
      case JArr(_) => Some(bucket)
      case _ => None
  }

  /** The inner `_.each(filters, ...)` over one bucket. */
  function Marked(bucket: Json, filters: seq<Json>): Option<Json>
    decreases |filters|
  {
    if |filters| == 0 then Some(bucket)
    else
      var b :- Marked(bucket, filters[..|filters| - 1]);
      Visit(b, filters[|filters| - 1])
  }

  /** The callback of the outer `_.map` over the buckets. */
  function MarkOne(filters: seq<Json>): Json -> Option<Json>
  {
    (b: Json) => Marked(b, filters)
  }

  /** The outer `_.map(agg.buckets, ...)`: the first throw ends it. */
  function MarkAll(buckets: seq<Json>, filters: seq<Json>): Option<seq<Json>>
  {
    Traverse(buckets, MarkOne(filters))
  }

  /** `selectInBuckets(agg)` with the query's filters. */
  function SelectedBuckets(agg: Json, filters: seq<Json>): Option<seq<Json>>
  {
    MarkAll(Values(Get(agg, "buckets")), filters)
  }

  /** Every filter can be read: what `Query.Valid` keeps of the query's filters. */
  predicate AllReadable(filters: seq<Json>)
  {
    forall i :: 0 <= i < |filters| ==> Readable(filters[i])
  }

  /**
   * What the filters make of an object bucket: `selected: true` exactly when
   * some term filter's `term` equals its key, whatever field the filter is
   * on; otherwise the bucket as it was.
   */
  function Selection(m: Members, filters: seq<Json>): Members
  {
    if HitSomewhere(filters, Lookup(m, "key")) then Put(m, "selected", JBool(true)) else m
  }

  /** One readable filter on an object bucket: a hit sets `selected`, anything else leaves the bucket. */
  lemma VisitSpec(m: Members, filter: Json)
    requires Readable(filter)
    ensures Visit(JObj(m), filter)
         == Some(if TermHit(filter, Lookup(m, "key")) then JObj(Put(m, "selected", JBool(true))) else JObj(m))
  {
  }

  /** A filter list with one more filter hits when the shorter list or the new filter does. */
  lemma HitSnoc(init: seq<Json>, f: Json, key: Json)
    ensures HitSomewhere(init + [f], key) <==> HitSomewhere(init, key) || TermHit(f, key)
  {
    var fs := init + [f];
    if HitSomewhere(init, key) {
      var i :| 0 <= i < |init| && TermHit(init[i], key);
      assert fs[i] == init[i];
    }
    if HitSomewhere(fs, key) && !TermHit(f, key) {
      var i :| 0 <= i < |fs| && TermHit(fs[i], key);
      assert i < |init| && init[i] == fs[i];
    }
    if TermHit(f, key) {
      assert fs[|init|] == f;
    }
  }

  /** With readable filters, the inner loop over the filters gives an object bucket its `Selection`. */
  lemma {:induction false} MarkedSpec(m: Members, filters: seq<Json>)
    requires AllReadable(filters)
    ensures Marked(JObj(m), filters) == Some(JObj(Selection(m, filters)))
    decreases |filters|
  {
    if |filters| > 0 {
      var init := filters[..|filters| - 1];
      var f := filters[|filters| - 1];
      MarkedSpec(m, init);
      var s := Selection(m, init);
      assert Lookup(s, "key") == Lookup(m, "key");
      VisitSpec(s, f);
      HitSnoc(init, f, Lookup(m, "key"));
      assert filters == init + [f];
      PutOverwrite(m, "selected", JBool(true), JBool(true));
    }
  }

  /**
   * `selected` is set when some term filter hits and is otherwise left
   * alone, so a flag already set is never cleared; no other attribute
   * changes, and `selected` is the only key that may be added.
   */
  lemma SelectionSpec(m: Members, filters: seq<Json>)
    ensures Lookup(Selection(m, filters), "selected")
         == if HitSomewhere(filters, Lookup(m, "key")) then JBool(true) else Lookup(m, "selected")
    ensures Truthy(Lookup(m, "selected")) ==> Truthy(Lookup(Selection(m, filters), "selected"))
    ensures forall k :: k != "selected" ==> Lookup(Selection(m, filters), k) == Lookup(m, k)
    ensures forall k :: k in Keys(Selection(m, filters)) <==> k in Keys(m) || (k == "selected" && HitSomewhere(filters, Lookup(m, "key")))
  {
    if HitSomewhere(filters, Lookup(m, "key")) {
      var s := Put(m, "selected", JBool(true));
      assert Selection(m, filters) == s;
      assert Lookup(s, "selected") == JBool(true);
    }
  }

  /** An undefined or null filter throws as soon as any bucket is visited. */
  lemma {:induction false} UnreadableFilterThrows(bucket: Json, filters: seq<Json>, i: nat)
    requires i < |filters| && !Readable(filters[i])
    ensures Marked(bucket, filters).None?
    decreases |filters|
  {
    if i < |filters| - 1 {
      UnreadableFilterThrows(bucket, filters[..|filters| - 1], i);
    }
  }

  /** Every bucket is an object. */
  predicate AllObjects(buckets: seq<Json>)
  {
    forall i :: 0 <= i < |buckets| ==> buckets[i].JObj?
  }

  /**
   * `selectInBuckets` keeps the number and order of object buckets and gives
   * each its `Selection`, when every filter can be read.
   */
  lemma SelectInBucketsSpec(buckets: seq<Json>, filters: seq<Json>)
    requires AllReadable(filters) && AllObjects(buckets)
    ensures MarkAll(buckets, filters).Some?
    ensures |MarkAll(buckets, filters).value| == |buckets|
    ensures forall i :: 0 <= i < |buckets| ==>
      MarkAll(buckets, filters).value[i] == JObj(Selection(buckets[i].members, filters))
  {
    forall i | 0 <= i < |buckets| ensures MarkOne(filters)(buckets[i]) == Some(JObj(Selection(buckets[i].members, filters))) {
      MarkedSpec(buckets[i].members, filters);
    }
    TraverseContents(buckets, MarkOne(filters));
  }

  /** The filter `addFilter` leaves for `{type: 'term', field, term}`. */
  function TermFilter(field: string, term: string): Json
  {
    JObj([("type", JStr("term")), ("field", JStr(field)), ("term", JStr(term))])
  }

  /** A term filter reads back its `type` and its `term`. */
  lemma TermFilterReads(field: string, term: string)
    ensures Get(TermFilter(field, term), "type") == JStr("term")
    ensures Get(TermFilter(field, term), "term") == JStr(term)
  {
    var fm := TermFilter(field, term).members;
    assert fm[1..][1..] == [("term", JStr(term))];
    assert Lookup(fm[1..], "term") == JStr(term);
    assert "type" != "term" by { assert "type"[1] == 'y' && "term"[1] == 'e'; }
  }

  /** A term filter hits every bucket whose key is its term. */
  lemma TermFilterHits(field: string, term: string)
    ensures TermHit(TermFilter(field, term), JStr(term))
  {
    TermFilterReads(field, term);
    LooseEqStrings(JStr("term"), JStr("term"));
    LooseEqStrings(JStr(term), JStr(term));
  }

  /**
   * A term filter on one field selects the bucket with its term in the
   * aggregation of any other field too: the filter's field is not compared.
   */
  lemma TermFilterOnAnyField(field: string, term: string, bucket: Members)
    requires Lookup(bucket, "key") == JStr(term)
    ensures Selection(bucket, [TermFilter(field, term)]) == Put(bucket, "selected", JBool(true))
  {
    TermFilterHits(field, term);
    assert [TermFilter(field, term)][0] == TermFilter(field, term);
  }

  /** One bucket's filters, one after another, as `_.each` runs them. */
  method MarkBucket(bucket: Json, filters: seq<Json>) returns (r: Option<Json>)
    ensures r == Marked(bucket, filters)
  {
    var b := bucket;
    var j := 0;
    while j < |filters|
      invariant 0 <= j <= |filters|
      invariant Marked(bucket, filters[..j]) == Some(b)
    {
      assert filters[..j + 1][..j] == filters[..j];
      var next := Visit(b, filters[j]);
      if next.None? {
        MarkedFailsFrom(bucket, filters, j + 1);
        return None;
      }
      b := next.value;
      j := j + 1;
    }
    assert filters[..j] == filters;
    return Some(b);
  }

  /** Once a visit has thrown, the later filters do not matter. */
  lemma {:induction false} MarkedFailsFrom(bucket: Json, filters: seq<Json>, n: nat)
    requires n <= |filters| && Marked(bucket, filters[..n]).None?
    ensures Marked(bucket, filters).None?
    decreases |filters| - n
  {
    if n < |filters| {
      assert filters[..n + 1][..n] == filters[..n];
      MarkedFailsFrom(bucket, filters, n + 1);
    } else {
      assert filters[..n] == filters;
    }
  }

  /** `selectInBuckets(agg)`: every bucket of the aggregation through the filters. */
  method SelectInBuckets(agg: Json, filters: seq<Json>) returns (r: Option<seq<Json>>)
    ensures r == SelectedBuckets(agg, filters)
  {
    var buckets := Values(Get(agg, "buckets"));
    var done: seq<Json> := [];
    var i := 0;
    while i < |buckets|
      invariant 0 <= i <= |buckets|
      invariant Traverse(buckets[..i], MarkOne(filters)) == Some(done)
    {
      TraverseStep(buckets, MarkOne(filters), i);
      var b := MarkBucket(buckets[i], filters);
      if b.None? {
        TraverseFailsFrom(buckets, MarkOne(filters), i + 1);
        return None;
      }
      done := done + [b.value];
      i := i + 1;
    }
    assert buckets[..i] == buckets;
    return Some(done);
  }

  // ---------------------------------------------------------------- _handleQueryResult: aggregations

  /** `aggResult.key = aggId; aggResult.id = id`. */
  function WithIds(aggId: string, m: Members): Members
  {
    Put(Put(m, "key", JStr(aggId)), "id", JStr(FieldIdOfKey(aggId)))
  }

  /**
   * The attributes the `_.map` callback writes before the aggregation is
   * built: `key` (the response key), `id` (the key with underscores read as
   * dots) and, when `getSelectedAggregation(id)` finds a filter, `selected`.
   * `getSelectedAggregation` reads `filter.field` of every filter, so an
   * undefined or null filter throws.
   */
  function Tagged(aggId: string, m: Members, filters: seq<Json>): Option<Members>
  {
    if AllReadable(filters) then Some(Tag(WithIds(aggId, m), SelectedFilter(filters, JStr(FieldIdOfKey(aggId)))))
    else None
  }

  /** `if (selected) aggResult.selected = selected`. */
  function Tag(m: Members, selected: Json): Members
  {
    if Truthy(selected) then Put(m, "selected", selected) else m
  }

  lemma TagSpec(m: Members, selected: Json)
    ensures Lookup(Tag(m, selected), "selected") == if Truthy(selected) then selected else Lookup(m, "selected")
    ensures forall k :: k != "selected" ==> Lookup(Tag(m, selected), k) == Lookup(m, k)
  {
    if Truthy(selected) {
      var p := Put(m, "selected", selected);
      assert Tag(m, selected) == p;
      assert Lookup(p, "selected") == selected;
    }
  }

  /** The aggregation built from the tagged attributes and the marked buckets. */
  function BuiltAggregation(attrs: Members, buckets: seq<Json>): Json
  {
    JObj(AggregationAttributes(Put(attrs, "buckets", JArr(buckets))))
  }

  /**
   * The Aggregation built over marked buckets has those buckets, the kind
   * they show (or the given `_type`, or `terms`), the given `selected` (or
   * false), and every other attribute as given.
   */
  lemma BuiltAggregationSpec(attrs: Members, marked: seq<Json>)
    ensures var r := BuiltAggregation(attrs, marked).members;
      && Lookup(r, "buckets") == JArr(marked)
      && Lookup(r, "_type") == (match InferredKind(JArr(marked))
                                case Some(kind) => JStr(kind)
                                case None => if Lookup(attrs, "_type") != JUndef then Lookup(attrs, "_type") else JStr("terms"))
      && Lookup(r, "selected") == (if Lookup(attrs, "selected") != JUndef then Lookup(attrs, "selected") else JBool(false))
      && (forall k :: k != "_type" && k != "selected" && k != "buckets" ==> Lookup(r, k) == Lookup(attrs, k))
  {
    var given := Put(attrs, "buckets", JArr(marked));
    AggregationAttributesSpec(given);
    assert GivenBuckets(given) == JArr(marked);
    assert "buckets" != "_type" && "buckets" != "selected";
  }

  /**
   * One aggregation of the result, as the callback turns it into an
   * Aggregation.  An array takes the writes as named properties, and the
   * Aggregation copies them with its indices (`_.defaults` enumerates both),
   * so it is built from its own index members; writing to any other value
   * that is not an object throws.
   */
  function Handled(aggId: string, aggResult: Json, filters: seq<Json>): (r: Option<Json>)
    ensures r.Some? ==> (aggResult.JObj? || aggResult.JArr?) && AllReadable(filters)
  {
    if aggResult.JObj? || aggResult.JArr? then
      var attrs :- Tagged(aggId, ExtendCopy(aggResult), filters);
      HandledAttributes(attrs, filters)
    else None
  }

  /** `selectInBuckets` on the tagged attributes, then the Aggregation built from them. */
  function HandledAttributes(attrs: Members, filters: seq<Json>): Option<Json>
  {
    var buckets :- MarkAll(Values(Lookup(attrs, "buckets")), filters);
    Some(BuiltAggregation(attrs, buckets))
  }

  lemma HandledAttributesSpec(attrs: Members, filters: seq<Json>)
    requires AllReadable(filters) && Lookup(attrs, "buckets").JArr? && AllObjects(Lookup(attrs, "buckets").items)
    ensures MarkAll(Lookup(attrs, "buckets").items, filters).Some?
    ensures HandledAttributes(attrs, filters) == Some(BuiltAggregation(attrs, MarkAll(Lookup(attrs, "buckets").items, filters).value))
  {
    ValuesOfArray(Lookup(attrs, "buckets").items);
    MarkAllDefined(Lookup(attrs, "buckets").items, filters);
  }

  lemma WithIdsSpec(aggId: string, m: Members)
    ensures Lookup(WithIds(aggId, m), "key") == JStr(aggId)
    ensures Lookup(WithIds(aggId, m), "id") == JStr(FieldIdOfKey(aggId))
    ensures forall k :: k != "key" && k != "id" ==> Lookup(WithIds(aggId, m), k) == Lookup(m, k)
  {
    assert "id" != "key";
    PutPut(m, "key", JStr(aggId), "id", JStr(FieldIdOfKey(aggId)));
  }

  /** Two writes to different keys: both read back, nothing else changes. */
  lemma PutPut(m: Members, k1: string, v1: Json, k2: string, v2: Json)
    requires k1 != k2
    ensures Lookup(Put(Put(m, k1, v1), k2, v2), k1) == v1
    ensures Lookup(Put(Put(m, k1, v1), k2, v2), k2) == v2
    ensures forall k :: k != k1 && k != k2 ==> Lookup(Put(Put(m, k1, v1), k2, v2), k) == Lookup(m, k)
  {
  }

  /** The tags: `key`, `id` and `selected` are written; everything else, `buckets` included, is as it was. */
  lemma TaggedSpec(aggId: string, m: Members, filters: seq<Json>)
    requires AllReadable(filters)
    ensures Tagged(aggId, m, filters).Some?
    ensures var t := Tagged(aggId, m, filters).value;
      var sel := SelectedFilter(filters, JStr(FieldIdOfKey(aggId)));
      && Lookup(t, "key") == JStr(aggId)
      && Lookup(t, "id") == JStr(FieldIdOfKey(aggId))
      && Lookup(t, "selected") == (if Truthy(sel) then sel else Lookup(m, "selected"))
      && (forall k :: k != "key" && k != "id" && k != "selected" ==> Lookup(t, k) == Lookup(m, k))
  {
    WithIdsSpec(aggId, m);
    TagSpec(WithIds(aggId, m), SelectedFilter(filters, JStr(FieldIdOfKey(aggId))));
    assert "selected" != "key" && "selected" != "id";
  }

  /** Marking a bucket adds at most `selected`, which is none of the keys the kind is read from. */
  lemma SelectionKeepsKindOfKeys(m: Members, filters: seq<Json>)
    ensures KindOfKeys(Keys(Selection(m, filters))) == KindOfKeys(Keys(m))
  {
    var s := Selection(m, filters);
    if s != m {
      assert Keys(s) == Keys(m) || Keys(s) == Keys(m) + ["selected"];
      assert "selected" != "top_hits" by { assert "selected"[0] != "top_hits"[0]; }
      assert "selected" != "from" && "selected" != "to" && "selected" != "from_as_string" && "selected" != "to_as_string";
    }
  }

  /** Marking the buckets does not change the inferred kind. */
  lemma SelectionKeepsKind(items: seq<Json>, filters: seq<Json>)
    requires AllReadable(filters) && AllObjects(items)
    ensures MarkAll(items, filters).Some?
    ensures InferredKind(JArr(MarkAll(items, filters).value)) == InferredKind(JArr(items))
  {
    SelectInBucketsSpec(items, filters);
    var r := MarkAll(items, filters).value;
    if |items| > 0 {
      FirstOfList(r[0], r[1..]);
      FirstOfList(items[0], items[1..]);
      assert [r[0]] + r[1..] == r;
      assert [items[0]] + items[1..] == items;
      SelectionKeepsKindOfKeys(items[0].members, filters);
    }
  }

  /** With object buckets and readable filters, the callback builds the aggregation from the marked buckets. */
  lemma HandledUnfold(aggId: string, m: Members, filters: seq<Json>)
    requires AllReadable(filters) && Lookup(m, "buckets").JArr? && AllObjects(Lookup(m, "buckets").items)
    ensures MarkAll(Lookup(m, "buckets").items, filters).Some?
    ensures Tagged(aggId, m, filters).Some?
    ensures Handled(aggId, JObj(m), filters)
         == Some(BuiltAggregation(Tagged(aggId, m, filters).value, MarkAll(Lookup(m, "buckets").items, filters).value))
  {
    TaggedKeepsBuckets(aggId, m, filters);
    HandledOfObject(aggId, m, filters);
    HandledAttributesSpec(Tagged(aggId, m, filters).value, filters);
  }

  /** An object aggregation is tagged as it is (its copy has the same members), then handled. */
  lemma HandledOfObject(aggId: string, m: Members, filters: seq<Json>)
    requires AllReadable(filters)
    ensures Handled(aggId, JObj(m), filters) == HandledAttributes(Tagged(aggId, m, filters).value, filters)
  {
    assert ExtendCopy(JObj(m)) == m;
  }

  lemma TaggedKeepsBuckets(aggId: string, m: Members, filters: seq<Json>)
    requires AllReadable(filters)
    ensures Tagged(aggId, m, filters).Some?
    ensures Lookup(Tagged(aggId, m, filters).value, "buckets") == Lookup(m, "buckets")
  {
    TaggedSpec(aggId, m, filters);
    assert "buckets" != "key" && "buckets" != "id" && "buckets" != "selected";
  }

  lemma MarkAllDefined(items: seq<Json>, filters: seq<Json>)
    requires AllReadable(filters) && AllObjects(items)
    ensures MarkAll(items, filters).Some?
  {
    SelectInBucketsSpec(items, filters);
  }

  /**
   * An object aggregation whose buckets are a list of objects, with
   * readable filters, is built with its response key as `key`, the field id
   * read back from it as `id`, the filter selected for that id (or the
   * `selected` it came with, or false) as `selected`, its buckets marked one
   * for one, and the kind the first bucket shows (or the `_type` it came
   * with, or `terms`).
   */
  lemma HandledSpec(aggId: string, m: Members, filters: seq<Json>)
    requires AllReadable(filters) && Lookup(m, "buckets").JArr? && AllObjects(Lookup(m, "buckets").items)
    ensures Handled(aggId, JObj(m), filters).Some? && Handled(aggId, JObj(m), filters).value.JObj?
    ensures var r := Handled(aggId, JObj(m), filters).value.members;
      var items := Lookup(m, "buckets").items;
      var sel := SelectedFilter(filters, JStr(FieldIdOfKey(aggId)));
      && Lookup(r, "key") == JStr(aggId)
      && Lookup(r, "id") == JStr(FieldIdOfKey(aggId))
      && Lookup(r, "selected") == (if Truthy(sel) then sel
                                   else if Lookup(m, "selected") != JUndef then Lookup(m, "selected") else JBool(false))
      && Lookup(r, "buckets").JArr? && |Lookup(r, "buckets").items| == |items|
      && (forall i :: 0 <= i < |items| ==> Lookup(r, "buckets").items[i] == JObj(Selection(items[i].members, filters)))
      && Lookup(r, "_type") == (match InferredKind(JArr(items))
                                case Some(kind) => JStr(kind)
                                case None => if Lookup(m, "_type") != JUndef then Lookup(m, "_type") else JStr("terms"))
  {
    var items := Lookup(m, "buckets").items;
    HandledUnfold(aggId, m, filters);
    TaggedSpec(aggId, m, filters);
    SelectInBucketsSpec(items, filters);
    SelectionKeepsKind(items, filters);
    BuiltAggregationSpec(Tagged(aggId, m, filters).value, MarkAll(items, filters).value);
    assert "_type" != "key" && "_type" != "id" && "_type" != "selected";
  }

  /**
   * An aggregation built for a field id without underscores comes back with
   * that id, and with the filter on that field as its selection: the last
   * filter whose field equals the id, the one `replaceFilter` would replace.
   */
  lemma SelectionFoundAgain(fieldId: string, m: Members, filters: seq<Json>)
    requires '_' !in fieldId && AllReadable(filters)
    requires Lookup(m, "buckets").JArr? && AllObjects(Lookup(m, "buckets").items)
    requires LastSameField(filters, JStr(fieldId)) >= 0 && Truthy(filters[LastSameField(filters, JStr(fieldId))])
    ensures var r := Handled(AggKey(fieldId), JObj(m), filters);
      && r.Some? && r.value.JObj?
      && Lookup(r.value.members, "id") == JStr(fieldId)
      && Lookup(r.value.members, "selected") == filters[LastSameField(filters, JStr(fieldId))]
  {
    FieldIdRoundTrip(fieldId);
    SelectedIsLastSameField(filters, JStr(fieldId));
    HandledSpec(AggKey(fieldId), m, filters);
  }

  /** An undefined or null filter makes the callback throw, whatever the aggregation. */
  lemma UnreadableFilterFailsAggregation(aggId: string, aggResult: Json, filters: seq<Json>)
    requires !AllReadable(filters)
    ensures Handled(aggId, aggResult, filters).None?
  {
  }

  /** A result that is neither an object nor an array cannot take the writes: the callback throws. */
  lemma PrimitiveResultThrows(aggId: string, aggResult: Json, filters: seq<Json>)
    requires !aggResult.JObj? && !aggResult.JArr?
    ensures Handled(aggId, aggResult, filters).None?
  {
  }

  /** The index members of an array have neither `_type` nor `buckets`. */
  lemma IndexMembersPlain(items: seq<Json>)
    ensures var m := ExtendCopy(JArr(items));
      Lookup(m, "_type") == JUndef && Lookup(m, "buckets") == JUndef
  {
    var m := ExtendCopy(JArr(items));
    forall i | 0 <= i < |items| ensures Keys(m)[i] != "_type" && Keys(m)[i] != "buckets" {
      assert Keys(m)[i] == NatToString(i) && IsDecimalDigit(NatToString(i)[0]);
      assert "_type"[0] == '_' && "buckets"[0] == 'b';
    }
    assert "_type" !in Keys(m) && "buckets" !in Keys(m);
  }

  /** Attributes without buckets mark none and build an aggregation with no buckets. */
  lemma NoBucketsHandled(attrs: Members, filters: seq<Json>)
    requires Lookup(attrs, "buckets") == JUndef
    ensures HandledAttributes(attrs, filters) == Some(BuiltAggregation(attrs, []))
  {
    assert Values(JUndef) == [];
    assert MarkAll([], filters) == Some([]);
  }

  /** Attributes with neither `buckets` nor `_type` are built as a `terms` aggregation with no buckets. */
  lemma NoBucketsTagged(aggId: string, m: Members, filters: seq<Json>)
    requires AllReadable(filters) && Lookup(m, "buckets") == JUndef && Lookup(m, "_type") == JUndef
    ensures Tagged(aggId, m, filters).Some?
    ensures var r := HandledAttributes(Tagged(aggId, m, filters).value, filters);
      && r.Some? && r.value.JObj?
      && Lookup(r.value.members, "key") == JStr(aggId)
      && Lookup(r.value.members, "id") == JStr(FieldIdOfKey(aggId))
      && Lookup(r.value.members, "buckets") == JArr([])
      && Lookup(r.value.members, "_type") == JStr("terms")
  {
    TaggedSpec(aggId, m, filters);
    var t := Tagged(aggId, m, filters).value;
    assert Lookup(t, "buckets") == JUndef && Lookup(t, "_type") == JUndef by {
      assert "buckets" != "key" && "buckets" != "id" && "buckets" != "selected";
      assert "_type" != "key" && "_type" != "id" && "_type" != "selected";
    }
    NoBucketsHandled(t, filters);
    NoBucketsNoKind();
    BuiltAggregationSpec(t, []);
    var r := BuiltAggregation(t, []).members;
    assert Lookup(r, "_type") == JStr("terms");
    assert Lookup(r, "key") == Lookup(t, "key") by {
      assert "key" != "_type" && "key" != "selected" && "key" != "buckets";
    }
    assert Lookup(r, "id") == Lookup(t, "id") by {
      assert "id" != "_type" && "id" != "selected" && "id" != "buckets";
    }
  }

  /**
   * An array result has no `buckets`, so `_.map(undefined)` marks none and
   * nothing throws: the Aggregation is built with the key, the field id, no
   * buckets and the kind `terms`.
   */
  lemma ArrayResultHandled(aggId: string, items: seq<Json>, filters: seq<Json>)
    requires AllReadable(filters)
    ensures var r := Handled(aggId, JArr(items), filters);
      && r.Some? && r.value.JObj?
      && Lookup(r.value.members, "key") == JStr(aggId)
      && Lookup(r.value.members, "id") == JStr(FieldIdOfKey(aggId))
      && Lookup(r.value.members, "buckets") == JArr([])
      && Lookup(r.value.members, "_type") == JStr("terms")
  {
    var m := ExtendCopy(JArr(items));
    IndexMembersPlain(items);
    NoBucketsTagged(aggId, m, filters);
    assert Handled(aggId, JArr(items), filters) == HandledAttributes(Tagged(aggId, m, filters).value, filters);
  }

  /** The callback on the entry `(aggId, aggResult)`; a numeric index has no `replace` and throws. */
  function HandleOne(filters: seq<Json>): ((Json, Json)) -> Option<Json>
  {
    (e: (Json, Json)) => if e.0.JStr? then Handled(e.0.s, e.1, filters) else None
  }

  /** `_.map(queryResult.aggregations, ...)`: the first throw ends it. */
  function HandledAll(aggregations: Json, filters: seq<Json>): (r: Option<seq<Json>>)
    ensures r.Some? ==> |r.value| == |Entries(aggregations)|
  {
    Traverse(Entries(aggregations), HandleOne(filters))
  }

  /**
   * The aggregations of a result that is a plain object are handled one for
   * one, in the order of its keys, each as `Handled` says; one that throws
   * makes the whole result throw.
   */
  lemma HandledAllSpec(aggs: Members, filters: seq<Json>)
    requires !IsArrayLike(JObj(aggs))
    ensures var r := HandledAll(JObj(aggs), filters);
      && (r.Some? <==> forall i :: 0 <= i < |aggs| ==> Handled(aggs[i].0, aggs[i].1, filters).Some?)
      && (r.Some? ==> |r.value| == |aggs|
                      && forall i :: 0 <= i < |aggs| ==> r.value[i] == Handled(aggs[i].0, aggs[i].1, filters).value)
  {
    var es := Entries(JObj(aggs));
    assert forall i :: 0 <= i < |es| ==> es[i] == (JStr(aggs[i].0), aggs[i].1);
    TraverseContents(es, HandleOne(filters));
  }

  lemma SelectedBucketsOfObject(attrs: Members, filters: seq<Json>)
    ensures SelectedBuckets(JObj(attrs), filters) == MarkAll(Values(Lookup(attrs, "buckets")), filters)
  {
  }

  /** The callback on one aggregation: tag it, mark its buckets, build the Aggregation. */
  method HandleAggregation(aggId: string, aggResult: Json, filters: seq<Json>) returns (a: Option<Json>)
    ensures a == Handled(aggId, aggResult, filters)
  {
    if !aggResult.JObj? && !aggResult.JArr? {
      return None;
    }
    var tagged := Tagged(aggId, ExtendCopy(aggResult), filters);
    if tagged.None? {
      return None;
    }
    var attrs := tagged.value;
    var buckets := SelectInBuckets(JObj(attrs), filters);
    SelectedBucketsOfObject(attrs, filters);
    if buckets.None? {
      return None;
    }
    a := Some(BuiltAggregation(attrs, buckets.value));
    assert a == HandledAttributes(attrs, filters);
  }

  /** The `_.map` over the result's aggregations with the query's filters. */
  method HandleAggregations(aggregations: Json, filters: seq<Json>) returns (r: Option<seq<Json>>)
    ensures r == HandledAll(aggregations, filters)
  {
    var es := Entries(aggregations);
    var done: seq<Json> := [];
    var i := 0;
    while i < |es|
      invariant 0 <= i <= |es|
      invariant Traverse(es[..i], HandleOne(filters)) == Some(done)
    {
      TraverseStep(es, HandleOne(filters), i);
      var a: Option<Json> := None;
      if es[i].0.JStr? {
        a := HandleAggregation(es[i].0.s, es[i].1, filters);
      }
      assert a == HandleOne(filters)(es[i]);
      if a.None? {
        TraverseFailsFrom(es, HandleOne(filters), i + 1);
        return None;
      }
      done := done + [a.value];
      i := i + 1;
    }
    assert es[..i] == es;
    return Some(done);
  }
}
