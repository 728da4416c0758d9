/**
 * The Aggregation model of src/model.js: one aggregation of a search
 * result.  Its attributes default to a `terms` aggregation with no buckets,
 * not selected; `initialize` then infers the kind of aggregation from the
 * keys of its first bucket, because the buckets Elasticsearch returns for a
 * date range, a range and a top-hits aggregation each carry their own keys.
 */
module Aggregations {
  import opened Wrappers
  import opened JsonValue
  import opened JsSemantics
  import opened QueryState

  /** The Aggregation defaults: `{_type: 'terms', selected: false, buckets: []}`. */
  const AggregationDefaults: Members :=
    [("_type", JStr("terms")), ("selected", JBool(false)), ("buckets", JArr([]))]

  /** `_.first(buckets)`: the element at index 0, undefined for undefined or null. */
  function FirstBucket(buckets: Json): Json
  {
    if Readable(buckets) then Get(buckets, "0") else JUndef
  }

  /**
   * The kind `initialize` reads off the first bucket's keys: `date_range`
   * for a `from_as_string` or `to_as_string`, else `range` for a `from` or
   * `to`, else `top_hits` for a `top_hits`; nothing without a first bucket or
   * with none of these keys.
   */
  function InferredKind(buckets: Json): (kind: Option<string>)
    ensures kind.Some? ==> kind.value in {"date_range", "range", "top_hits"}
  {
    var item := FirstBucket(buckets);
    if item.JUndef? then None else KindOfKeys(KeysOf(item))
  }

  /** The kind a bucket with these keys shows. */
  function KindOfKeys(keys: seq<string>): (kind: Option<string>)
    ensures kind.Some? ==> kind.value in {"date_range", "range", "top_hits"}
  {
    if "from_as_string" in keys || "to_as_string" in keys then Some("date_range")
    else if "from" in keys || "to" in keys then Some("range")
    else if "top_hits" in keys then Some("top_hits")
    else None
  }

  /** The attributes after construction: the defaults filled in, then `_type` set to the inferred kind. */
  function AggregationAttributes(attrs: Members): Members
  {
    var a := FillDefaults(attrs, AggregationDefaults);
    match InferredKind(Lookup(a, "buckets"))
    case Some(kind) => Put(a, "_type", JStr(kind))
    case None => a
  }

  /** The buckets an aggregation ends up with: its own when defined, else none. */
  function GivenBuckets(attrs: Members): Json
  {
    if Lookup(attrs, "buckets") != JUndef then Lookup(attrs, "buckets") else JArr([])
  }

  lemma AggregationDefaultsUnique()
    ensures UniqueKeys(AggregationDefaults) && Keys(AggregationDefaults) == ["_type", "selected", "buckets"]
  {
    assert Keys(AggregationDefaults) == ["_type", "selected", "buckets"];
  }

  /** Filling in the defaults: a defined value wins, every default key is present. */
  lemma FilledAggregationSpec(attrs: Members)
    ensures var a := FillDefaults(attrs, AggregationDefaults);
      && Lookup(a, "_type") == (if Lookup(attrs, "_type") != JUndef then Lookup(attrs, "_type") else JStr("terms"))
      && Lookup(a, "buckets") == GivenBuckets(attrs)
      && Lookup(a, "selected") == (if Lookup(attrs, "selected") != JUndef then Lookup(attrs, "selected") else JBool(false))
      && (forall k :: k != "_type" && k != "selected" && k != "buckets" ==> Lookup(a, k) == Lookup(attrs, k))
      && (forall k :: k in Keys(a) <==> k in Keys(attrs) || k in Keys(AggregationDefaults))
  {
    AggregationDefaultsUnique();
    FillDefaultsValues(attrs, AggregationDefaults);
    FillDefaultsKeys(attrs, AggregationDefaults);
  }

  /**
   * The kind of an aggregation is the one its first bucket shows; failing
   * that the `_type` it was given; failing that `terms`.  `selected` and
   * `buckets` default to false and none; every other attribute is kept, and
   * the keys are the given ones and the three defaults.
   */
  lemma AggregationAttributesSpec(attrs: Members)
    ensures var r := AggregationAttributes(attrs);
      && Lookup(r, "_type") == (match InferredKind(GivenBuckets(attrs))
                                case Some(kind) => JStr(kind)
                                case None => if Lookup(attrs, "_type") != JUndef then Lookup(attrs, "_type") else JStr("terms"))
      && Lookup(r, "buckets") == GivenBuckets(attrs)
      && Lookup(r, "selected") == (if Lookup(attrs, "selected") != JUndef then Lookup(attrs, "selected") else JBool(false))
      && (forall k :: k != "_type" && k != "selected" && k != "buckets" ==> Lookup(r, k) == Lookup(attrs, k))
      && (forall k :: k in Keys(r) <==> k in Keys(attrs) || k in Keys(AggregationDefaults))
  {
    FilledAggregationSpec(attrs);
    AggregationDefaultsUnique();
    assert "_type" in Keys(AggregationDefaults);
  }

  /** The first bucket of a list is its first element. */
  lemma FirstOfList(first: Json, rest: seq<Json>)
    ensures FirstBucket(JArr([first] + rest)) == first
  {
    assert ArrayIndex("0") == Some(0);
  }

  /** Only the first bucket is looked at. */
  lemma OnlyFirstBucketCounts(first: Json, rest: seq<Json>)
    ensures InferredKind(JArr([first] + rest)) == InferredKind(JArr([first]))
  {
    FirstOfList(first, rest);
    FirstOfList(first, []);
    assert [first] + [] == [first];
  }

  /** An empty list of buckets shows no kind. */
  lemma NoBucketsNoKind()
    ensures InferredKind(JArr([])) == None
  {
    assert ArrayIndex("0") == Some(0);
    assert FirstBucket(JArr([])) == JUndef;
  }

  /** An aggregation without buckets stays a `terms` aggregation unless it was given another kind. */
  lemma NoBucketsKeepsKind(attrs: Members)
    requires GivenBuckets(attrs) == JArr([])
    ensures Lookup(AggregationAttributes(attrs), "_type")
         == if Lookup(attrs, "_type") != JUndef then Lookup(attrs, "_type") else JStr("terms")
  {
    NoBucketsNoKind();
    AggregationAttributesSpec(attrs);
  }

  /**
   * Elasticsearch's date-range buckets carry `from`, `from_as_string`, `to`
   * and `to_as_string`; the text forms decide, so the kind is `date_range`.
   */
  lemma DateRangeBucket(key: Json, from: Json, to: Json, count: Json, rest: seq<Json>)
    ensures InferredKind(JArr([JObj([("key", key), ("from", from), ("from_as_string", JStr("2014-01-01")),
                                     ("to", to), ("to_as_string", JStr("2015-01-01")), ("doc_count", count)])] + rest))
         == Some("date_range")
  {
    var m := [("key", key), ("from", from), ("from_as_string", JStr("2014-01-01")),
              ("to", to), ("to_as_string", JStr("2015-01-01")), ("doc_count", count)];
    FirstOfList(JObj(m), rest);
    assert Keys(m)[2] == "from_as_string";
  }

  /** A numeric range bucket: `from` and `to` without text forms. */
  lemma RangeBucket(key: Json, from: Json, to: Json, count: Json, rest: seq<Json>)
    ensures InferredKind(JArr([JObj([("key", key), ("from", from), ("to", to), ("doc_count", count)])] + rest))
         == Some("range")
  {
    var m := [("key", key), ("from", from), ("to", to), ("doc_count", count)];
    FirstOfList(JObj(m), rest);
    assert Keys(m) == ["key", "from", "to", "doc_count"];
  }

  /** A terms bucket has only a key and a count: no kind is inferred, so the aggregation stays `terms`. */
  lemma TermsBucket(key: Json, count: Json, rest: seq<Json>)
    ensures InferredKind(JArr([JObj([("key", key), ("doc_count", count)])] + rest)) == None
  {
    var m := [("key", key), ("doc_count", count)];
    FirstOfList(JObj(m), rest);
    assert Keys(m) == ["key", "doc_count"];
  }
}
