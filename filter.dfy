/**
 * The filter encoder of the Elasticsearch table (`_convertFilter`): one Recline
 * filter object becomes one Elasticsearch filter clause.  The kind is read from
 * the filter's `type` key; the recognised kinds are term, terms, geo_distance,
 * range, date_range (compared with `===`) and type, exists, missing (compared
 * with `==`).  Any other kind yields `{kind: {}}` without an error.
 *
 * The encoder only ever reads a fixed set of properties of the filter; `Reads`
 * collects them, and the clause is a function of that record.
 */
module FilterCodec {
  import opened Wrappers
  import opened JsonValue
  import opened JsSemantics

  /** The branch of the encoder a filter's `type` value selects. */
  datatype Kind = Term | Terms | GeoDistance | Range | DateRange | TypeKind | Exists | Missing | Other

  /** The first five kinds are compared with `===`, the last three with `==`. */
  function KindOf(kind: Json): (k: Kind)
    ensures kind.JStr? ==> (k == Other <==> kind.s !in ["term", "terms", "geo_distance", "range", "date_range", "type", "exists", "missing"])
  {
    if kind == JStr("term") then Term
    else if kind == JStr("terms") then Terms
    else if kind == JStr("geo_distance") then GeoDistance
    else if kind == JStr("range") then Range
    else if kind == JStr("date_range") then DateRange
    else if LooseEq(kind, JStr("type")) then TypeKind
    else if LooseEq(kind, JStr("exists")) then Exists
    else if LooseEq(kind, JStr("missing")) then Missing
    else Other
  }

  /** Every property read the encoder makes; the `Option` ones are read only when present. */
  datatype Reads = Reads(
    kind: Json, field: Json, term: Json, terms: Json, execution: Option<Json>,
    point: Json, distance: Json, unit: Json, value: Json,
    from: Json, to: Json, includeLower: Option<Json>, includeUpper: Option<Json>)

  /** `filter[k]` when the filter has the own property `k`. */
  function Present(filter: Json, k: string): (r: Option<Json>)
    ensures r.Some? <==> HasOwn(filter, k)
    ensures r.Some? ==> r.value == Get(filter, k)
  {
    if HasOwn(filter, k) then Some(Get(filter, k)) else None
  }

  function ReadsOf(filter: Json): Reads
  {
    Reads(Get(filter, "type"), Get(filter, "field"), Get(filter, "term"), Get(filter, "terms"),
          Present(filter, "execution"), Get(filter, "point"), Get(filter, "distance"), Get(filter, "unit"),
          Get(filter, "value"), Get(filter, "from"), Get(filter, "to"),
          Present(filter, "include_lower"), Present(filter, "include_upper"))
  }

  /**
   * Whether a `from`/`to` bound is copied: for `range` the test is
   * `!_.isUndefined(x) && !isNaN(x) && x`; for `date_range` it is
   * `!_.isUndefined(x) && !_.isNaN(x) && x`, and `_.isNaN` holds only of the
   * number NaN, which none of the model's values is.  Either way a bound of 0
   * is falsy and dropped.
   */
  predicate BoundKept(x: Json, dateRange: bool)
  {
    !x.JUndef? && (dateRange || !IsNaN(x)) && Truthy(x)
  }

  /** `if (o !== None) out[k] = o's value`. */
  function PutPresent(m: Members, k: string, o: Option<Json>): Members
  {
    MaybePut(m, k, if o.Some? then o.value else JUndef, o.Some?)
  }

  /** The object built under `out.range[filter.field]`. */
  function RangeBody(r: Reads, dateRange: bool): Members
  {
    var b1 := MaybePut([], "from", r.from, BoundKept(r.from, dateRange));
    var b2 := MaybePut(b1, "to", r.to, BoundKept(r.to, dateRange));
    var b3 := PutPresent(b2, "include_lower", r.includeLower);
    PutPresent(b3, "include_upper", r.includeUpper)
  }

  /** The clause of one branch; `out` starts as `{kind: {}}`. */
  function ClauseFor(k: Kind, r: Reads): (c: Json)
    ensures c.JObj? && |c.members| >= 1
  {
    var f := PropKey(r.field);
    var out: Members := [(PropKey(r.kind), JObj([]))];
    match k
    case Term => JObj([("term", JObj([(f, r.term)]))])
    case Terms => JObj([("terms", JObj(PutPresent([(f, r.terms)], "execution", r.execution)))])
    case GeoDistance => JObj([("geo_distance", JObj(Put(Put([(f, r.point)], "distance", r.distance), "unit", r.unit)))])
    case Range => JObj([("range", JObj([(f, JObj(RangeBody(r, false)))]))])
    case DateRange => JObj([("date_range", JObj([])), ("range", JObj([(f, JObj(RangeBody(r, true)))]))])
    case TypeKind => JObj(Put(out, "type", JObj([("value", r.value)])))
    case Exists => JObj(Put(out, "exists", JObj([("field", r.field)])))
    case Missing => JObj(Put(out, "missing", JObj([("field", r.field)])))
    case Other => JObj(out)
  }

  /** The clause before the optional `not` wrapper. */
  function Clause(filter: Json): (c: Json)
    ensures c.JObj? && |c.members| >= 1
  {
    var r := ReadsOf(filter);
    ClauseFor(KindOf(r.kind), r)
  }

  /**
   * `_convertFilter(filter)`.  A truthy `not` wraps a JSON copy of the clause;
   * reading `filter.type` of undefined or null throws, hence the precondition.
   */
  function ConvertFilter(filter: Json): (r: Json)
    requires Readable(filter)
    ensures r.JObj? && |r.members| >= 1
    ensures Truthy(Get(filter, "not")) ==> Keys(r.members) == ["not"]
  {
    if Truthy(Get(filter, "not")) then JObj([("not", JsonCopy(Clause(filter)))]) else Clause(filter)
  }

  /** The filter object with its `not` key deleted. */
  function WithoutNot(filter: Json): Json
  {
    if filter.JObj? then JObj(Remove(filter.members, "not")) else filter
  }

  // ---------------------------------------------------------------- properties

  /** Without a truthy `not`, the encoding is the clause of the kind the `type` value selects. */
  lemma ConvertPlain(filter: Json)
    requires Readable(filter) && !Truthy(Get(filter, "not"))
    ensures ConvertFilter(filter) == ClauseFor(KindOf(Get(filter, "type")), ReadsOf(filter))
  {
  }

  /** A term filter `{type: 'term', field: f, term: v}` encodes to `{term: {f: v}}`. */
  lemma TermEncoding(filter: Json)
    requires Readable(filter) && Get(filter, "type") == JStr("term") && !Truthy(Get(filter, "not"))
    ensures ConvertFilter(filter) == JObj([("term", JObj([(PropKey(Get(filter, "field")), Get(filter, "term"))]))])
  {
    ConvertPlain(filter);
  }

  /** The literal case: `{type:'term', field:'color', term:'red'}` gives `{term: {color: 'red'}}`. */
  lemma TermEncodingExample()
    ensures ConvertFilter(JObj([("type", JStr("term")), ("field", JStr("color")), ("term", JStr("red"))]))
         == JObj([("term", JObj([("color", JStr("red"))]))])
  {
    var filter := JObj([("type", JStr("term")), ("field", JStr("color")), ("term", JStr("red"))]);
    assert Get(filter, "type") == JStr("term");
    assert Get(filter, "not") == JUndef;
    assert Get(filter, "field") == JStr("color");
    TermEncoding(filter);
  }

  /**
   * A geo_distance filter writes its point under the field name, then
   * `distance` and `unit`: `{geo_distance: {f: point, distance: d, unit: u}}`.
   */
  lemma GeoDistanceEncoding(filter: Json)
    requires Readable(filter) && Get(filter, "type") == JStr("geo_distance") && !Truthy(Get(filter, "not"))
    requires PropKey(Get(filter, "field")) !in ["distance", "unit"]
    ensures ConvertFilter(filter) == JObj([("geo_distance", JObj([
      (PropKey(Get(filter, "field")), Get(filter, "point")),
      ("distance", Get(filter, "distance")),
      ("unit", Get(filter, "unit"))]))])
  {
    ConvertPlain(filter);
    assert KindOf(Get(filter, "type")) == GeoDistance;
    GeoDistanceClause(ReadsOf(filter));
  }

  /** The geo_distance branch over what the encoder read. */
  lemma GeoDistanceClause(r: Reads)
    requires PropKey(r.field) !in ["distance", "unit"]
    ensures ClauseFor(GeoDistance, r) == JObj([("geo_distance", JObj([
      (PropKey(r.field), r.point), ("distance", r.distance), ("unit", r.unit)]))])
  {
    var f := PropKey(r.field);
    var m0 := [(f, r.point)];
    assert Keys(m0) == [f];
    PutNew(m0, "distance", r.distance);
    var m1 := m0 + [("distance", r.distance)];
    assert Keys(m1) == [f, "distance"];
    PutNew(m1, "unit", r.unit);
    assert m1 + [("unit", r.unit)] == [(f, r.point), ("distance", r.distance), ("unit", r.unit)];
  }

  /** The names the three loosely compared kinds are written with. */
  lemma KindNames()
    ensures KindOf(JStr("type")) == TypeKind && KindOf(JStr("exists")) == Exists && KindOf(JStr("missing")) == Missing
  {
    LooseEqStrings(JStr("type"), JStr("type"));
    LooseEqStrings(JStr("exists"), JStr("type"));
    LooseEqStrings(JStr("exists"), JStr("exists"));
    LooseEqStrings(JStr("missing"), JStr("type"));
    LooseEqStrings(JStr("missing"), JStr("exists"));
    LooseEqStrings(JStr("missing"), JStr("missing"));
  }

  /** A type filter encodes to `{type: {value: v}}`: the empty object first written under `type` is replaced. */
  lemma TypeEncoding(filter: Json)
    requires Readable(filter) && Get(filter, "type") == JStr("type") && !Truthy(Get(filter, "not"))
    ensures ConvertFilter(filter) == JObj([("type", JObj([("value", Get(filter, "value"))]))])
  {
    ConvertPlain(filter);
    KindNames();
    TypeClause(ReadsOf(filter));
  }

  /** The type branch over what the encoder read: `out.type` is replaced by a fresh object. */
  lemma TypeClause(r: Reads)
    requires r.kind == JStr("type")
    ensures ClauseFor(TypeKind, r) == JObj([("type", JObj([("value", r.value)]))])
  {
    assert PropKey(r.kind) == "type";
  }

  /** An exists filter encodes to `{exists: {field: f}}`, with the field value as given. */
  lemma ExistsEncoding(filter: Json)
    requires Readable(filter) && Get(filter, "type") == JStr("exists") && !Truthy(Get(filter, "not"))
    ensures ConvertFilter(filter) == JObj([("exists", JObj([("field", Get(filter, "field"))]))])
  {
    ConvertPlain(filter);
    KindNames();
    ExistsClause(ReadsOf(filter));
  }

  /** The exists branch over what the encoder read: `out.exists` is replaced by a fresh object. */
  lemma ExistsClause(r: Reads)
    requires r.kind == JStr("exists")
    ensures ClauseFor(Exists, r) == JObj([("exists", JObj([("field", r.field)]))])
  {
    assert PropKey(r.kind) == "exists";
  }

  /** A missing filter encodes to `{missing: {field: f}}`, with the field value as given. */
  lemma MissingEncoding(filter: Json)
    requires Readable(filter) && Get(filter, "type") == JStr("missing") && !Truthy(Get(filter, "not"))
    ensures ConvertFilter(filter) == JObj([("missing", JObj([("field", Get(filter, "field"))]))])
  {
    ConvertPlain(filter);
    KindNames();
    MissingClause(ReadsOf(filter));
  }

  /** The missing branch over what the encoder read: `out.missing` is replaced by a fresh object. */
  lemma MissingClause(r: Reads)
    requires r.kind == JStr("missing")
    ensures ClauseFor(Missing, r) == JObj([("missing", JObj([("field", r.field)]))])
  {
    assert PropKey(r.kind) == "missing";
  }

  /**
   * The five structured kinds are matched with `===`, the other three with
   * `==`: a one-element array `['exists']` selects the exists branch, while
   * `['term']` selects none.
   */
  lemma LooseKindMatchesArray()
    ensures KindOf(JArr([JStr("exists")])) == Exists
  {
    assert ToStr(JArr([JStr("exists")])) == "exists";
  }

  lemma StrictKindRejectsArray()
    ensures KindOf(JArr([JStr("term")])) == Other
  {
    assert ToStr(JArr([JStr("term")])) == "term";
  }

  /**
   * A terms filter writes its values under the field name, and `execution`
   * appears in the output exactly when the filter has an `execution` key.
   */
  lemma TermsExecution(filter: Json)
    requires Readable(filter) && Get(filter, "type") == JStr("terms") && !Truthy(Get(filter, "not"))
    requires PropKey(Get(filter, "field")) != "execution"
    ensures Keys(ConvertFilter(filter).members) == ["terms"]
    ensures var body := ConvertFilter(filter).members[0].1;
      && body.JObj?
      && Lookup(body.members, PropKey(Get(filter, "field"))) == Get(filter, "terms")
      && ("execution" in Keys(body.members) <==> HasOwn(filter, "execution"))
      && (HasOwn(filter, "execution") ==> Lookup(body.members, "execution") == Get(filter, "execution"))
  {
    ConvertPlain(filter);
    var r := ReadsOf(filter);
    var f := PropKey(r.field);
    var ex := if r.execution.Some? then r.execution.value else JUndef;
    MaybePutAt([(f, r.terms)], "execution", ex, r.execution.Some?, f);
    MaybePutAt([(f, r.terms)], "execution", ex, r.execution.Some?, "execution");
  }

  /** The bound object both range kinds place under `range.<field>`. */
  function RangeOutput(filter: Json): (body: Json)
    requires Readable(filter)
  {
    Member(Member(ConvertFilter(filter), "range"), PropKey(Get(filter, "field")))
  }

  /** The range kinds are recognised by their names. */
  lemma RangeKindNames()
    ensures KindOf(JStr("range")) == Range && KindOf(JStr("date_range")) == DateRange
  {
    assert |"range"| == 5 && |"date_range"| == 10;
  }

  /** Both range clauses hold the bound object under `range.<field>`. */
  lemma RangeClauseBody(r: Reads, dateRange: bool)
    ensures Member(Member(ClauseFor(if dateRange then DateRange else Range, r), "range"), PropKey(r.field))
         == JObj(RangeBody(r, dateRange))
  {
    var body := JObj([(PropKey(r.field), JObj(RangeBody(r, dateRange)))]);
    if dateRange {
      var m := [("date_range", JObj([])), ("range", body)];
      assert UniqueKeys(m);
      LookupAt(m, 1);
    }
  }

  /** Both range kinds place the bound object under `range.<field>`. */
  lemma RangeOutputIsBody(filter: Json, dateRange: bool)
    requires Readable(filter) && !Truthy(Get(filter, "not"))
    requires Get(filter, "type") == JStr(if dateRange then "date_range" else "range")
    ensures RangeOutput(filter) == JObj(RangeBody(ReadsOf(filter), dateRange))
  {
    ConvertPlain(filter);
    RangeKindNames();
    RangeClauseBody(ReadsOf(filter), dateRange);
  }

  /**
   * `from` and `to` appear in the bound object exactly when they pass the
   * bound test (so a bound of 0 never appears), with their own values, and
   * `include_lower`/`include_upper` exactly when the filter has them.
   */
  lemma RangeBoundsCopied(filter: Json, dateRange: bool)
    ensures var b := RangeBody(ReadsOf(filter), dateRange);
      && ("from" in Keys(b) <==> BoundKept(Get(filter, "from"), dateRange))
      && ("to" in Keys(b) <==> BoundKept(Get(filter, "to"), dateRange))
      && ("include_lower" in Keys(b) <==> HasOwn(filter, "include_lower"))
      && ("include_upper" in Keys(b) <==> HasOwn(filter, "include_upper"))
      && (BoundKept(Get(filter, "from"), dateRange) ==> Lookup(b, "from") == Get(filter, "from"))
      && (BoundKept(Get(filter, "to"), dateRange) ==> Lookup(b, "to") == Get(filter, "to"))
      && (HasOwn(filter, "include_lower") ==> Lookup(b, "include_lower") == Get(filter, "include_lower"))
      && (HasOwn(filter, "include_upper") ==> Lookup(b, "include_upper") == Get(filter, "include_upper"))
  {
    var r := ReadsOf(filter);
    var lower := if r.includeLower.Some? then r.includeLower.value else JUndef;
    var upper := if r.includeUpper.Some? then r.includeUpper.value else JUndef;
    var b1 := MaybePut([], "from", r.from, BoundKept(r.from, dateRange));
    var b2 := MaybePut(b1, "to", r.to, BoundKept(r.to, dateRange));
    var b3 := PutPresent(b2, "include_lower", r.includeLower);
    BoundSteps(r, dateRange, b1, b2, b3, lower, upper, "from");
    BoundSteps(r, dateRange, b1, b2, b3, lower, upper, "to");
    BoundSteps(r, dateRange, b1, b2, b3, lower, upper, "include_lower");
    BoundSteps(r, dateRange, b1, b2, b3, lower, upper, "include_upper");
  }

  /** The four assignments of the bound object, followed for one key `x`. */
  lemma BoundSteps(r: Reads, dateRange: bool, b1: Members, b2: Members, b3: Members, lower: Json, upper: Json, x: string)
    requires b1 == MaybePut([], "from", r.from, BoundKept(r.from, dateRange))
    requires b2 == MaybePut(b1, "to", r.to, BoundKept(r.to, dateRange))
    requires lower == (if r.includeLower.Some? then r.includeLower.value else JUndef)
    requires upper == (if r.includeUpper.Some? then r.includeUpper.value else JUndef)
    requires b3 == MaybePut(b2, "include_lower", lower, r.includeLower.Some?)
    ensures var b := RangeBody(r, dateRange);
      && (x in Keys(b) <==> (x == "from" && BoundKept(r.from, dateRange)) || (x == "to" && BoundKept(r.to, dateRange))
                            || (x == "include_lower" && r.includeLower.Some?) || (x == "include_upper" && r.includeUpper.Some?))
      && Lookup(b, x) == if x == "include_upper" && r.includeUpper.Some? then upper
                         else if x == "include_lower" && r.includeLower.Some? then lower
                         else if x == "to" && BoundKept(r.to, dateRange) then r.to
                         else if x == "from" && BoundKept(r.from, dateRange) then r.from
                         else JUndef
  {
    MaybePutAt([], "from", r.from, BoundKept(r.from, dateRange), x);
    MaybePutAt(b1, "to", r.to, BoundKept(r.to, dateRange), x);
    MaybePutAt(b2, "include_lower", lower, r.includeLower.Some?, x);
    MaybePutAt(b3, "include_upper", upper, r.includeUpper.Some?, x);
  }

  /** A range bound of 0 is dropped (the falsy test), whichever range kind. */
  lemma ZeroBoundDropped(filter: Json, dateRange: bool)
    requires Get(filter, "from") == JNum(0)
    ensures "from" !in Keys(RangeBody(ReadsOf(filter), dateRange))
  {
    RangeBoundsCopied(filter, dateRange);
  }

  /**
   * The two range kinds differ on a non-numeric bound: `range` drops the
   * string "soon" (isNaN converts it), `date_range` keeps it.
   */
  lemma NonNumericBound()
    ensures !BoundKept(JStr("soon"), false)
    ensures BoundKept(JStr("soon"), true)
  {
    WordIsNaN("soon");
  }

  /** A `date_range` filter also leaves an empty `date_range` key before `range`. */
  lemma DateRangeKeepsEmptyKey(filter: Json)
    requires Readable(filter) && Get(filter, "type") == JStr("date_range") && !Truthy(Get(filter, "not"))
    ensures Keys(ConvertFilter(filter).members) == ["date_range", "range"]
    ensures ConvertFilter(filter).members[0].1 == JObj([])
  {
    ConvertPlain(filter);
    RangeKindNames();
    assert ConvertFilter(filter) == ClauseFor(DateRange, ReadsOf(filter));
    DateRangeClauseKeys(ReadsOf(filter));
  }

  /** The date_range branch over what the encoder read: an empty `date_range`, then `range`. */
  lemma DateRangeClauseKeys(r: Reads)
    ensures Keys(ClauseFor(DateRange, r).members) == ["date_range", "range"]
    ensures ClauseFor(DateRange, r).members[0].1 == JObj([])
  {
  }

  /** An unrecognised kind yields `{kind: {}}`, and no error. */
  lemma UnknownKind(filter: Json)
    requires Readable(filter) && !Truthy(Get(filter, "not"))
    requires KindOf(Get(filter, "type")) == Other
    ensures ConvertFilter(filter) == JObj([(PropKey(Get(filter, "type")), JObj([]))])
  {
    ConvertPlain(filter);
    var r := ReadsOf(filter);
    assert ConvertFilter(filter) == ClauseFor(Other, r);
    OtherClause(r);
  }

  /** The fall-through over what the encoder read: only `out[kind] = {}` was written. */
  lemma OtherClause(r: Reads)
    ensures ClauseFor(Other, r) == JObj([(PropKey(r.kind), JObj([]))])
  {
  }

  /** Deleting `not` leaves every other key's value, and presence, as it was. */
  lemma WithoutNotReads(filter: Json, k: string)
    requires Readable(filter) && k != "not"
    ensures Readable(WithoutNot(filter))
    ensures Get(WithoutNot(filter), k) == Get(filter, k)
    ensures HasOwn(WithoutNot(filter), k) == HasOwn(filter, k)
  {
    if filter.JObj? {
      var r := Remove(filter.members, "not");
      assert Lookup(r, k) == Lookup(filter.members, k);
    }
  }

  /**
   * A truthy `not` gives `{not: X}`, where X is the JSON copy of the encoding
   * of the same filter without `not`.
   */
  lemma NotWrapsPlainEncoding(filter: Json)
    requires Readable(filter) && Truthy(Get(filter, "not"))
    ensures Readable(WithoutNot(filter)) && !Truthy(Get(WithoutNot(filter), "not"))
    ensures ConvertFilter(filter) == JObj([("not", JsonCopy(ConvertFilter(WithoutNot(filter))))])
  {
    var g := WithoutNot(filter);
    WithoutNotSameReads(filter);
    assert Clause(g) == Clause(filter);
  }

  /** Deleting `not` changes none of the properties the encoder reads, and leaves `not` undefined. */
  lemma WithoutNotSameReads(filter: Json)
    requires Readable(filter)
    ensures Readable(WithoutNot(filter)) && Get(WithoutNot(filter), "not") == JUndef
    ensures ReadsOf(WithoutNot(filter)) == ReadsOf(filter)
  {
    if filter.JObj? {
      var m := filter.members;
      KeptRead(m, "type");
      KeptRead(m, "field");
      KeptRead(m, "term");
      KeptRead(m, "terms");
      KeptRead(m, "execution");
      KeptRead(m, "point");
      KeptRead(m, "distance");
      KeptRead(m, "unit");
      KeptRead(m, "value");
      KeptRead(m, "from");
      KeptRead(m, "to");
      KeptRead(m, "include_lower");
      KeptRead(m, "include_upper");
    }
  }

  /** Deleting `not` leaves what any other property reads as. */
  lemma KeptRead(m: Members, k: string)
    requires k != "not"
    ensures Get(JObj(Remove(m, "not")), k) == Get(JObj(m), k)
    ensures Present(JObj(Remove(m, "not")), k) == Present(JObj(m), k)
  {
  }

  /** When that encoding holds no undefined value, X is the encoding itself. */
  lemma NotWrapsExactEncoding(filter: Json)
    requires Readable(filter) && Truthy(Get(filter, "not"))
    requires Readable(WithoutNot(filter)) && Defined(ConvertFilter(WithoutNot(filter)))
    ensures ConvertFilter(filter) == JObj([("not", ConvertFilter(WithoutNot(filter)))])
  {
    NotWrapsPlainEncoding(filter);
    JsonCopyOfDefined(ConvertFilter(WithoutNot(filter)));
  }
}
