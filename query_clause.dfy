/**
 * The query part of the Elasticsearch request (`_normalizeQuery`): the core
 * clause (a query_string, an ids lookup or match_all), the bool term clauses
 * appended to it, and the `filtered`/`and` envelope around it when the query
 * state carries filters.
 *
 * Each step is a function returning `None` where the library throws a
 * TypeError; `NormalizeQuery` and its helper methods perform the same steps
 * with the loops the library runs, and are proved equal to the functions.
 */
module QueryClause {
  import opened Wrappers
  import opened JsonValue
  import opened JsSemantics
  import FilterCodec
  import opened AggregationKeys

  // ---------------------------------------------------------------- the query state as read

  /**
   * `queryObj.toJSON ? queryObj.toJSON() : _.extend({}, queryObj)`.  Values in
   * this model are data, never functions, so a truthy `toJSON` is not callable
   * and the call throws.
   */
  function QueryInfo(queryObj: Json): (r: Option<Members>)
    ensures r.Some? <==> !(Truthy(queryObj) && Truthy(Get(queryObj, "toJSON")))
    ensures r.Some? ==> Keys(r.value) == KeysOf(queryObj)
  {
    if Truthy(queryObj) && Truthy(Get(queryObj, "toJSON")) then None else Some(ExtendCopy(queryObj))
  }

  // ---------------------------------------------------------------- the core clause

  /** The options every query_string clause carries, after `query` and `fields`. */
  const QueryStringOptions: Members :=
    [("lenient", JBool(true)), ("use_dis_max", JBool(true)), ("fuzziness", JNum(2)),
     ("analyzer", JStr("custom_analyzer_combo"))]

  /** `{query_string: {query: q, fields?, lenient, use_dis_max, fuzziness, analyzer}}`. */
  function QueryString(q: Json, fields: Option<seq<Json>>): Json
  {
    var head := [("query", q)] + (if fields.Some? then [("fields", JArr(fields.value))] else []);
    JObj([("query_string", JObj(head + QueryStringOptions))])
  }

  /** One entry of `query_string.fields`: `field^boost` when the boost is truthy and above zero. */
  function BoostedField(boostField: Json): Json
    requires Readable(boostField)
  {
    var field := Get(boostField, "field");
    var boost := Get(boostField, "boost");
    if Truthy(boost) && GreaterThanZero(boost) then JStr(ToStr(field) + "^" + ToStr(boost)) else field
  }

  /** `_.map(boostFields, ...)`; reading `.field` of a hole or of null throws. */
  function BoostedFields(boostFields: Json): (r: Option<seq<Json>>)
    ensures r.Some? <==> forall i :: 0 <= i < |Values(boostFields)| ==> Readable(Values(boostFields)[i])
    ensures r.Some? ==> |r.value| == |Values(boostFields)|
  {
    var vs := Values(boostFields);
    if forall i :: 0 <= i < |vs| ==> Readable(vs[i]) then
      Some(seq(|vs|, i requires 0 <= i < |vs| => BoostedField(vs[i])))
    else None
  }

  /** `{term: {[arg.field]: arg.value}}`. */
  function TermClause(arg: Json): Json
    requires Readable(arg)
  {
    JObj([("term", JObj([(PropKey(Get(arg, "field")), Get(arg, "value"))]))])
  }

  /** One `_.each` step: a term clause, or a TypeError for an undefined or null value. */
  function TermClauseOf(v: Json): Option<Json>
  {
    if Readable(v) then Some(TermClause(v)) else None
  }

  /** The term clauses of the values `_.each` visits in `args`. */
  function TermClauses(args: Json): Option<seq<Json>>
  {
    Traverse(Values(args), TermClauseOf)
  }


  /** The three clause lists of a bool query and whether `minimum_should_match: 1` was set. */
  datatype BoolQuery = BoolQuery(must: seq<Json>, mustNot: seq<Json>, should: seq<Json>, minimumShouldMatch: bool)

  function BoolJson(b: BoolQuery): Json
  {
    JObj([("bool", JObj(
      [("must", JArr(b.must)), ("must_not", JArr(b.mustNot)), ("should", JArr(b.should))]
      + (if b.minimumShouldMatch then [("minimum_should_match", JNum(1))] else [])))])
  }

  /**
   * The `booleanize` step: with a truthy `queryObj.bool`, the term clauses of
   * its `must`, `should` and `must_not` lists are appended to the matching
   * lists, and `minimum_should_match` is set.
   */
  function Booleanize(b: BoolQuery, spec: Json): Option<BoolQuery>
  {
    if !Truthy(spec) then Some(b)
    else
      var must :- TermClauses(Get(spec, "must"));
      var should :- TermClauses(Get(spec, "should"));
      var mustNot :- TermClauses(Get(spec, "must_not"));
      Some(BoolQuery(b.must + must, b.mustNot + mustNot, b.should + should, true))
  }

  /** `queryObj.bool` is read on the raw argument, which throws when it is undefined or null. */
  function BooleanizeFrom(queryObj: Json, b: BoolQuery): Option<BoolQuery>
  {
    if !Readable(queryObj) then None else Booleanize(b, Get(queryObj, "bool"))
  }

  /** Which core clause is built: a truthy `q` is checked first, then `ids`. */
  datatype Choice = ByString | ByIds | ByMatchAll

  function ChoiceOf(info: Members): Choice
  {
    if Truthy(Lookup(info, "q")) then ByString
    else if Truthy(Lookup(info, "ids")) then ByIds
    else ByMatchAll
  }

  const MatchAll: Json := JObj([("match_all", JObj([]))])

  function IdsQuery(ids: Json): Json
  {
    JObj([("ids", JObj([("values", ids)]))])
  }

  /** The `fields` of the query_string: present iff `boostFields` is truthy. */
  function StringFields(info: Members): Option<Option<seq<Json>>>
  {
    var boostFields := Lookup(info, "boostFields");
    if !Truthy(boostFields) then Some(None)
    else
      var fields :- BoostedFields(boostFields);
      Some(Some(fields))
  }

  /** The clause before any filter envelope (the variable `query`). */
  function CoreClause(queryObj: Json, info: Members): Option<Json>
  {
    match ChoiceOf(info)
    case ByIds => Some(IdsQuery(Lookup(info, "ids")))
    case ByString =>
      var fields :- StringFields(info);
      var b :- BooleanizeFrom(queryObj, BoolQuery([QueryString(Lookup(info, "q"), fields)], [], [], false));
      Some(BoolJson(b))
    case ByMatchAll =>
      var b :- BooleanizeFrom(queryObj, BoolQuery([MatchAll], [], [], false));
      Some(BoolJson(b))
  }

  // ---------------------------------------------------------------- filters

  /** `queryInfo.filters && queryInfo.filters.length`. */
  predicate HasFilters(info: Members)
  {
    var filters := Lookup(info, "filters");
    Truthy(filters) && Truthy(Get(filters, "length"))
  }

  /**
   * The date_range format lookup `queryInfo.aggs[field.replace(/\./g, '_')].date_range.format`
   * gets as far as reading `format` (`replace` exists only on strings).
   */
  predicate FormatLookupSucceeds(info: Members, filter: Json)
  {
    var field := Get(filter, "field");
    var aggs := Lookup(info, "aggs");
    field.JStr? && Readable(aggs)
    && Readable(Get(aggs, AggKey(field.s)))
    && Readable(Get(Get(aggs, AggKey(field.s)), "date_range"))
  }

  /**
   * Whether encoding one filter of the envelope gets through: reading
   * `filter.type` of null or undefined throws, and so does a failed format lookup.
   */
  predicate FilterAccepted(info: Members, filter: Json)
  {
    Readable(filter)
    && (LooseEq(Get(filter, "type"), JStr("date_range")) ==> FormatLookupSucceeds(info, filter))
  }

  /** The `and` list: every filter encoded, in input order. */
  function EncodeFilters(info: Members, filters: seq<Json>): Option<seq<Json>>
  {
    Traverse(filters, AcceptFilter(info))
  }

  /** One `_.each` step over the filters: the encoded filter, or the TypeError it raises. */
  function AcceptFilter(info: Members): Json -> Option<Json>
  {
    filter => if FilterAccepted(info, filter) then Some(FilterCodec.ConvertFilter(filter)) else None
  }

  /** The encoding exists exactly when every filter is accepted, and then it holds each filter's clause, in order. */
  lemma EncodeFiltersContents(info: Members, filters: seq<Json>)
    ensures EncodeFilters(info, filters).Some? <==> forall i :: 0 <= i < |filters| ==> FilterAccepted(info, filters[i])
    ensures EncodeFilters(info, filters).Some? ==> |EncodeFilters(info, filters).value| == |filters|
    ensures EncodeFilters(info, filters).Some? ==> forall i :: 0 <= i < |filters| ==>
      FilterAccepted(info, filters[i]) && EncodeFilters(info, filters).value[i] == FilterCodec.ConvertFilter(filters[i])
  {
    TraverseContents(filters, AcceptFilter(info));
  }




  /** `{filtered: {filter: {and: encoded}, query?}}`. */
  function Envelope(encoded: seq<Json>, query: Option<Json>): Json
  {
    JObj([("filtered", JObj(
      [("filter", JObj([("and", JArr(encoded))]))]
      + (if query.Some? then [("query", query.value)] else [])))])
  }

  /** The variable `out`: the core clause, or the filter envelope around it. */
  function WrapFilters(info: Members, query: Json): Option<Json>
  {
    if HasFilters(info) then
      var encoded :- EncodeFilters(info, Values(Lookup(info, "filters")));
      var keepQuery := Truthy(Lookup(info, "q")) || Truthy(Lookup(info, "ids"));
      Some(Envelope(encoded, if keepQuery then Some(query) else None))
    else Some(query)
  }

  /** `_normalizeQuery(queryObj)`. */
  function NormalizeQuerySpec(queryObj: Json): (r: Option<Json>)
    ensures QueryInfo(queryObj).None? ==> r.None?
    ensures r.Some? && HasFilters(QueryInfo(queryObj).value) ==> r.value.JObj? && Keys(r.value.members) == ["filtered"]
    ensures r.Some? && !HasFilters(QueryInfo(queryObj).value) ==> CoreClause(queryObj, QueryInfo(queryObj).value) == r
  {
    var info :- QueryInfo(queryObj);
    var query :- CoreClause(queryObj, info);
    WrapFilters(info, query)
  }

  // ---------------------------------------------------------------- the steps as the library runs them

  /** `_.each(args, function (arg) { ...; list.push({term: tuple}); })`. */
  method PushTermClauses(list: seq<Json>, args: Json) returns (r: Option<seq<Json>>)
    ensures TermClauses(args).None? ==> r.None?
    ensures TermClauses(args).Some? ==> r == Some(list + TermClauses(args).value)
  {
    var pushed := TermClausesOf(Values(args));
    if pushed.None? {
      return None;
    }
    return Some(list + pushed.value);
  }

  /** The loop of `PushTermClauses`, one value at a time. */
  method TermClausesOf(vs: seq<Json>) returns (r: Option<seq<Json>>)
    ensures r == Traverse(vs, TermClauseOf)
  {
    var pushed: seq<Json> := [];
    var i := 0;
    while i < |vs|
      invariant 0 <= i <= |vs|
      invariant Traverse(vs[..i], TermClauseOf) == Some(pushed)
    {
      if !Readable(vs[i]) {
        TraverseContents(vs, TermClauseOf);
        return None;
      }
      assert vs[..i + 1][..i] == vs[..i];
      pushed := pushed + [TermClause(vs[i])];
      i := i + 1;
    }
    assert vs[..i] == vs;
    return Some(pushed);
  }


  /** The `booleanize` block, pushing into the three lists in the library's order. */
  method BooleanizeQuery(queryObj: Json, b: BoolQuery) returns (r: Option<BoolQuery>)
    ensures r == BooleanizeFrom(queryObj, b)
  {
    if !Readable(queryObj) {
      return None;
    }
    var spec := Get(queryObj, "bool");
    if !Truthy(spec) {
      return Some(b);
    }
    var must := PushTermClauses(b.must, Get(spec, "must"));
    if must.None? {
      return None;
    }
    var should := PushTermClauses(b.should, Get(spec, "should"));
    if should.None? {
      return None;
    }
    var mustNot := PushTermClauses(b.mustNot, Get(spec, "must_not"));
    if mustNot.None? {
      return None;
    }
    return Some(BoolQuery(must.value, mustNot.value, should.value, true));
  }

  /** The `and` list, filled by `_.each(queryInfo.filters, ...)`. */
  method PushFilters(info: Members, filters: seq<Json>) returns (r: Option<seq<Json>>)
    ensures r == EncodeFilters(info, filters)
  {
    var and: seq<Json> := [];
    var i := 0;
    while i < |filters|
      invariant 0 <= i <= |filters|
      invariant EncodeFilters(info, filters[..i]) == Some(and)
    {
      if !FilterAccepted(info, filters[i]) {
        EncodeFiltersContents(info, filters);
        return None;
      }
      assert filters[..i + 1][..i] == filters[..i];
      and := and + [FilterCodec.ConvertFilter(filters[i])];
      i := i + 1;
    }
    assert filters[..i] == filters;
    return Some(and);
  }


  /** `_normalizeQuery(queryObj)` as the library runs it. */
  method NormalizeQuery(queryObj: Json) returns (r: Option<Json>)
    ensures r == NormalizeQuerySpec(queryObj)
  {
    var queryInfo := QueryInfo(queryObj);
    if queryInfo.None? {
      return None;
    }
    var info := queryInfo.value;
    var query: Json;
    match ChoiceOf(info) {
      case ByIds =>
        query := IdsQuery(Lookup(info, "ids"));
      case ByString =>
        var fields := StringFields(info);
        if fields.None? {
          return None;
        }
        var b := BooleanizeQuery(queryObj, BoolQuery([QueryString(Lookup(info, "q"), fields.value)], [], [], false));
        if b.None? {
          return None;
        }
        query := BoolJson(b.value);
      case ByMatchAll =>
        var b := BooleanizeQuery(queryObj, BoolQuery([MatchAll], [], [], false));
        if b.None? {
          return None;
        }
        query := BoolJson(b.value);
    }
    assert CoreClause(queryObj, info) == Some(query);
    if !HasFilters(info) {
      return Some(query);
    }
    var and := PushFilters(info, Values(Lookup(info, "filters")));
    if and.None? {
      return None;
    }
    if Truthy(Lookup(info, "q")) || Truthy(Lookup(info, "ids")) {
      return Some(Envelope(and.value, Some(query)));
    }
    return Some(Envelope(and.value, None));
  }

  // ---------------------------------------------------------------- properties

  /** What a query_string clause for `q` carries, whatever its fields. */
  predicate IsQueryStringFor(clause: Json, q: Json)
  {
    var qs := Member(clause, "query_string");
    Member(qs, "query") == q && Member(qs, "lenient") == JBool(true) && Member(qs, "use_dis_max") == JBool(true)
    && Member(qs, "fuzziness") == JNum(2) && Member(qs, "analyzer") == JStr("custom_analyzer_combo")
  }

  /** The query_string clause carries the fixed options, and `fields` exactly when boost fields were given. */
  lemma QueryStringShape(q: Json, fields: Option<seq<Json>>)
    ensures IsQueryStringFor(QueryString(q, fields), q)
    ensures var qs := Member(QueryString(q, fields), "query_string");
      && (HasMember(qs, "fields") <==> fields.Some?)
      && (fields.Some? ==> Member(qs, "fields") == JArr(fields.value))
  {
    if fields.Some? {
      QueryStringWithFields(q, fields.value);
    } else {
      QueryStringWithoutFields(q);
    }
  }

  lemma QueryStringWithFields(q: Json, fields: seq<Json>)
    ensures IsQueryStringFor(QueryString(q, Some(fields)), q)
    ensures var qs := Member(QueryString(q, Some(fields)), "query_string");
      HasMember(qs, "fields") && Member(qs, "fields") == JArr(fields)
  {
    var m := Member(QueryString(q, Some(fields)), "query_string").members;
    assert m == [("query", q), ("fields", JArr(fields))] + QueryStringOptions;
    assert UniqueKeys(m);
    LookupAt(m, 0);
    LookupAt(m, 1);
    LookupAt(m, 2);
    LookupAt(m, 3);
    LookupAt(m, 4);
    LookupAt(m, 5);
    assert Keys(m)[1] == "fields";
  }

  lemma QueryStringWithoutFields(q: Json)
    ensures IsQueryStringFor(QueryString(q, None), q)
    ensures !HasMember(Member(QueryString(q, None), "query_string"), "fields")
  {
    var m := Member(QueryString(q, None), "query_string").members;
    assert m == [("query", q)] + QueryStringOptions;
    assert UniqueKeys(m);
    LookupAt(m, 0);
    LookupAt(m, 1);
    LookupAt(m, 2);
    LookupAt(m, 3);
    LookupAt(m, 4);
    NoFieldsKey(q);
  }

  lemma NoFieldsKey(q: Json)
    ensures "fields" !in Keys([("query", q)] + QueryStringOptions)
  {
    assert Keys([("query", q)] + QueryStringOptions) == ["query", "lenient", "use_dis_max", "fuzziness", "analyzer"];
  }

  /**
   * A boost field with a numeric boost renders as `field^boost` exactly when the
   * boost is above zero; without a boost it renders as the bare field.
   */
  lemma BoostRendering(boostField: Json)
    requires Readable(boostField)
    ensures var field := Get(boostField, "field");
      var boost := Get(boostField, "boost");
      && (boost.JNum? ==>
            BoostedField(boostField) == if boost.n > 0 then JStr(ToStr(field) + "^" + IntToString(boost.n)) else field)
      && (boost.JUndef? ==> BoostedField(boostField) == field)
  {
  }

  /** `{field: 'title', boost: 2}` renders as `title^2`, `{field: 'body', boost: 0}` as `body`. */
  lemma BoostRenderingExamples()
    ensures BoostedField(JObj([("field", JStr("title")), ("boost", JNum(2))])) == JStr("title^2")
    ensures BoostedField(JObj([("field", JStr("body")), ("boost", JNum(0))])) == JStr("body")
  {
    BoostRendering(JObj([("field", JStr("title")), ("boost", JNum(2))]));
    assert IntToString(2) == "2";
  }

  /**
   * With a truthy `q` the core clause is a bool query whose first `must` clause
   * is the query_string for `q`, whether or not `ids` is also set; its `fields`
   * are the rendered boost fields when `boostFields` is truthy.
   */
  lemma StringCoreClause(queryObj: Json, info: Members)
    requires Truthy(Lookup(info, "q")) && CoreClause(queryObj, info).Some?
    ensures var must := Member(Member(CoreClause(queryObj, info).value, "bool"), "must");
      && must.JArr? && |must.items| >= 1 && IsQueryStringFor(must.items[0], Lookup(info, "q"))
      && (HasMember(Member(must.items[0], "query_string"), "fields") <==> Truthy(Lookup(info, "boostFields")))
      && (Truthy(Lookup(info, "boostFields")) ==>
            Member(Member(must.items[0], "query_string"), "fields") == JArr(BoostedFields(Lookup(info, "boostFields")).value))
    ensures !HasMember(CoreClause(queryObj, info).value, "ids")
  {
    var fields := StringFields(info).value;
    var b := StringBoolQuery(queryObj, info);
    QueryStringShape(Lookup(info, "q"), fields);
    BoolJsonLists(b);
  }

  /** The bool query of the query_string branch, first `must` clause included. */
  lemma StringBoolQuery(queryObj: Json, info: Members) returns (b: BoolQuery)
    requires Truthy(Lookup(info, "q")) && CoreClause(queryObj, info).Some?
    ensures StringFields(info).Some?
    ensures CoreClause(queryObj, info).value == BoolJson(b)
    ensures |b.must| >= 1 && b.must[0] == QueryString(Lookup(info, "q"), StringFields(info).value)
    ensures StringFields(info).value.Some? <==> Truthy(Lookup(info, "boostFields"))
    ensures Truthy(Lookup(info, "boostFields")) ==>
      StringFields(info).value == Some(BoostedFields(Lookup(info, "boostFields")).value)
  {
    assert ChoiceOf(info) == ByString;
    assert StringFields(info).Some?;
    var b0 := BoolQuery([QueryString(Lookup(info, "q"), StringFields(info).value)], [], [], false);
    assert BooleanizeFrom(queryObj, b0).Some?;
    b := BooleanizeFrom(queryObj, b0).value;
    assert CoreClause(queryObj, info) == Some(BoolJson(b));
    BooleanizeKeepsPrefix(queryObj, b0);
    assert b.must[0] == b.must[..|b0.must|][0] == b0.must[0];
  }

  /** Without `q`, a truthy `ids` gives `{ids: {values: ids}}`, and `queryObj.bool` is never read. */
  lemma IdsCoreClause(queryObj: Json, info: Members)
    requires !Truthy(Lookup(info, "q")) && Truthy(Lookup(info, "ids"))
    ensures CoreClause(queryObj, info) == Some(JObj([("ids", JObj([("values", Lookup(info, "ids"))]))]))
  {
  }

  /** Without `q` and `ids`, the core clause is a bool query whose first `must` clause is `match_all`. */
  lemma MatchAllCoreClause(queryObj: Json, info: Members)
    requires !Truthy(Lookup(info, "q")) && !Truthy(Lookup(info, "ids")) && CoreClause(queryObj, info).Some?
    ensures var must := Member(Member(CoreClause(queryObj, info).value, "bool"), "must");
      must.JArr? && |must.items| >= 1 && must.items[0] == JObj([("match_all", JObj([]))])
  {
    var b := MatchAllBoolQuery(queryObj, info);
    BoolJsonLists(b);
  }

  lemma MatchAllBoolQuery(queryObj: Json, info: Members) returns (b: BoolQuery)
    requires !Truthy(Lookup(info, "q")) && !Truthy(Lookup(info, "ids")) && CoreClause(queryObj, info).Some?
    ensures CoreClause(queryObj, info).value == BoolJson(b)
    ensures |b.must| >= 1 && b.must[0] == MatchAll
  {
    assert ChoiceOf(info) == ByMatchAll;
    var b0 := BoolQuery([MatchAll], [], [], false);
    b := BooleanizeFrom(queryObj, b0).value;
    assert CoreClause(queryObj, info) == Some(BoolJson(b));
    BooleanizeKeepsPrefix(queryObj, b0);
    assert b.must[0] == b.must[..|b0.must|][0] == b0.must[0];
  }

  /** Reading the three lists and `minimum_should_match` back out of a bool query. */
  lemma BoolJsonLists(b: BoolQuery)
    ensures var body := Member(BoolJson(b), "bool");
      && Member(body, "must") == JArr(b.must) && Member(body, "must_not") == JArr(b.mustNot)
      && Member(body, "should") == JArr(b.should)
  {
    var m := Member(BoolJson(b), "bool").members;
    assert m[0] == ("must", JArr(b.must)) && m[1] == ("must_not", JArr(b.mustNot)) && m[2] == ("should", JArr(b.should));
    assert UniqueKeys(m);
    LookupAt(m, 0);
    LookupAt(m, 1);
    LookupAt(m, 2);
  }

  /** `minimum_should_match: 1` is in the bool query exactly when it was set. */
  lemma BoolJsonMinimumShouldMatch(b: BoolQuery)
    ensures var body := Member(BoolJson(b), "bool");
      && (HasMember(body, "minimum_should_match") <==> b.minimumShouldMatch)
      && (b.minimumShouldMatch ==> Member(body, "minimum_should_match") == JNum(1))
  {
    var m := Member(BoolJson(b), "bool").members;
    if b.minimumShouldMatch {
      assert m[3] == ("minimum_should_match", JNum(1));
      assert UniqueKeys(m);
      LookupAt(m, 3);
      assert Keys(m)[3] == "minimum_should_match";
    } else {
      assert |m| == 3;
      forall j | 0 <= j < 3 ensures Keys(m)[j] != "minimum_should_match" {
      }
    }
  }

  /** Booleanizing only appends: the clauses already in each list stay first. */
  lemma BooleanizeKeepsPrefix(queryObj: Json, b: BoolQuery)
    requires BooleanizeFrom(queryObj, b).Some?
    ensures var r := BooleanizeFrom(queryObj, b).value;
      && |r.must| >= |b.must| && r.must[..|b.must|] == b.must
      && |r.should| >= |b.should| && r.should[..|b.should|] == b.should
      && |r.mustNot| >= |b.mustNot| && r.mustNot[..|b.mustNot|] == b.mustNot
  {
    var r := BooleanizeFrom(queryObj, b).value;
    if Truthy(Get(queryObj, "bool")) {
      assert r.must[..|b.must|] == b.must;
      assert r.should[..|b.should|] == b.should;
      assert r.mustNot[..|b.mustNot|] == b.mustNot;
    }
  }

  /**
   * With a truthy `queryObj.bool`, each `{field, value}` of its `must`,
   * `should` and `must_not` lists is appended, in order, to the list of the
   * same name as `{term: {field: value}}`, and `minimum_should_match` is set;
   * with a falsy one nothing changes.
   */
  lemma BooleanizeAppends(b: BoolQuery, spec: Json)
    requires Booleanize(b, spec).Some?
    ensures var r := Booleanize(b, spec).value;
      && r.minimumShouldMatch == (b.minimumShouldMatch || Truthy(spec))
      && (!Truthy(spec) ==> r == b)
    ensures Truthy(spec) ==>
      var r := Booleanize(b, spec).value;
      && Appended(b.must, Get(spec, "must"), r.must)
      && Appended(b.should, Get(spec, "should"), r.should)
      && Appended(b.mustNot, Get(spec, "must_not"), r.mustNot)
  {
    if Truthy(spec) {
      var r := Booleanize(b, spec).value;
      AppendedTerms(b.must, Get(spec, "must"), r.must);
      AppendedTerms(b.should, Get(spec, "should"), r.should);
      AppendedTerms(b.mustNot, Get(spec, "must_not"), r.mustNot);
    }
  }

  /** `after` is `before` followed by one term clause per argument, in order. */
  predicate Appended(before: seq<Json>, args: Json, after: seq<Json>)
  {
    var vs := Values(args);
    |after| == |before| + |vs| && after[..|before|] == before
    && forall i :: 0 <= i < |vs| ==>
         Readable(vs[i]) && after[|before| + i] == JObj([("term", JObj([(PropKey(Get(vs[i], "field")), Get(vs[i], "value"))]))])
  }

  lemma AppendedTerms(before: seq<Json>, args: Json, after: seq<Json>)
    requires TermClauses(args).Some? && after == before + TermClauses(args).value
    ensures Appended(before, args, after)
  {
    var vs := Values(args);
    TraverseContents(vs, TermClauseOf);
    forall i | 0 <= i < |vs|
      ensures Readable(vs[i]) && after[|before| + i] == JObj([("term", JObj([(PropKey(Get(vs[i], "field")), Get(vs[i], "value"))]))])
    {
      assert after[|before| + i] == TermClauses(args).value[i];
    }
    assert after[..|before|] == before;
  }

  /** Without filters the query part is the core clause itself. */
  lemma NoFiltersGivesCoreClause(queryObj: Json)
    requires QueryInfo(queryObj).Some? && !HasFilters(QueryInfo(queryObj).value)
    ensures NormalizeQuerySpec(queryObj) == CoreClause(queryObj, QueryInfo(queryObj).value)
  {
  }

  /**
   * With at least one filter, the query part is `{filtered: {filter: {and: [...]}}}`
   * holding the encoded filters in input order, with a `query` slot holding
   * the core clause exactly when `q` or `ids` is set: otherwise the core
   * clause, bool term clauses included, is dropped.
   */
  lemma FilteredEnvelope(queryObj: Json)
    requires QueryInfo(queryObj).Some? && HasFilters(QueryInfo(queryObj).value)
    requires NormalizeQuerySpec(queryObj).Some?
    ensures var info := QueryInfo(queryObj).value;
      var fs := Values(Lookup(info, "filters"));
      var filtered := Member(NormalizeQuerySpec(queryObj).value, "filtered");
      var and := Member(Member(filtered, "filter"), "and");
      && and.JArr? && |and.items| == |fs|
      && (forall i :: 0 <= i < |fs| ==>
            FilterAccepted(info, fs[i]) && and.items[i] == FilterCodec.ConvertFilter(fs[i]))
      && (HasMember(filtered, "query") <==> Truthy(Lookup(info, "q")) || Truthy(Lookup(info, "ids")))
      && (HasMember(filtered, "query") ==> Member(filtered, "query") == CoreClause(queryObj, info).value)
  {
    var info := QueryInfo(queryObj).value;
    var query := CoreClause(queryObj, info).value;
    assert NormalizeQuerySpec(queryObj) == WrapFilters(info, query);
    WrappedShape(info, query);
  }

  /** `WrapFilters` with filters present, stated for any core clause. */
  lemma WrappedShape(info: Members, query: Json)
    requires HasFilters(info) && WrapFilters(info, query).Some?
    ensures var fs := Values(Lookup(info, "filters"));
      var filtered := Member(WrapFilters(info, query).value, "filtered");
      var and := Member(Member(filtered, "filter"), "and");
      && and.JArr? && |and.items| == |fs|
      && (forall i :: 0 <= i < |fs| ==>
            FilterAccepted(info, fs[i]) && and.items[i] == FilterCodec.ConvertFilter(fs[i]))
      && (HasMember(filtered, "query") <==> Truthy(Lookup(info, "q")) || Truthy(Lookup(info, "ids")))
      && (HasMember(filtered, "query") ==> Member(filtered, "query") == query)
  {
    var fs := Values(Lookup(info, "filters"));
    EncodeFiltersContents(info, fs);
    var encoded := EncodeFilters(info, fs).value;
    var keep := Truthy(Lookup(info, "q")) || Truthy(Lookup(info, "ids"));
    EnvelopeShape(encoded, if keep then Some(query) else None);
  }

  lemma EnvelopeShape(encoded: seq<Json>, query: Option<Json>)
    ensures var filtered := Member(Envelope(encoded, query), "filtered");
      && Member(Member(filtered, "filter"), "and") == JArr(encoded)
      && (HasMember(filtered, "query") <==> query.Some?)
      && (query.Some? ==> Member(filtered, "query") == query.value)
  {
    var head := [("filter", JObj([("and", JArr(encoded))]))];
    var tail: Members := if query.Some? then [("query", query.value)] else [];
    KeysOfOptional("query", if query.Some? then query.value else JUndef, query.Some?);
    KeysAppend(head, tail);
    LookupAppend(head, tail, "filter");
    LookupAppend(head, tail, "query");
  }

  /**
   * A date_range filter on a field with no aggregation under its key makes the
   * whole compilation throw.
   */
  lemma DateRangeFilterNeedsAggregation(queryObj: Json, i: nat)
    requires QueryInfo(queryObj).Some? && HasFilters(QueryInfo(queryObj).value)
    requires var fs := Values(Lookup(QueryInfo(queryObj).value, "filters"));
      i < |fs| && Readable(fs[i]) && Get(fs[i], "type") == JStr("date_range")
      && Get(fs[i], "field").JStr?
      && !Readable(Get(Lookup(QueryInfo(queryObj).value, "aggs"), AggKey(Get(fs[i], "field").s)))
    ensures NormalizeQuerySpec(queryObj) == None
  {
    var info := QueryInfo(queryObj).value;
    var fs := Values(Lookup(info, "filters"));
    assert !FilterAccepted(info, fs[i]);
    TraverseFailsAt(fs, AcceptFilter(info), i);
    FilterEncodingThrows(queryObj);
  }

  /** When encoding the filters throws, so does the whole compilation. */
  lemma FilterEncodingThrows(queryObj: Json)
    requires QueryInfo(queryObj).Some? && HasFilters(QueryInfo(queryObj).value)
    requires var info := QueryInfo(queryObj).value;
      EncodeFilters(info, Values(Lookup(info, "filters"))).None?
    ensures NormalizeQuerySpec(queryObj) == None
  {
    var info := QueryInfo(queryObj).value;
    assert forall query :: WrapFilters(info, query).None?;
  }
}
