# Recline Elasticsearch backend and query model, in Dafny

Recline is a browser-side data library. A `Dataset` holds records and fields. A
`Query` holds the state of a search: a text query `q`, filters, boost
fields, facets and aggregations. The Elasticsearch backend
(`dist/elasticsearch.js`) turns that query state into an Elasticsearch
search body. It also maps the reply back into the records, facets and
aggregations the dataset shows.

This project models the core of both sides:

- **Request compiler.** `_convertFilter`, `_normalizeSort`, `_normalizeQuery`,
  `_normalizeAggregation`, `_normalizeHighlight` and `ES.Table.query`.
  These turn the query state (after `toJSON`) into the request body.
- **Response mapper.** The `done` and `fail` callbacks of the backend's
  `query`. They build `{total, hits, facets, aggregations}` and stamp every
  aggregation with the kinds the query asked for.
- **Query state.** The `Query` mutators (filters, boost fields, facets,
  aggregations) and `getSelectedAggregation`.
- **Dataset side.** `selectInBuckets` and the aggregation handler of
  `_handleQueryResult`, plus the kind inference of `Aggregation.initialize`.
- **Record normalisation.** `_normalizeRecordsAndFields`, which renames
  duplicate headings and zips row arrays into records.
- **Field construction.** `_typeMap` and the `Field` constructor.

## How values are modelled

- **JavaScript values.** A value is the datatype `JsonValue.Json`:
  undefined, null, booleans, integers, strings, arrays and objects. An object
  is an ordered member list kept in insertion order, a new key going last.
  JavaScript enumerates keys in that order except for keys that are array
  indices (`"0"`, `"2019"`), which it lists first, in ascending order; the
  model does not make that exception (see "## Left out").
- **JavaScript semantics.** Truthiness, `==`, `toString` of numbers,
  property reads (`Get`), `_.keys`, `_.values` and `_.defaults` are functions
  in `JsSemantics`.
- **Errors.** A `TypeError` that the library would throw (reading a property
  of undefined, writing `top_docs` on undefined) is `None` of an `Option`.
  An operation that can throw returns an `Option`.
- **Loops.** Where the library loops (`_.each`, `_.map`, `while`), the model
  has a `method` with a loop. Each such method is proved equal to a
  specification function, and the properties are lemmas about that function.
- **Mutable state.** The query state is the class `QueryState.Query`. Its
  fields are the attributes the mutators update, and every mutator states
  the new value of what it changes.

## Model

| member | source | states |
|---|---|---|
| FilterCodec.KindOf | dist/elasticsearch.js:247-311 | the kind a filter's `type` selects: the first five branches compare with `===`, `type`, `exists` and `missing` with `==`, anything else selects no branch |
| FilterCodec.ConvertFilter | dist/elasticsearch.js:245-317 | a readable filter converts to a non-empty object; with a truthy `not` its only key is `not` |
| FilterCodec.TermEncoding | dist/elasticsearch.js:248-249 | `{type: term, field: f, term: v}` encodes to `{term: {f: v}}` |
| FilterCodec.GeoDistanceEncoding | dist/elasticsearch.js:256-259 | a geo_distance filter encodes to `{geo_distance: {f: point, distance: d, unit: u}}`, in that key order, when the field name is neither `distance` nor `unit` |
| FilterCodec.TypeEncoding | dist/elasticsearch.js:293-297 | a type filter encodes to `{type: {value: v}}` |
| FilterCodec.ExistsEncoding | dist/elasticsearch.js:298-302 | an exists filter encodes to `{exists: {field: f}}` |
| FilterCodec.MissingEncoding | dist/elasticsearch.js:303-307 | a missing filter encodes to `{missing: {field: f}}` |
| FilterCodec.TermEncodingExample | dist/elasticsearch.js:248-249 | the colour/red term filter encodes to `{term: {color: red}}` |
| FilterCodec.LooseKindMatchesArray | dist/elasticsearch.js:298-307 | `==` lets the one-element array `['exists']` select the exists branch |
| FilterCodec.StrictKindRejectsArray | dist/elasticsearch.js:248-249 | `===` refuses the one-element array `['term']`, which selects no branch |
| FilterCodec.TermsExecution | dist/elasticsearch.js:250-255 | a terms filter puts its values under the field name, and `execution` appears exactly when the filter has one |
| FilterCodec.RangeKindNames | dist/elasticsearch.js:260-292 | `range` and `date_range` are the range kinds |
| FilterCodec.RangeClauseBody | dist/elasticsearch.js:260-292 | both range kinds place the bound object under `range.<field>` |
| FilterCodec.RangeOutputIsBody | dist/elasticsearch.js:260-292 | the converted range filter is that clause |
| FilterCodec.RangeBoundsCopied | dist/elasticsearch.js:260-292 | `from`/`to` appear exactly when they pass the bound test, with their own values; `include_lower`/`include_upper` follow them |
| FilterCodec.ZeroBoundDropped | dist/elasticsearch.js:263-270 | a bound of 0 is falsy and is dropped by either range kind |
| FilterCodec.NonNumericBound | dist/elasticsearch.js:263-290 | `range` drops a non-numeric bound (the `isNaN` test); `date_range` keeps it |
| FilterCodec.DateRangeKeepsEmptyKey | dist/elasticsearch.js:275-292 | a date_range filter leaves an empty `date_range` key in front of `range` |
| FilterCodec.UnknownKind | dist/elasticsearch.js:246-316 | an unrecognised kind gives `{kind: {}}` and no error |
| FilterCodec.WithoutNotReads | dist/elasticsearch.js:311-315 | deleting `not` leaves the value and presence of every other key |
| FilterCodec.WithoutNotSameReads | dist/elasticsearch.js:311-315 | deleting `not` changes none of the properties the encoder reads |
| FilterCodec.NotWrapsPlainEncoding | dist/elasticsearch.js:311-315 | a truthy `not` gives `{not: X}`, where X is the JSON copy of the same filter's encoding without `not` |
| FilterCodec.NotWrapsExactEncoding | dist/elasticsearch.js:311-315 | when that encoding holds no undefined value, X is the encoding itself |
| SortCodec.NormalizeSort | dist/elasticsearch.js:234-243 | an undefined or null entry makes the call throw; otherwise one result per entry |
| SortCodec.NormalizeSortEntries | dist/elasticsearch.js:234-243 | length and order are kept; each output is `{field: rest}`, with every other key of the entry kept |
| SortCodec.EntryRoundTrip | dist/elasticsearch.js:234-243 | an entry whose first key is a string `field` (not repeated) comes back unchanged after encoding then decoding |
| SortCodec.EntryRoundTripBack | dist/elasticsearch.js:234-243 | decoding `{f: {opts}}` and encoding again gives it back |
| QueryClause.QueryInfo | dist/elasticsearch.js:115 | the query info exists exactly unless the object and its `toJSON` are both truthy, and then has the object's keys |
| QueryClause.BoostedFields | dist/elasticsearch.js:133-142 | the rendering succeeds exactly when every boost field is readable, and gives one string per boost field |
| QueryClause.BoostRendering | dist/elasticsearch.js:134-141 | a numeric boost renders as `field^boost` exactly when it is above zero; without one, the bare field |
| QueryClause.BoostRenderingExamples | dist/elasticsearch.js:134-141 | `title` with boost 2 renders as `title^2`; `body` with boost 0 renders as `body` |
| QueryClause.QueryStringShape | dist/elasticsearch.js:120-150 | the query_string clause carries `query`, the fixed options and `fields` exactly when boost fields were given |
| QueryClause.QueryStringWithFields | dist/elasticsearch.js:143-150 | with boost fields, `fields` holds their renderings |
| QueryClause.QueryStringWithoutFields | dist/elasticsearch.js:143-150 | without boost fields, the clause has no `fields` |
| QueryClause.StringCoreClause | dist/elasticsearch.js:119-157 | a truthy `q` gives a bool query whose first `must` is the query_string for `q`, with or without `ids` |
| QueryClause.StringBoolQuery | dist/elasticsearch.js:119-157 | the layout of that bool query, first `must` clause included |
| QueryClause.IdsCoreClause | dist/elasticsearch.js:158-163 | without `q`, truthy `ids` give `{ids: {values: ids}}`, and `bool` is never read |
| QueryClause.MatchAllCoreClause | dist/elasticsearch.js:164-175 | without `q` and `ids`, the core clause is a bool query whose first `must` is `match_all` |
| QueryClause.MatchAllBoolQuery | dist/elasticsearch.js:164-175 | the layout of that bool query |
| QueryClause.BoolJsonMinimumShouldMatch | dist/elasticsearch.js:200 | `minimum_should_match: 1` is present exactly when it was set |
| QueryClause.PushTermClauses | dist/elasticsearch.js:182-191 | the push loop appends the term clauses of the arguments to the list, or throws when one of them does |
| QueryClause.BooleanizeQuery | dist/elasticsearch.js:177-202 | the booleanize block fills the three lists in the library's order |
| QueryClause.BooleanizeKeepsPrefix | dist/elasticsearch.js:177-202 | booleanizing only appends; the clauses already in each list stay first |
| QueryClause.BooleanizeAppends | dist/elasticsearch.js:177-202 | each `{field, value}` of `bool.must/should/must_not` is appended, in order, as a term clause to the list of the same name |
| QueryClause.EncodeFiltersContents | dist/elasticsearch.js:205-221 | the filter encoding exists exactly when every filter is accepted, and then holds each filter's clause in order |
| QueryClause.PushFilters | dist/elasticsearch.js:205-221 | the loop over the filters builds that encoding |
| QueryClause.NormalizeQuery | dist/elasticsearch.js:113-231 | `_normalizeQuery` step by step equals its specification function |
| QueryClause.NormalizeQuerySpec | dist/elasticsearch.js:113-231 | a query state that cannot be copied throws; with filters the clause is the `filtered` envelope alone; without, it is the core clause |
| QueryClause.NoFiltersGivesCoreClause | dist/elasticsearch.js:204-230 | without filters the query is the core clause itself |
| QueryClause.FilteredEnvelope | dist/elasticsearch.js:204-230 | with filters, the query is `{filtered: {filter: {and: [...]}, query: core}}`, filters in input order |
| QueryClause.WrappedShape | dist/elasticsearch.js:222-228 | the shape of the filtered envelope, for any core clause |
| QueryClause.DateRangeFilterNeedsAggregation | dist/elasticsearch.js:215-218 | a date_range filter on a field with no aggregation under its key makes the compilation throw |
| QueryClause.FilterEncodingThrows | dist/elasticsearch.js:205-220 | when encoding any filter throws, the whole query normalisation throws |
| RequestBody.HighlightFields | dist/elasticsearch.js:346-363 | the highlight `fields` object has no repeated key |
| RequestBody.HighlightFieldsKeys | dist/elasticsearch.js:346-363 | its keys are exactly the highlighted field names |
| RequestBody.HighlightFieldsValues | dist/elasticsearch.js:354-358 | every highlighted field asks for `{force_source: true}` |
| RequestBody.NormalizeHighlight | dist/elasticsearch.js:346-363 | a query state that cannot be copied throws; a highlight block exists only when both `q` and `highlights` are truthy |
| RequestBody.HighlightBlock | dist/elasticsearch.js:350-355 | the block has exactly the keys `number_of_fragments`, `pre_tags`, `post_tags`, `fields`, in that order |
| RequestBody.StripEntry | dist/elasticsearch.js:332-345 | an aggregation entry loses a truthy `selected` and `_type` and keeps every other key |
| RequestBody.EachKeys | dist/elasticsearch.js:335 | the property names `_.each` visits on an aggregation map are, one for one, the entries the shared `_.each` model walks: the indices below `length` of an array-like map, otherwise its own keys |
| RequestBody.StripEachSpec | dist/elasticsearch.js:335-342 | the callback run over the visited keys succeeds iff every visited entry is readable; then the keys stay as they were, each visited entry is stripped and every other member is kept |
| RequestBody.NormalizeAggregation | dist/elasticsearch.js:332-345 | the deleting loop equals its specification function |
| RequestBody.StripObjectEntries | dist/elasticsearch.js:335-342 | the loop over the visited keys of an object, stripping in place, equals the callback run over those keys |
| RequestBody.StripArrayEntries | dist/elasticsearch.js:335-342 | the loop over an array's elements throws at an undefined or null element and otherwise strips every element |
| RequestBody.AggregationsStripped | dist/elasticsearch.js:332-345 | on a map that is not array-like: it throws iff some entry is undefined or null; otherwise the keys stay in order, no entry keeps a truthy `selected` or `_type`, and every other property of every entry reads as before |
| RequestBody.ArrayLikeAggregations | dist/elasticsearch.js:332-345 | on an array-like map only the indices below `length` are visited: it throws iff one of them is undefined or null; otherwise those entries are stripped and every other member is passed on untouched |
| RequestBody.ArrayLikeEntryNotStripped | dist/elasticsearch.js:332-345 | `{length: 0, a: {selected: true}}` comes back unchanged, `selected` included |
| RequestBody.ArrayLikeMissingIndexThrows | dist/elasticsearch.js:332-338 | `{length: 1}` throws: the entry at index 0 is undefined |
| RequestBody.StripTermEntry | dist/elasticsearch.js:332-345 | a stored term aggregation is sent as `{terms: ...}` alone |
| RequestBody.AddTopDocs | dist/elasticsearch.js:395-419 | adding `top_docs` throws exactly on undefined or null aggregations |
| RequestBody.TopDocsInjected | dist/elasticsearch.js:395-419 | on an object, `top_docs` is set (overwriting) and every other entry is kept |
| RequestBody.TopDocsContents | dist/elasticsearch.js:397-418 | `top_docs` ranks hits by `_type`, with `top_hits` of size 10 and a `max` score aggregation |
| RequestBody.DropIfTruthy | dist/elasticsearch.js:368-387 | a truthy key is deleted, a falsy one kept, and no other key changes |
| RequestBody.WireBody | dist/elasticsearch.js:421-429 | the body sent is a defined value |
| RequestBody.Compile | dist/elasticsearch.js:365-431 | `ES.Table.query` step by step equals its specification function |
| RequestBody.AggregationSteps | dist/elasticsearch.js:389-419 | after the aggregation steps the caller holds the stripped aggregation spec |
| RequestBody.Assemble | dist/elasticsearch.js:372-419 | a request that assembles leaves the caller with the stripped aggregation spec |
| RequestBody.CompileSpec | dist/elasticsearch.js:365-431 | a query state whose copy or query clause throws compiles to nothing; a compiled request leaves the caller with the stripped aggregation spec |
| RequestBody.AssembleRequest | dist/elasticsearch.js:371-419 | the steps from sort on equal their specification function |
| RequestBody.RemoveClientKeys | dist/elasticsearch.js:371-387 | the sort, ids, boostFields, highlights and bool steps equal their specification |
| RequestBody.ReplaceHighlights | dist/elasticsearch.js:381-384 | the highlights step equals its specification |
| RequestBody.AddAggregations | dist/elasticsearch.js:388-419 | the queryType capture, aggregation stripping and `top_docs` step equal their specification |
| RequestBody.InjectAggregations | dist/elasticsearch.js:393-419 | `aggs` is set, with `top_docs` for the query type `all` |
| RequestBody.SortStepFrame | dist/elasticsearch.js:371-373 | the sort step writes `sort` and nothing else |
| RequestBody.IdsStepFrame | dist/elasticsearch.js:374-377 | the ids step writes `size`, deletes truthy `ids`, and nothing else |
| RequestBody.IdsStepSize | dist/elasticsearch.js:374-377 | with truthy ids, `size` is their length |
| RequestBody.HighlightStepSets | dist/elasticsearch.js:381-384 | with truthy highlights, `highlight` is the normalised block |
| RequestBody.HighlightStepFrame | dist/elasticsearch.js:381-384 | the highlights step writes `highlight`, deletes truthy `highlights`, and nothing else |
| RequestBody.AggsStepFrame | dist/elasticsearch.js:393-419 | the aggregation step writes `aggs` and nothing else |
| RequestBody.ClientKeyStepsAt | dist/elasticsearch.js:371-387 | what the client-key steps do to any other key |
| RequestBody.AggregationStepsAt | dist/elasticsearch.js:388-419 | what the aggregation steps do to any key but `aggs` |
| RequestBody.RequestKeepsKey | dist/elasticsearch.js:365-431 | every key that no step writes and that is not client-only reaches the request unchanged |
| RequestBody.RequestDropsClientKey | dist/elasticsearch.js:374-391 | a truthy client-only key is gone from the request; a falsy one passes through |
| RequestBody.RequestSort | dist/elasticsearch.js:371-373 | with a truthy, non-empty sort the request holds the normalised sort; otherwise `sort` passes through |
| RequestBody.RequestSize | dist/elasticsearch.js:374-377 | with truthy ids `size` is their length; otherwise `size` passes through |
| RequestBody.RequestHighlight | dist/elasticsearch.js:381-384 | with truthy highlights `highlight` is the normalised block; otherwise it passes through |
| RequestBody.AggregationStepsAggs | dist/elasticsearch.js:393-419 | `aggs` is set from the stripped caller aggregations |
| RequestBody.RequestAggregations | dist/elasticsearch.js:388-419 | the request's `aggs` is the stripped aggregations, with `top_docs` when the query type is loosely `all` |
| RequestBody.AllWithoutAggregationsFails | dist/elasticsearch.js:395-398 | query type `all` with no aggregations throws: `top_docs` is set on undefined |
| RequestBody.QueryPartKeys | dist/elasticsearch.js:366-369 | the query part sets `query` and removes `q` and `filters` |
| RequestBody.QueryPartKeysPassThrough | dist/elasticsearch.js:366-391 | the keys the query part writes are left alone by the later steps |
| RequestBody.AssembledQuery | dist/elasticsearch.js:366-431 | after the query part, the request carries `query` |
| RequestBody.AssembledOmits | dist/elasticsearch.js:368-369 | after the query part, the request carries neither `q` nor `filters` |
| RequestBody.CompiledQuery | dist/elasticsearch.js:365-431 | the request carries the normalised query under `query`, and neither `q` nor `filters` |
| ResponseMapper.WriteMember | dist/elasticsearch.js:543-548 | a write to an object or an array keeps it an object or an array |
| ResponseMapper.MapHit | dist/elasticsearch.js:542-550 | a hit maps exactly when it is readable and its `_source` is an object, and the result is that object |
| ResponseMapper.MapHits | dist/elasticsearch.js:542-550 | the hits loop equals its specification function |
| ResponseMapper.HitsInOrder | dist/elasticsearch.js:542-550 | the mapping succeeds exactly when every hit does, and keeps the number and order of the hits |
| ResponseMapper.HitIdBackfilled | dist/elasticsearch.js:543-548 | `id` is the source's own, else a truthy `_id`, else absent; `highlight` is attached when truthy |
| ResponseMapper.HitKeepsOtherMembers | dist/elasticsearch.js:542-550 | every other member of the source is passed through |
| ResponseMapper.SetType | dist/elasticsearch.js:559 | writing `_type` throws exactly on a value that is neither an object nor an array |
| ResponseMapper.StampTypesObject | dist/elasticsearch.js:558-560 | writing one spec entry's keys leaves an object with the last of them |
| ResponseMapper.StampTypesNonObject | dist/elasticsearch.js:558-560 | on anything but an object, the first write throws (an array is kept); with no keys nothing happens |
| ResponseMapper.StampedObjectKind | dist/elasticsearch.js:555-563 | an object bucket gets exactly the last matching kind and nothing else changes |
| ResponseMapper.StampedOtherKind | dist/elasticsearch.js:555-563 | a non-object bucket is kept, unless a matching spec entry has keys and the write throws |
| ResponseMapper.StampBucket | dist/elasticsearch.js:556-563 | the stamping loops equal their specification function |
| ResponseMapper.StampKinds | dist/elasticsearch.js:558-560 | the inner loop equals its specification function |
| ResponseMapper.StampsFailFrom | dist/elasticsearch.js:558-560 | once a write has thrown, the stamping fails |
| ResponseMapper.StampedFailsFrom | dist/elasticsearch.js:556-563 | once a spec entry's writes have thrown, later entries do not matter |
| ResponseMapper.AggregationsInOrder | dist/elasticsearch.js:554-566 | with distinct keys, the aggregations are the buckets in order, each stamped on its own |
| ResponseMapper.StampAggregations | dist/elasticsearch.js:555-565 | the aggregations loop equals its specification function |
| ResponseMapper.AggregationsFailFrom | dist/elasticsearch.js:555-565 | a bucket whose stamping threw leaves the whole reply unmapped |
| ResponseMapper.BuildResult | dist/elasticsearch.js:538-567 | the done callback equals its specification function |
| ResponseMapper.ResultModel | dist/elasticsearch.js:538-567 | results without readable `hits` throw; the model copies `total`, maps every hit and has `aggregations` exactly when the response has them |
| ResponseMapper.ResultKeys | dist/elasticsearch.js:539-566 | the result has `total` and `hits`, then `facets` exactly when truthy, then `aggregations` exactly when truthy |
| ResponseMapper.Query | dist/elasticsearch.js:534-576 | `query` equals its specification: resolved with the result or rejected with the failure record |
| ResponseMapper.QueryOutcome | dist/elasticsearch.js:534-576 | `query` throws exactly when compiling throws, is rejected exactly when the request fails, stalls exactly when the done callback throws on a reply, and resolves only with the result model of a reply |
| ResponseMapper.FailureRejected | dist/elasticsearch.js:568-574 | a failed request is rejected with the status in the title and the response text as the message |
| ResponseMapper.NotFoundRecord | dist/elasticsearch.js:569-572 | an HTTP 404 gives `{title: 'Failed: 404 code', message: 'Not Found'}` |
| AggregationKeys.AggKey | src/model.js:757 | the key under which the query stores a field's aggregation has no dot |
| AggregationKeys.FieldIdOfKey | src/model.js:261 | the field id read back from a response key has no underscore |
| AggregationKeys.FieldIdRoundTrip | src/model.js:757 | a field id comes back from its key exactly when it has no underscore |
| AggregationKeys.KeyRoundTrip | src/model.js:261 | every key without dots is the key of the id it is read back as |
| AggregationKeys.AggKeyIdempotent | src/model.js:858 | rewriting a key again changes nothing |
| AggregationKeys.DotAndUnderscoreCollide | src/model.js:757 | the field ids `a.b` and `a_b` share one aggregation key |
| QueryState.TemplateShape | src/model.js:548-571 | every filter template is an object without repeated keys; other types name none |
| QueryState.FillDefaultsKeys | src/model.js:583-585 | after the defaults, a key is present exactly when the filter or the template has it |
| QueryState.FillDefaultsValues | src/model.js:583-585 | a defined value of the filter wins over the template's |
| QueryState.Completed | src/model.js:575-589 | completing a readable filter gives a readable filter |
| QueryState.JsonCopyLookup | src/model.js:577 | reading a key of the deep copy is copying what the original holds there |
| QueryState.CompletedMember | src/model.js:575-589 | the completed filter holds its own copied value, else the template's when it has at most three keys |
| QueryState.CompletedHasTemplateKeys | src/model.js:583-585 | with at most three keys, the completed filter has every key of its template |
| QueryState.LastSameField | src/model.js:594-599 | the index found is -1 or an index of the list |
| QueryState.LastSameFieldIsLast | src/model.js:594-599 | the index found is loosely on the same field, and no later filter is |
| QueryState.Without | src/model.js:602-607 | `splice(i, 1)` drops exactly the element at a valid index |
| QueryState.OnlyLastOnField | src/model.js:590-630 | with one filter per string field, only the found filter is on that field |
| QueryState.WithoutKeepsOthers | src/model.js:615-630 | removing one filter keeps every other one |
| QueryState.WithoutKeepsOnePerField | src/model.js:615-630 | removal keeps one filter per field |
| QueryState.RemovedFieldSpec | src/model.js:615-630 | `removeFilter` removes the filter on that field, keeps every other one and keeps one per field |
| QueryState.RemovedField | src/model.js:615-630 | `removeFilter` leaves the list as it was or cuts out exactly one position |
| QueryState.ReplacedKeepsOnePerField | src/model.js:590-609 | `replaceFilter` keeps one filter per field, and the new filter is last |
| QueryState.Replaced | src/model.js:590-609 | `replaceFilter` ends with the completed filter and keeps at most the old filters before it |
| QueryState.KeptSpec | src/model.js:631-643 | the kept filters are exactly those without the id, never more than before |
| QueryState.Kept | src/model.js:631-643 | `removeFilterById` never adds a filter and keeps only filters not on the id |
| QueryState.KeptIdempotent | src/model.js:631-643 | removing the same id twice is removing it once |
| QueryState.Marked | src/model.js:633-637 | the deleting pass leaves the list's length |
| QueryState.MarkedThenCompacted | src/model.js:631-643 | deleting the matches and compacting keeps exactly the surviving filters |
| QueryState.MarkMatches | src/model.js:633-637 | the deleting pass leaves a hole exactly where a filter's field loosely equals the id, the deleting pass as specified by `Marked` |
| QueryState.Compact | src/model.js:640 | the compacting loop equals `_.compact` |
| QueryState.SelectedIsLastSameField | src/model.js:846-856 | the selected filter of an aggregation is the one `replaceFilter` would replace |
| QueryState.SelectedFilter | src/model.js:846-856 | the selected filter is false or a filter on the field |
| QueryState.BoostEntry | src/model.js:661-666 | a boost entry names its field |
| QueryState.NamedFieldAlwaysAppended | src/model.js:655-666 | a field name not starting with a digit is appended again whatever the list holds |
| QueryState.WithBoostField | src/model.js:655-666 | `addBoostField` only appends, at most one entry |
| QueryState.BoostFieldAddedTwice | src/model.js:657 | adding `title` twice leaves it in the list twice |
| QueryState.WithBoostFieldOnceSpec | src/model.js:655-675 | the corrected add boosts the field afterwards and never boosts a field twice |
| QueryState.ClearedBoostFieldsAppend | src/model.js:676-682 | after clearing, no slot is present, so the next add appends |
| QueryState.EntryFields | src/model.js:688-775 | term and facet entries name their field and carry `size` exactly when given; the term entry has `_type: term` and the facet entry the same `terms` |
| QueryState.PutIfAbsentSpec | src/model.js:759-761 | the adders append exactly one entry, and only for a new key |
| QueryState.PutIfAbsent | src/model.js:759-761 | afterwards the key is present, with its old value if it had one; every other key is untouched |
| QueryState.RemoveAppended | src/model.js:858-866 | deleting a member just appended gives the object back |
| QueryState.SelectedSpec | src/model.js:821-833 | selecting writes the selection into that entry and changes nothing else |
| QueryState.UnselectUndoesSelect | src/model.js:821-845 | unselecting undoes a selection of an entry that had none |
| QueryState.Query.constructor | src/model.js:535-547 | a new query has the defaults: empty `q` and type, size 100, from 0, no filters, facets, aggregations or boost fields |
| QueryState.Query.AddFilter | src/model.js:575-589 | the completed copy of the filter is appended |
| QueryState.Query.LastIndexOfField | src/model.js:594-599 | the loop finds the last filter on the same field |
| QueryState.Query.ReplaceFilter | src/model.js:590-609 | the filters become the replaced list |
| QueryState.Query.RemoveFilter | src/model.js:615-630 | the filters become the list without the field's filter |
| QueryState.Query.RemoveFilterById | src/model.js:631-643 | the filters become the kept filters |
| QueryState.Query.ClearFilters | src/model.js:644-649 | the filter list is empty |
| QueryState.Query.GetSelectedAggregation | src/model.js:846-856 | throws (None) iff some filter is undefined or null, since `filter.field` is read; otherwise returns the last filter loosely on the field, or false |
| QueryState.Query.AddBoostField | src/model.js:655-675 | the boost list becomes the as-written add |
| QueryState.Query.ClearBoostFields | src/model.js:676-682 | every slot becomes a hole; the length stays |
| QueryState.Query.AddFacet | src/model.js:688-710 | a facet entry is added only for a new key |
| QueryState.Query.AddHistogramFacet | src/model.js:711-725 | the histogram entry is written whether or not the key exists |
| QueryState.Query.RemoveFacet | src/model.js:726-739 | the facet key is deleted |
| QueryState.Query.ClearFacets | src/model.js:740-746 | no facet is left |
| QueryState.Query.AddTermAggregation | src/model.js:754-775 | a term entry is added under the field's key, only for a new key |
| QueryState.Query.AddDateRangeAggregation | src/model.js:776-798 | a date-range entry is added under the field's key, only for a new key |
| QueryState.Query.AddRangeAggregation | src/model.js:799-820 | a range entry is added under the field's key, only for a new key |
| QueryState.Query.SelectAggregation | src/model.js:821-833 | the selection is written into the entry under the field's key |
| QueryState.Query.UnSelectAggregation | src/model.js:834-846 | the selection is deleted from the entry under the field's key |
| QueryState.Query.RemoveAggregation | src/model.js:858-866 | the key is deleted |
| QueryState.Query.ClearAggregations | src/model.js:867-873 | no aggregation is left |
| Aggregations.InferredKind | src/model.js:887-897 | the kind comes from the first bucket's keys only |
| Aggregations.KindOfKeys | src/model.js:891-897 | text range keys give `date_range`; otherwise `from`/`to` give `range`; otherwise `top_hits` gives `top_hits` |
| Aggregations.FilledAggregationSpec | src/model.js:899-905 | a defined attribute wins; every default key is present |
| Aggregations.AggregationAttributesSpec | src/model.js:884-905 | the kind is the first bucket's, else the given `_type`, else `terms`; `selected` defaults to false |
| Aggregations.FirstOfList | src/model.js:887-889 | the first bucket of a list is its first element |
| Aggregations.OnlyFirstBucketCounts | src/model.js:887-897 | buckets after the first do not affect the kind |
| Aggregations.NoBucketsKeepsKind | src/model.js:887-905 | without buckets, the aggregation is `terms` unless given another kind |
| Aggregations.DateRangeBucket | src/model.js:891-892 | an Elasticsearch date-range bucket gives `date_range` |
| Aggregations.RangeBucket | src/model.js:893-894 | a numeric range bucket gives `range` |
| Aggregations.TermsBucket | src/model.js:890-897 | a terms bucket infers no kind, so the aggregation stays `terms` |
| Dataset.VisitSpec | src/model.js:279-283 | a hitting term filter sets `selected`; any other filter leaves the bucket |
| Dataset.Visit | src/model.js:279-283 | an unreadable filter throws; a bucket changes only by being marked `selected`, and only when its key loosely equals the filter's term |
| Dataset.MarkedSpec | src/model.js:278-285 | with readable filters, an object bucket gets its selection |
| Dataset.SelectionSpec | src/model.js:278-285 | `selected` is set when some term filter hits and never cleared; nothing else changes |
| Dataset.UnreadableFilterThrows | src/model.js:280 | an undefined or null filter throws as soon as a bucket is visited |
| Dataset.SelectInBucketsSpec | src/model.js:275-287 | the buckets keep their number and order, and each gets its selection |
| Dataset.TermFilterReads | src/model.js:280 | a term filter built on a field reads back the type `term` and its term |
| Dataset.TermFilterHits | src/model.js:280 | a term filter hits a bucket whose key is its term |
| Dataset.TermFilterOnAnyField | src/model.js:280-282 | a term filter selects a bucket with that term in any field's aggregation |
| Dataset.MarkBucket | src/model.js:279-283 | the filter loop over one bucket equals its specification |
| Dataset.MarkedFailsFrom | src/model.js:279-283 | once a visit has thrown, later filters do not matter |
| Dataset.SelectInBuckets | src/model.js:275-287 | `selectInBuckets` step by step equals its specification |
| Dataset.TagSpec | src/model.js:263-266 | `selected` is written exactly when the found filter is truthy |
| Dataset.BuiltAggregationSpec | src/model.js:267-268 | the built aggregation has the marked buckets, their kind (else the given type, else `terms`), the default `selected` and every other attribute |
| Dataset.HandledAttributesSpec | src/model.js:267-268 | marking then building is built over the marked buckets |
| Dataset.WithIdsSpec | src/model.js:260-262 | `key` is the response key, `id` the field id read back from it, nothing else changes |
| Dataset.TaggedSpec | src/model.js:260-266 | `key`, `id` and `selected` are written; everything else, `buckets` included, is kept |
| Dataset.SelectionKeepsKindOfKeys | src/model.js:278-285 | marking adds at most `selected`, which the kind never reads |
| Dataset.SelectionKeepsKind | src/model.js:267-268 | marking the buckets does not change the inferred kind |
| Dataset.HandledSpec | src/model.js:259-269 | a handled aggregation has its response key as `key`, its field id as `id`, the field's filter as selection, the marked buckets and their kind |
| Dataset.SelectionFoundAgain | src/model.js:259-266 | an aggregation for a field id without underscores comes back with that id and its field's filter as selection |
| Dataset.HandledAllSpec | src/model.js:259-270 | the aggregations are handled one for one in key order; one that throws makes the whole result throw |
| Dataset.Handled | src/model.js:259-269 | an aggregation is handled only when its result is an object or an array and every filter is readable |
| Dataset.HandledAll | src/model.js:257-270 | when no aggregation throws, there is one result per entry |
| Dataset.HandleAggregation | src/model.js:259-269 | the handler step by step equals its specification: an object or array result is tagged and built, a primitive or an unreadable filter throws |
| Dataset.ArrayResultHandled | src/model.js:259-268 | an array result does not throw: it becomes an Aggregation with its key and id, no buckets and the kind `terms` |
| Dataset.UnreadableFilterFailsAggregation | src/model.js:850-851 | an undefined or null filter in the query makes every aggregation throw, since each filter's `field` is read |
| Dataset.PrimitiveResultThrows | src/model.js:260-262 | a result that is neither an object nor an array throws on the writes |
| Dataset.HandleAggregations | src/model.js:257-272 | the map over the aggregations equals its specification, which the lemmas above characterise entry by entry |
| Fields.LowerAscii | src/model.js:460-461 | lower-casing maps upper-case ASCII letters and keeps the length |
| Fields.LowerAsciiIdempotent | src/model.js:460-461 | lower-casing twice is lower-casing once |
| Fields.NormalizedType | src/model.js:460-462 | the type is the `_typeMap` entry of the lower-cased spelling, else the spelling as given |
| Fields.TypeMapImagesFixed | src/model.js:474-484 | every type `_typeMap` produces is lower case and not itself a spelling |
| Fields.NormalizedTypeIdempotent | src/model.js:460-484 | normalising a normalised type changes nothing |
| Fields.NormalizedTypeIgnoresCase | src/model.js:460-462 | spellings differing only in case normalise alike |
| Fields.UnknownTypeKept | src/model.js:460-462 | an unknown spelling is kept, case included |
| Fields.NormalizedTypeExamples | src/model.js:474-484 | `DateTime` becomes `date-time`; `String` stays `String` |
| Fields.FieldData | src/model.js:452-454 | a field's data exists exactly for an object without key `0` or an empty array |
| Fields.FilledSpec | src/model.js:439-444 | a defined attribute wins; every default key is present |
| Fields.LabelledSpec | src/model.js:455-459 | naming the label changes only the label and keeps the keys |
| Fields.BuiltSpec | src/model.js:439-462 | the type is normalised, the label the given one or else the id, every other attribute kept |
| Fields.Built | src/model.js:450-462 | a built field has a string type that `_typeMap` leaves as it is |
| Fields.FieldAttributes | src/model.js:434-462 | a value that is not a proper hash throws; a built field has a normalised string type |
| Fields.FieldAttributesSpec | src/model.js:434-462 | a field is built exactly from a hash without `0` whose type is a string |
| Fields.FieldDefaultsDefined | src/model.js:439-444 | the defaults are defined and do not include `id` |
| Fields.BuiltAgainAt | src/model.js:439-462 | building again from built attributes reads every attribute back |
| Fields.BuiltStable | src/model.js:434-462 | a field built from a built field's attributes has the same attributes |
| Fields.BuiltKeepsNoZero | src/model.js:452-454 | construction adds no key `0` |
| Headings.HeadingText | src/model.js:148-152 | null becomes the empty text; a string is its own text; undefined throws |
| Headings.FirstFree | src/model.js:159-162 | the suffix search stops at the first untaken candidate |
| Headings.FirstFreeIsFirst | src/model.js:159-162 | every candidate passed over is taken |
| Headings.Probe | src/model.js:159-162 | the as-written while loop equals the first free candidate |
| Headings.RenameHeading | src/model.js:147-171 | one heading as written equals its specification |
| Headings.RenameAsWritten | src/model.js:154-165 | as written, an id handed out is not among the names counted so far, and the heading's text is counted afterwards |
| Headings.NameHeadings | src/model.js:146-171 | the headings in turn, threading `seen`, as written |
| Headings.NameAllShape | src/model.js:146-171 | one id per heading, in order; the first keeps its trimmed text or `_noname_` |
| Headings.NameAll | src/model.js:146-171 | as written, a row that is named gets one id per heading |
| Headings.NameAllFailsFrom | src/model.js:146-171 | an error at one heading is the outcome of the whole row |
| Headings.NameAllSnoc | src/model.js:146-171 | one more heading is the callback once more on what the row left |
| Headings.FirstHeading | src/model.js:154-165 | the first heading keeps its text and starts its counter at 0 |
| Headings.BlankHeadingNoname | src/model.js:148-165 | a null or blank first heading is named `_noname_`, as written and as intended |
| Headings.Fresh | src/model.js:159-165 | a plain heading not yet seen keeps its text |
| Headings.SpacedFresh | src/model.js:154-165 | a spaced heading not yet seen keeps the trimmed text; the counter is under the spaced text |
| Headings.SpacedAgain | src/model.js:159-162 | a spaced heading whose trimmed text was seen gets the suffix NaN |
| Headings.Again | src/model.js:159-165 | a plain heading seen `n` times gets the suffix `n+1` when free |
| Headings.TwoSame | src/model.js:159-165 | the same heading twice gets `x` and `x1` |
| Headings.RepeatedHeadingNumbered | src/model.js:159-165 | a repeated heading gets the suffixes 1, 2, ... |
| Headings.SuffixCollides | src/model.js:159-165 | as written, the headings `x, x, x1` come out as `x, x1, x1` |
| Headings.UntrimmedCounter | src/model.js:154-165 | as written, the headings `x, " x"` come out as `x, " xNaN"` |
| Headings.NaNTaken | src/model.js:159-165 | as written, the headings `x, " xNaN"` give the second the id `xNaN` |
| Headings.NaNLoops | src/model.js:159-162 | as written, the headings `x, " xNaN", " x"` loop for ever |
| Headings.RenameUnique | src/model.js:147-171 | corrected: counted under the trimmed name and every id recorded in `seen` |
| Headings.NameAllUniqueDefined | src/model.js:146-171 | corrected: a row is named exactly when no heading is undefined |
| Headings.NameAllUnique | src/model.js:146-171 | corrected: a row that is named gets one id per heading |
| Headings.NameAllUniqueDistinct | src/model.js:146-171 | corrected: one id per heading, every id recorded, no two the same |
| Headings.UntrimmedCounterAvoided | src/model.js:154-162 | corrected: the headings `x, " x"` come out as `x, x1`, the counter kept under the trimmed name |
| Headings.FreshUnique | src/model.js:159-165 | corrected: a plain heading not yet seen keeps its text |
| Headings.AgainUnique | src/model.js:159-165 | corrected: a heading seen before takes its next free suffix, which is recorded |
| Headings.TwoSameUnique | src/model.js:159-165 | corrected: the same heading twice gets `x` and `x1`, and `x1` is recorded |
| Headings.ThirdUnique | src/model.js:159-165 | corrected: `x1` after `x, x` moves on to `x11` |
| Headings.SuffixCollisionAvoided | src/model.js:159-165 | corrected: `x, x, x1` come out as `x, x1, x11` |
| Headings.NameAllUniqueFailsFrom | src/model.js:148-152 | corrected: an undefined heading ends the row with a TypeError |
| Headings.RenameHeadingUnique | src/model.js:147-171 | the corrected callback, with its while loop, equals its specification |
| Headings.NextFree | src/model.js:159-162 | the corrected `while (fieldId in seen)` search returns the first counter from its start whose name is free |
| Headings.NameHeadingsUnique | src/model.js:146-171 | the corrected headings loop equals its specification |
| Normalize.IdFields | src/model.js:168-170 | one `{id}` field per id, in order |
| Normalize.Row | src/model.js:176-182 | the record a row gives has exactly the ids as keys |
| Normalize.ZippedRow | src/model.js:178-181 | zipping the first `n` fields gives the record of the first `n` ids |
| Normalize.ZipRecordSpec | src/model.js:176-182 | a readable row zipped with distinct-id fields is the record of the ids |
| Normalize.RowAt | src/model.js:178-181 | the `j`-th id reads the row's `j`-th element, undefined past the end |
| Normalize.ZipRowsSpec | src/model.js:175-183 | array rows zipped with distinct-id fields give one record per row |
| Normalize.HeadingsRenamed | src/model.js:143-172 | with the corrected renaming: non-object headings become `{id}` fields with the renamed ids |
| Normalize.UndefinedHeadingThrows | src/model.js:148-152 | one undefined heading makes the renaming throw |
| Normalize.HeaderRowTaken | src/model.js:128-132 | a header row is taken as the fields, and the rows after it are the records |
| Normalize.Headers | src/model.js:127-140 | truthy fields are kept with the records; only rows that are not an array can throw; the records change only by losing their first row |
| Normalize.HeadingsAndRows | src/model.js:143-183 | with the corrected renaming: headings become distinct `{id}` fields, and each array row the record of the ids |
| Normalize.HeaderRowSpec | src/model.js:126-188 | with the corrected renaming: without fields, a leading array row is the renamed header and the other rows are zipped records |
| Normalize.HeaderRowRecordAt | src/model.js:126-188 | with the corrected renaming: in such a record, the `j`-th heading's id reads the row's `j`-th element |
| Normalize.ObjectRecordsSpec | src/model.js:133-138 | without fields and with object records, the fields are the first record's keys and the records are kept |
| Normalize.ObjectFieldsSpec | src/model.js:143-183 | `{id}` fields with distinct ids are kept and array rows are zipped with them |
| Normalize.HeadingFields | src/model.js:142-172 | fields that are not a row of headings are kept; a row of headings becomes one `{id}` field per heading |
| Normalize.Zip | src/model.js:173-183 | records not led by an array row are kept; array rows become one record each |
| Normalize.ObjectsKept | src/model.js:126-188 | object fields and non-row records are returned as given |
| Normalize.ArrayLikeRowsThrow | src/model.js:130-132 | an array-like object of rows has no `slice` and throws |
| Normalize.UndefinedHeadingFails | src/model.js:126-188 | an undefined heading makes the whole function throw |
| Normalize.UnreadableRowFails | src/model.js:175-183 | an undefined or null row, after a leading array row, throws once there is a field |
| Normalize.ZippedFails | src/model.js:178-181 | once a prefix of the fields has thrown, the row throws |
| Normalize.ZipRow | src/model.js:177-182 | the field loop over one row equals its specification |
| Normalize.ZipRecords | src/model.js:175-183 | the map over the rows equals its specification |
| Normalize.NormalizeRecords | src/model.js:126-188 | `_normalizeRecordsAndFields` step by step equals its specification |
| Normalize.FieldsFromHeadings | src/model.js:143-172 | the renaming step equals its specification: a row of headings becomes `{id}` fields under the corrected renaming, other fields stay |
| Normalize.NormalizeRecordsAndFields | src/model.js:126-188 | a failing header step throws the whole; fields that are not a row of headings come back as the header step left them |
| Normalize.NormalizeAsWritten | src/model.js:126-188 | as written: throws where the header step throws; loops only on a row of headings; a row of headings gives one field per heading, any other fields pass through |
| Normalize.AsWrittenWithoutHeadings | src/model.js:126-188 | where no row of headings is renamed, the function as written and the corrected one agree |
| Normalize.AsWrittenSameIds | src/model.js:143-172 | where the renaming as written hands out the corrected ids, the function as written and the corrected one agree |
| Normalize.HeaderDuplicatesAsWritten | src/model.js:159-165 | as written, the header row `x, x, x1` gives the fields `x, x1, x1` and no records |
| Normalize.HeaderCollisionAvoided | src/model.js:159-165 | corrected, the header row `x, x, x1` gives the distinct fields `x, x1, x11` |
| Normalize.HeaderLoopsAsWritten | src/model.js:159-162 | as written, the header row `x, " xNaN", " x"` never returns |

## Left out

- Transport: the jQuery ajax call, the `Deferred`, the request URL and the `makeRequest` headers. The outcome of a request is a parameter (`Response`: a reply, or a failure with status and text).
- Backbone events, `silent` flags and `trigger` calls. The model has no listeners.
- `Field` renderers, derivers and `defaultRenderers`, its `facets` list, `Dataset.facets.reset`, `Dataset.aggs.reset` and the record models. The model returns the attribute values these are built from.
- `_parseDate` and the write of `filter.format` in the date_range branch. The date value is passed through unconverted.
- Numbers are integers. Floating point, `NaN` as a value and the decimal forms of `toString` are not modelled; a heading suffix `NaN` is modelled as text.
- Named properties on arrays, such as a `_type` written on an array bucket or `top_docs` on an array of aggregations, are not represented. JSON would drop them anyway. An aggregation result that is an array is the exception: `_.defaults` copies its writes and its indices onto a new object, and the model builds that object.
- Names inherited from `Object.prototype` (`"constructor" in seen`, a `_typeMap` lookup of `"constructor"`) are not modelled. Lookups see own properties only.
- `toLowerCase` is modelled on ASCII letters only.
- `_.keys`, `_.defaults` and `_.first` follow underscore 1.6.0 and later, where `_.keys` of a non-object is the empty list. Underscore 1.5.x hands `_.keys` to the native `Object.keys`, which throws on a primitive under ES5; that behaviour is not modelled.
- JsonValue.Put, JsonValue.Keys: keys that are array indices (such as `"0"` or `"2019"`) stay in insertion order. JavaScript lists them first, in ascending order, before the other keys, so `_.keys`, `for-in` and JSON see a different order for records whose headings are numbers (src/model.js:134, 179) and for aggregations named by numbers (dist/elasticsearch.js:564). Modelling that order would need a canonical integer-string test on every key write.
- Aliasing: the source marks buckets and strips aggregation entries in place, and `addFilter` shares the filter template objects. The model returns new values, so writes seen through another reference are not captured.
- QueryState.Query.AddFilter, QueryState.Query.ReplaceFilter, QueryState.Query.RemoveFilter, QueryState.Query.SelectAggregation: the error the source raises on an unreadable argument (a `SyntaxError` from `JSON.parse` for undefined, a `TypeError` from reading a property of null) is a precondition here, not a modelled error; RemoveFilter admits an unreadable argument when there are no filters, where the source raises nothing.
- QueryState.OnlyLastOnField, QueryState.RemovedFieldSpec, QueryState.ReplacedKeepsOnePerField: one filter per field is proved for string fields only.
- RequestBody.AggregationsStripped: states the stripping only for aggregation maps that are not array-like, because `_.each` walks an array-like map by index and then leaves every other member as it is (`RequestBody.ArrayLikeEntryNotStripped`); that case is stated by `RequestBody.ArrayLikeAggregations`.
- Dataset.HandledAllSpec: a collection of aggregations that is an array or array-like object is not covered (one aggregation result that is an array is, by `Dataset.ArrayResultHandled`). The `_.map` over an array-like object is not modelled.
- Normalize.NormalizeRecords: uses the corrected heading renaming (`NameAllUnique`). The function as written is `Normalize.NormalizeAsWritten`, and its failures are listed under Findings.
- Normalize.HeadingsRenamed, Normalize.HeadingsAndRows, Normalize.HeaderRowSpec, Normalize.HeaderRowRecordAt: stated for the corrected renaming; as written the ids can repeat (`Normalize.HeaderDuplicatesAsWritten`) and the renaming can loop (`Normalize.HeaderLoopsAsWritten`), and they agree with it only as `Normalize.AsWrittenSameIds` says.
- Headings.SuffixCollides, Headings.UntrimmedCounter, Headings.NaNLoops and the other concrete heading lemmas are stated for headings made of plain letters.

## Findings

| source | as written | input that shows it | evidently intended | confidence | as-written member | corrected member |
|---|---|---|---|---|---|---|
| src/model.js:657 | `addBoostField` looks the field id up among the indices of the boost list (`_.keys` of an array) | `addBoostField('title')` twice: `title` is in the list twice | a field already boosted is not added again | not executed | QueryState.BoostFieldAddedTwice | QueryState.WithBoostFieldOnceSpec |
| src/model.js:159-165 | a suffixed id is never recorded in `seen` | headings `a, a, a1` give the ids `a, a1, a1` | every id distinct | not executed | Headings.SuffixCollides | Headings.SuffixCollisionAvoided |
| src/model.js:154-162 | the counter is read under the untrimmed text, but the test is on the trimmed id | headings `a, " a"` give the ids `a, " aNaN"` | the suffix 1, counted under the trimmed name | not executed | Headings.UntrimmedCounter | Headings.UntrimmedCounterAvoided |
| src/model.js:159-162 | once the counter is NaN every candidate is the same text | headings `a, " aNaN", " a"` loop for ever | every row named | not executed | Headings.NaNLoops | Headings.NameAllUniqueDefined |
| src/model.js:126-188 | `_normalizeRecordsAndFields` passes the repeated ids on as fields | the header row `a, a, a1` gives the fields `a, a1, a1` | distinct field ids | not executed | Normalize.HeaderDuplicatesAsWritten | Normalize.HeaderCollisionAvoided |
