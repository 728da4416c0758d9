/**
 * The backend's `query` (`my.query`): the request is compiled and sent, and
 * the reply is turned into the result model the dataset reads.  The total
 * count is copied; each hit becomes its `_source`, with `id` backfilled from
 * `_id` and `highlight` attached; facets pass through; each aggregation
 * bucket is stamped with the kind named by the request's aggregation spec,
 * because Elasticsearch does not return it.  A failed request becomes a
 * failure record.
 *
 * The transport is a parameter (`Response`).  A TypeError thrown inside the
 * done callback escapes the deferred, which then never settles (`Stalled`);
 * one thrown while compiling the request escapes `query` itself (`Thrown`).
 * The mapper writes into the reply's own objects (`hit._source.id = ...`,
 * `bucket._type = ...`); no other reference to them survives, so the
 * model writes into values.
 */
module ResponseMapper {
  import opened Wrappers
  import opened JsonValue
  import opened JsSemantics
  import RequestBody

  /** What the transport delivers: the parsed reply, or the failed request's status and text. */
  datatype Response = Done(results: Json) | Failed(status: Json, responseText: Json)

  /** How the promise `query` returns ends, or the TypeError it throws at once. */
  datatype Outcome = Resolved(out: Json) | Rejected(error: Json) | Stalled | Thrown

  // ---------------------------------------------------------------- hits

  /**
   * `target[k] = v` on a value known to be an object or an array: an object
   * gets the member; a named property of an array is not represented.
   */
  function WriteMember(target: Json, k: string, v: Json): (r: Json)
    requires IsObject(target)
    ensures IsObject(r) && r.JObj? == target.JObj?
  {
    if target.JObj? then JObj(Put(target.members, k, v)) else target
  }

  /**
   * One hit: `'id' in hit._source` throws unless the source is an object;
   * `id` is backfilled from a truthy `_id` when the source has no `id`, and a
   * truthy `highlight` is attached.
   */
  function MapHit(hit: Json): (r: Option<Json>)
    ensures r.Some? <==> Readable(hit) && IsObject(Get(hit, "_source"))
    ensures r.Some? ==> IsObject(r.value) && r.value.JObj? == Get(hit, "_source").JObj?
  {
    if !Readable(hit) || !IsObject(Get(hit, "_source")) then None
    else
      var source := Get(hit, "_source");
      var withId := if !HasOwn(source, "id") && Truthy(Get(hit, "_id")) then WriteMember(source, "id", Get(hit, "_id")) else source;
      Some(if Truthy(Get(hit, "highlight")) then WriteMember(withId, "highlight", Get(hit, "highlight")) else withId)
  }

  /** `_.map(results.hits.hits, ...)` over the values the map visits. */
  function MappedHits(hs: seq<Json>): Option<seq<Json>>
  {
    Traverse(hs, MapHit)
  }

  /** The hits loop as the library runs it. */
  method MapHits(hs: seq<Json>) returns (r: Option<seq<Json>>)
    ensures r == MappedHits(hs)
  {
    var out: seq<Json> := [];
    var i := 0;
    while i < |hs|
      invariant 0 <= i <= |hs|
      invariant Traverse(hs[..i], MapHit) == Some(out)
    {
      var hit := hs[i];
      TraverseStep(hs, MapHit, i);
      if !Readable(hit) || !IsObject(Get(hit, "_source")) {
        TraverseFailsFrom(hs, MapHit, i + 1);
        return None;
      }
      var source := Get(hit, "_source");
      if !HasOwn(source, "id") && Truthy(Get(hit, "_id")) {
        source := WriteMember(source, "id", Get(hit, "_id"));
      }
      if Truthy(Get(hit, "highlight")) {
        source := WriteMember(source, "highlight", Get(hit, "highlight"));
      }
      assert MapHit(hit) == Some(source);
      out := out + [source];
      i := i + 1;
    }
    assert hs[..i] == hs;
    return Some(out);
  }

  /**
   * The hits keep their number and order: the mapping succeeds exactly when
   * every hit is readable with an object source, and the i-th result is the
   * i-th hit's mapped source.
   */
  lemma HitsInOrder(hs: seq<Json>)
    ensures MappedHits(hs).Some? <==> forall i :: 0 <= i < |hs| ==> Readable(hs[i]) && IsObject(Get(hs[i], "_source"))
    ensures MappedHits(hs).Some? ==> |MappedHits(hs).value| == |hs|
    ensures MappedHits(hs).Some? ==> forall i :: 0 <= i < |hs| ==> MappedHits(hs).value[i] == MapHit(hs[i]).value
  {
    TraverseContents(hs, MapHit);
  }

  /**
   * For an object source: `id` is the source's own `id` when it has one,
   * otherwise `_id` when that is truthy, and absent otherwise; `highlight` is
   * the hit's highlight when truthy, and the source's own otherwise.
   */
  lemma HitIdBackfilled(hit: Json)
    requires Readable(hit) && Get(hit, "_source").JObj?
    ensures var m := Get(hit, "_source").members;
      var r := MapHit(hit).value.members;
      && ("id" in Keys(r) <==> "id" in Keys(m) || Truthy(Get(hit, "_id")))
      && Lookup(r, "id") == (if "id" in Keys(m) || !Truthy(Get(hit, "_id")) then Lookup(m, "id") else Get(hit, "_id"))
      && (Truthy(Get(hit, "highlight")) ==> "highlight" in Keys(r) && Lookup(r, "highlight") == Get(hit, "highlight"))
      && (!Truthy(Get(hit, "highlight")) ==> Agrees(r, m, "highlight"))
  {
    var source := Get(hit, "_source");
    var m := source.members;
    var m1 := if "id" !in Keys(m) && Truthy(Get(hit, "_id")) then Put(m, "id", Get(hit, "_id")) else m;
    assert MapHit(hit).value.members == if Truthy(Get(hit, "highlight")) then Put(m1, "highlight", Get(hit, "highlight")) else m1;
    assert |"id"| == 2 && |"highlight"| == 9;
    if Truthy(Get(hit, "highlight")) {
      PutFrame(m1, "highlight", Get(hit, "highlight"), "id");
    }
    if "id" !in Keys(m) && Truthy(Get(hit, "_id")) {
      PutFrame(m, "id", Get(hit, "_id"), "highlight");
    }
  }

  /** Every other member of an object source is passed through as it was. */
  lemma HitKeepsOtherMembers(hit: Json, k: string)
    requires Readable(hit) && Get(hit, "_source").JObj? && k != "id" && k != "highlight"
    ensures Agrees(MapHit(hit).value.members, Get(hit, "_source").members, k)
  {
    var m := Get(hit, "_source").members;
    var m1 := if "id" !in Keys(m) && Truthy(Get(hit, "_id")) then Put(m, "id", Get(hit, "_id")) else m;
    if "id" !in Keys(m) && Truthy(Get(hit, "_id")) {
      PutFrame(m, "id", Get(hit, "_id"), k);
    }
    if Truthy(Get(hit, "highlight")) {
      PutFrame(m1, "highlight", Get(hit, "highlight"), k);
    }
  }

  // ---------------------------------------------------------------- aggregation kinds

  /**
   * `bucket._type = t`: an object gets the member, the write to an array is
   * not represented, and the write to any other value throws in strict mode.
   */
  function SetType(bucket: Json, t: string): (r: Option<Json>)
    ensures r.None? <==> !IsObject(bucket)
  {
    match bucket
    case JObj(m) => Some(JObj(Put(m, "_type", JStr(t))))
    case JArr(_) => Some(bucket)
    case _ => None
  }

  /** `_.each(_.keys(queryObjbucket), function (type) { bucket._type = type; })`. */
  function StampTypes(bucket: Json, types: seq<string>): Option<Json>
    decreases |types|
  {
    if |types| == 0 then Some(bucket)
    else
      var b :- StampTypes(bucket, types[..|types| - 1]);
      SetType(b, types[|types| - 1])
  }

  /**
   * The inner `_.each(queryObj.aggs, ...)` for the bucket under `key`: every
   * spec entry whose key loosely equals `key` writes each of its own keys,
   * in order, into the bucket's `_type`.
   */
  function StampedBucket(bucket: Json, key: Json, spec: seq<(Json, Json)>): Option<Json>
    decreases |spec|
  {
    if |spec| == 0 then Some(bucket)
    else
      var b :- StampedBucket(bucket, key, spec[..|spec| - 1]);
      if LooseEq(spec[|spec| - 1].0, key) then StampTypes(b, KeysOf(spec[|spec| - 1].1)) else Some(b)
  }

  /**
   * The kind a bucket ends up with, stated on its own: the last key of the
   * last spec entry that matches `key` and has keys, if any.
   */
  function LastKind(key: Json, spec: seq<(Json, Json)>): (kind: Option<string>)
    decreases |spec|
  {
    if |spec| == 0 then None
    else
      var ks := KeysOf(spec[|spec| - 1].1);
      if LooseEq(spec[|spec| - 1].0, key) && |ks| > 0 then Some(ks[|ks| - 1])
      else LastKind(key, spec[..|spec| - 1])
  }

  /** An object bucket with the kind written, or as it was when there is none. */
  function WithKind(m: Members, kind: Option<string>): Members
  {
    if kind.Some? then Put(m, "_type", JStr(kind.value)) else m
  }

  /** Writing the keys of one spec entry leaves an object bucket with the last of them. */
  lemma {:induction false} StampTypesObject(m: Members, types: seq<string>)
    ensures StampTypes(JObj(m), types)
         == Some(JObj(if |types| == 0 then m else Put(m, "_type", JStr(types[|types| - 1]))))
    decreases |types|
  {
    if |types| > 1 {
      var init := types[..|types| - 1];
      StampTypesObject(m, init);
      PutOverwrite(m, "_type", JStr(init[|init| - 1]), JStr(types[|types| - 1]));
    }
  }

  /** On any other value, the first write throws; with no keys to write nothing happens. */
  lemma {:induction false} StampTypesNonObject(bucket: Json, types: seq<string>)
    requires !bucket.JObj?
    ensures StampTypes(bucket, types) == if bucket.JArr? || |types| == 0 then Some(bucket) else None
    decreases |types|
  {
    if |types| > 0 {
      StampTypesNonObject(bucket, types[..|types| - 1]);
    }
  }

  /** An object bucket is stamped with exactly the last matching kind, and gains or changes nothing else. */
  lemma {:induction false} StampedObjectKind(m: Members, key: Json, spec: seq<(Json, Json)>)
    ensures StampedBucket(JObj(m), key, spec) == Some(JObj(WithKind(m, LastKind(key, spec))))
    decreases |spec|
  {
    if |spec| > 0 {
      var init := spec[..|spec| - 1];
      StampedObjectKind(m, key, init);
      var b := WithKind(m, LastKind(key, init));
      var ks := KeysOf(spec[|spec| - 1].1);
      if LooseEq(spec[|spec| - 1].0, key) {
        StampTypesObject(b, ks);
        if |ks| > 0 && LastKind(key, init).Some? {
          PutOverwrite(m, "_type", JStr(LastKind(key, init).value), JStr(ks[|ks| - 1]));
        }
      }
    }
  }

  /**
   * A bucket that is no object is left as it is, unless some matching spec
   * entry has keys: then the write throws (an array keeps its value).
   */
  lemma {:induction false} StampedOtherKind(bucket: Json, key: Json, spec: seq<(Json, Json)>)
    requires !bucket.JObj?
    ensures StampedBucket(bucket, key, spec)
         == if bucket.JArr? || LastKind(key, spec).None? then Some(bucket) else None
    decreases |spec|
  {
    if |spec| > 0 {
      var init := spec[..|spec| - 1];
      StampedOtherKind(bucket, key, init);
      if StampedBucket(bucket, key, init).Some? && LooseEq(spec[|spec| - 1].0, key) {
        StampTypesNonObject(bucket, KeysOf(spec[|spec| - 1].1));
      }
    }
  }

  /** The stamping loops as the library runs them. */
  method StampBucket(bucket: Json, key: Json, spec: seq<(Json, Json)>) returns (r: Option<Json>)
    ensures r == StampedBucket(bucket, key, spec)
  {
    var b := bucket;
    var i := 0;
    while i < |spec|
      invariant 0 <= i <= |spec|
      invariant StampedBucket(bucket, key, spec[..i]) == Some(b)
    {
      assert spec[..i + 1][..i] == spec[..i];
      if LooseEq(spec[i].0, key) {
        var next := StampKinds(b, KeysOf(spec[i].1));
        if next.None? {
          StampedFailsFrom(bucket, key, spec, i + 1);
          return None;
        }
        b := next.value;
      }
      i := i + 1;
    }
    assert spec[..i] == spec;
    return Some(b);
  }

  /** The inner loop: one spec entry's keys written, in order, into the bucket's `_type`. */
  method StampKinds(bucket: Json, types: seq<string>) returns (r: Option<Json>)
    ensures r == StampTypes(bucket, types)
  {
    var b := bucket;
    var j := 0;
    while j < |types|
      invariant 0 <= j <= |types|
      invariant StampTypes(bucket, types[..j]) == Some(b)
    {
      StampTypesStep(bucket, types, j, b);
      var next := SetType(b, types[j]);
      if next.None? {
        StampsFailFrom(bucket, types, j + 1);
        return None;
      }
      b := next.value;
      j := j + 1;
    }
    assert types[..j] == types;
    return Some(b);
  }

  /** One more key written on top of the first `j`. */
  lemma StampTypesStep(bucket: Json, types: seq<string>, j: nat, b: Json)
    requires j < |types| && StampTypes(bucket, types[..j]) == Some(b)
    ensures StampTypes(bucket, types[..j + 1]) == SetType(b, types[j])
  {
    assert types[..j + 1][..j] == types[..j];
  }

  /** Once a write has thrown, writing more keys does not help. */
  lemma {:induction false} StampsFailFrom(bucket: Json, types: seq<string>, n: nat)
    requires n <= |types| && StampTypes(bucket, types[..n]).None?
    ensures StampTypes(bucket, types).None?
    decreases |types| - n
  {
    if n < |types| {
      assert types[..n + 1][..n] == types[..n];
      StampsFailFrom(bucket, types, n + 1);
    } else {
      assert types[..n] == types;
    }
  }

  /** Once a spec entry's writes have thrown, the later entries do not matter. */
  lemma {:induction false} StampedFailsFrom(bucket: Json, key: Json, spec: seq<(Json, Json)>, n: nat)
    requires n <= |spec| && StampedBucket(bucket, key, spec[..n]).None?
    ensures StampedBucket(bucket, key, spec).None?
    decreases |spec| - n
  {
    if n < |spec| {
      assert spec[..n + 1][..n] == spec[..n];
      StampedFailsFrom(bucket, key, spec, n + 1);
    } else {
      assert spec[..n] == spec;
    }
  }

  // ---------------------------------------------------------------- aggregations

  /**
   * `out.aggregations = {}; _.each(results.aggregations, function (bucket, key) {
   * ...; out.aggregations[key] = bucket; })`.
   */
  function StampedAggregations(buckets: seq<(Json, Json)>, spec: seq<(Json, Json)>): Option<Members>
    decreases |buckets|
  {
    if |buckets| == 0 then Some([])
    else
      var acc :- StampedAggregations(buckets[..|buckets| - 1], spec);
      var b :- StampedBucket(buckets[|buckets| - 1].1, buckets[|buckets| - 1].0, spec);
      Some(Put(acc, PropKey(buckets[|buckets| - 1].0), b))
  }

  /** The member one bucket contributes: its key as a property name and its stamped value. */
  function StampedEntry(spec: seq<(Json, Json)>): ((Json, Json)) -> Option<(string, Json)>
  {
    (e: (Json, Json)) => var b :- StampedBucket(e.1, e.0, spec); Some((PropKey(e.0), b))
  }

  /** No two buckets name the same property (true of every object and array reply). */
  predicate DistinctKeys(buckets: seq<(Json, Json)>)
  {
    forall i, j :: 0 <= i < j < |buckets| ==> PropKey(buckets[i].0) != PropKey(buckets[j].0)
  }

  /**
   * With distinct keys, the aggregations are the buckets in their order,
   * each under its own key and stamped on its own.
   */
  lemma {:induction false} AggregationsInOrder(buckets: seq<(Json, Json)>, spec: seq<(Json, Json)>)
    requires DistinctKeys(buckets)
    ensures StampedAggregations(buckets, spec) == Traverse(buckets, StampedEntry(spec))
    decreases |buckets|
  {
    if |buckets| > 0 {
      var init := buckets[..|buckets| - 1];
      assert DistinctKeys(init);
      AggregationsInOrder(init, spec);
      TraverseContents(init, StampedEntry(spec));
      var acc := StampedAggregations(init, spec);
      var last := buckets[|buckets| - 1];
      if acc.Some? && StampedBucket(last.1, last.0, spec).Some? {
        assert Keys(acc.value) == seq(|init|, i requires 0 <= i < |init| => PropKey(init[i].0));
        assert PropKey(last.0) !in Keys(acc.value);
        PutNew(acc.value, PropKey(last.0), StampedBucket(last.1, last.0, spec).value);
      }
    }
  }

  /** The aggregations loop as the library runs it. */
  method StampAggregations(buckets: seq<(Json, Json)>, spec: seq<(Json, Json)>) returns (r: Option<Members>)
    ensures r == StampedAggregations(buckets, spec)
  {
    var out: Members := [];
    var i := 0;
    while i < |buckets|
      invariant 0 <= i <= |buckets|
      invariant StampedAggregations(buckets[..i], spec) == Some(out)
    {
      assert buckets[..i + 1][..i] == buckets[..i];
      var b := StampBucket(buckets[i].1, buckets[i].0, spec);
      if b.None? {
        AggregationsFailFrom(buckets, spec, i + 1);
        return None;
      }
      out := Put(out, PropKey(buckets[i].0), b.value);
      i := i + 1;
    }
    assert buckets[..i] == buckets;
    return Some(out);
  }

  /** A bucket whose stamping threw leaves the whole reply unmapped. */
  lemma {:induction false} AggregationsFailFrom(buckets: seq<(Json, Json)>, spec: seq<(Json, Json)>, n: nat)
    requires n <= |buckets| && StampedAggregations(buckets[..n], spec).None?
    ensures StampedAggregations(buckets, spec).None?
    decreases |buckets| - n
  {
    if n < |buckets| {
      assert buckets[..n + 1][..n] == buckets[..n];
      AggregationsFailFrom(buckets, spec, n + 1);
    } else {
      assert buckets[..n] == buckets;
    }
  }

  // ---------------------------------------------------------------- the result model

  /** `{total: results.hits.total, hits: hits}`, then `facets` when the reply's facets are truthy. */
  function Envelope(results: Json, hits: seq<Json>): (out: Members)
    ensures Keys(out) == ["total", "hits"] + (if Truthy(Get(results, "facets")) then ["facets"] else [])
    ensures "aggregations" !in Keys(out)
    ensures Lookup(out, "total") == Get(Get(results, "hits"), "total")
    ensures Lookup(out, "hits") == JArr(hits)
  {
    var out := [("total", Get(Get(results, "hits"), "total")), ("hits", JArr(hits))];
    assert |"total"| == 5 && |"hits"| == 4 && |"facets"| == 6 && |"aggregations"| == 12;
    assert Lookup(out, "hits") == JArr(hits);
    EnvelopeKeys(out, Get(results, "facets"), Truthy(Get(results, "facets")));
    if Truthy(Get(results, "facets")) then Put(out, "facets", Get(results, "facets")) else out
  }

  /**
   * The done callback: `{total, hits}`, then `facets` when truthy, then
   * `aggregations` when truthy.  Reading `results.hits.total` throws when
   * the reply or its `hits` is undefined or null.
   */
  function ResultModel(results: Json, spec: Json): (r: Option<Json>)
    ensures !Readable(results) || !Readable(Get(results, "hits")) ==> r.None?
    ensures r.Some? ==>
      && r.value.JObj?
      && Lookup(r.value.members, "total") == Get(Get(results, "hits"), "total")
      && Lookup(r.value.members, "hits").JArr?
      && |Lookup(r.value.members, "hits").items| == |Values(Get(Get(results, "hits"), "hits"))|
      && ("aggregations" in Keys(r.value.members) <==> Truthy(Get(results, "aggregations")))
  {
    if !Readable(results) || !Readable(Get(results, "hits")) then None
    else
      var hits :- MappedHits(Values(Get(Get(results, "hits"), "hits")));
      var out1 := Envelope(results, hits);
      if Truthy(Get(results, "aggregations")) then
        var aggs :- StampedAggregations(Entries(Get(results, "aggregations")), Entries(spec));
        var res := Put(out1, "aggregations", JObj(aggs));
        assert "aggregations" in Keys(res);
        Some(JObj(res))
      else Some(JObj(out1))
  }

  /** The done callback as the library runs it. */
  method BuildResult(results: Json, spec: Json) returns (r: Option<Json>)
    ensures r == ResultModel(results, spec)
  {
    if !Readable(results) || !Readable(Get(results, "hits")) {
      return None;
    }
    var hits := MapHits(Values(Get(Get(results, "hits"), "hits")));
    if hits.None? {
      return None;
    }
    var out := [("total", Get(Get(results, "hits"), "total")), ("hits", JArr(hits.value))];
    if Truthy(Get(results, "facets")) {
      out := Put(out, "facets", Get(results, "facets"));
    }
    assert out == Envelope(results, hits.value);
    if Truthy(Get(results, "aggregations")) {
      var aggs := StampAggregations(Entries(Get(results, "aggregations")), Entries(spec));
      if aggs.None? {
        return None;
      }
      out := Put(out, "aggregations", JObj(aggs.value));
    }
    return Some(JObj(out));
  }

  /**
   * The result model has `total` and `hits`, in that order, then `facets`
   * exactly when the reply's facets are truthy, then `aggregations` exactly
   * when its aggregations are truthy.
   */
  lemma ResultKeys(results: Json, spec: Json)
    requires ResultModel(results, spec).Some?
    ensures var out := ResultModel(results, spec).value;
      && out.JObj?
      && Keys(out.members) == ["total", "hits"]
           + (if Truthy(Get(results, "facets")) then ["facets"] else [])
           + (if Truthy(Get(results, "aggregations")) then ["aggregations"] else [])
  {
    var hits := MappedHits(Values(Get(Get(results, "hits"), "hits"))).value;
    var out1 := Envelope(results, hits);
    if Truthy(Get(results, "aggregations")) {
      var aggs := StampedAggregations(Entries(Get(results, "aggregations")), Entries(spec)).value;
      assert ResultModel(results, spec).value == JObj(Put(out1, "aggregations", JObj(aggs)));
      AggregationsKeys(out1, JObj(aggs), Truthy(Get(results, "facets")));
    } else {
      assert ResultModel(results, spec).value == JObj(out1);
    }
  }

  /** `aggregations` goes after `total`, `hits` and the optional `facets`. */
  lemma AggregationsKeys(out: Members, aggs: Json, facets: bool)
    requires Keys(out) == ["total", "hits"] + (if facets then ["facets"] else [])
    ensures Keys(Put(out, "aggregations", aggs)) == Keys(out) + ["aggregations"]
  {
    assert "aggregations" !in Keys(out) by {
      assert |"aggregations"| == 12;
    }
  }

  /** `total` and `hits`, then `facets` when it is written. */
  lemma EnvelopeKeys(out: Members, facets: Json, written: bool)
    requires Keys(out) == ["total", "hits"]
    ensures Keys(if written then Put(out, "facets", facets) else out)
         == ["total", "hits"] + (if written then ["facets"] else [])
  {
    assert "facets" !in Keys(out) by {
      assert |"facets"| == 6 && |"total"| == 5 && |"hits"| == 4;
    }
  }

  // ---------------------------------------------------------------- query

  /** The failure record: `{title: 'Failed: ' + status + ' code', message: responseText}`. */
  function FailureRecord(status: Json, responseText: Json): Json
  {
    JObj([("title", JStr("Failed: " + ToStr(status) + " code")), ("message", responseText)])
  }

  /**
   * `query(queryObj, dataset)` with the transport's answer as a parameter:
   * the compiled request (whose compilation strips the caller's aggregation
   * entries), then the reply mapped against the caller's aggregation spec.
   */
  function QueryOutcome(queryObj: Json, response: Response): (o: Outcome)
    ensures o.Thrown? <==> RequestBody.CompileSpec(queryObj).None?
    ensures o.Rejected? <==> RequestBody.CompileSpec(queryObj).Some? && response.Failed?
    ensures o.Resolved? ==> response.Done? && ResultModel(response.results, RequestBody.CompileSpec(queryObj).value.callerAggs) == Some(o.out)
    ensures o.Stalled? <==> RequestBody.CompileSpec(queryObj).Some? && response.Done?
                            && ResultModel(response.results, RequestBody.CompileSpec(queryObj).value.callerAggs).None?
  {
    match RequestBody.CompileSpec(queryObj)
    case None => Thrown
    case Some(compiled) =>
      match response
      case Failed(status, text) => Rejected(FailureRecord(status, text))
      case Done(results) =>
        match ResultModel(results, compiled.callerAggs)
        case None => Stalled
        case Some(out) => Resolved(out)
  }

  /** `query` as the library runs it. */
  method Query(queryObj: Json, response: Response) returns (o: Outcome)
    ensures o == QueryOutcome(queryObj, response)
  {
    var compiled := RequestBody.Compile(queryObj);
    if compiled.None? {
      return Thrown;
    }
    match response {
      case Failed(status, text) =>
        return Rejected(FailureRecord(status, text));
      case Done(results) =>
        var out := BuildResult(results, compiled.value.callerAggs);
        if out.None? {
          return Stalled;
        }
        return Resolved(out.value);
    }
  }

  /** A failed request is rejected with its status in the title and its response text as the message. */
  lemma FailureRejected(queryObj: Json, status: Json, text: Json)
    requires RequestBody.CompileSpec(queryObj).Some?
    ensures var o := QueryOutcome(queryObj, Failed(status, text));
      && o.Rejected?
      && Member(o.error, "title") == JStr("Failed: " + ToStr(status) + " code")
      && Member(o.error, "message") == text
  {
    var title := "Failed: " + ToStr(status) + " code";
    assert QueryOutcome(queryObj, Failed(status, text)) == Rejected(FailureRecord(status, text));
    TitleAndMessage(title, text);
  }

  /** The two members of a failure record read back as written. */
  lemma TitleAndMessage(title: string, message: Json)
    ensures Lookup([("title", JStr(title)), ("message", message)], "title") == JStr(title)
    ensures Lookup([("title", JStr(title)), ("message", message)], "message") == message
  {
    var m := [("title", JStr(title)), ("message", message)];
    assert UniqueKeys(m) by {
      assert |"title"| == 5 && |"message"| == 7;
    }
    LookupAt(m, 1);
  }

  /** The record for an HTTP 404: `{title: 'Failed: 404 code', message: 'Not Found'}`. */
  lemma NotFoundRecord()
    ensures FailureRecord(JNum(404), JStr("Not Found"))
         == JObj([("title", JStr("Failed: 404 code")), ("message", JStr("Not Found"))])
  {
    assert NatToString(4) == "4";
    assert NatToString(40) == NatToString(4) + [DigitChar(0)] == "40";
    assert NatToString(404) == NatToString(40) + [DigitChar(4)] == "404";
    assert ToStr(JNum(404)) == "404";
    assert "Failed: " + "404" + " code" == "Failed: 404 code";
  }
}
