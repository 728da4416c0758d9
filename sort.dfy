/**
 * The sort encoder of the Elasticsearch table (`_normalizeSort`): every
 * Recline sort entry `{field: f, order: o, ...}` becomes `{f: {order: o, ...}}`.
 */
module SortCodec {
  import opened Wrappers
  import opened JsonValue
  import opened JsSemantics

  /** `_.clone(sortObj)` followed by `delete clone['field']`. */
  function WithoutField(sortObj: Json): (r: Json)
    ensures r.JObj? <==> sortObj.JObj?
    ensures sortObj.JObj? ==> r.members == Remove(sortObj.members, "field")
    ensures !sortObj.JObj? ==> r == sortObj
  {
    if sortObj.JObj? then JObj(Remove(sortObj.members, "field")) else sortObj
  }

  /** One entry: `{[sortObj.field]: clone-without-field}`. */
  function SortEntry(sortObj: Json): Json
  {
    JObj([(PropKey(Get(sortObj, "field")), WithoutField(sortObj))])
  }

  /**
   * `_normalizeSort(sort)`: `_.map` over the entries.  Deleting a property of
   * undefined or null throws, so one such entry makes the whole call fail.
   */
  function NormalizeSort(sort: Json): (r: Option<seq<Json>>)
    ensures r.Some? <==> forall i :: 0 <= i < |Values(sort)| ==> Readable(Values(sort)[i])
    ensures r.Some? ==> |r.value| == |Values(sort)|
  {
    var entries := Values(sort);
    if forall i :: 0 <= i < |entries| ==> Readable(entries[i]) then
      Some(seq(|entries|, i requires 0 <= i < |entries| => SortEntry(entries[i])))
    else None
  }

  /**
   * Length and order are kept, each output entry has exactly one key, the
   * entry's `field`, and its value is the entry without `field`: every other
   * key keeps its value and position.
   */
  lemma NormalizeSortEntries(sort: Json, i: nat)
    requires NormalizeSort(sort).Some? && i < |Values(sort)|
    ensures var e := Values(sort)[i]; var out := NormalizeSort(sort).value[i];
      && out.JObj? && Keys(out.members) == [PropKey(Get(e, "field"))]
      && (e.JObj? ==> out.members[0].1.JObj?
                      && "field" !in Keys(out.members[0].1.members)
                      && forall k :: k != "field" ==> (k in Keys(out.members[0].1.members) <==> k in Keys(e.members)))
      && (forall k :: k != "field" ==> Get(out.members[0].1, k) == Get(e, k))
  {
    var e := Values(sort)[i];
    if e.JObj? {
      forall k | k != "field" ensures Get(WithoutField(e), k) == Get(e, k) {
        assert Lookup(Remove(e.members, "field"), k) == Lookup(e.members, k);
      }
    }
  }

  /** The way back: `{f: {opts}}` becomes `{field: f, opts...}`. */
  function DenormalizeEntry(entry: Json): (r: Json)
    requires entry.JObj? && |entry.members| == 1 && entry.members[0].1.JObj?
    ensures r.JObj? && |r.members| == 1 + |entry.members[0].1.members|
  {
    JObj([("field", JStr(entry.members[0].0))] + entry.members[0].1.members)
  }

  /**
   * An entry whose first key is a string `field` and whose other keys do not
   * repeat it comes back unchanged from encoding and decoding.
   */
  lemma EntryRoundTrip(f: string, opts: Members)
    requires "field" !in Keys(opts)
    ensures var e := JObj([("field", JStr(f))] + opts);
      SortEntry(e) == JObj([(f, JObj(opts))]) && DenormalizeEntry(SortEntry(e)) == e
  {
    var m := [("field", JStr(f))] + opts;
    KeysCons(m);
    assert m[1..] == opts;
    assert Remove(m, "field") == Remove(opts, "field");
  }

  /** And the other way round: decoding then encoding `{f: {opts}}` gives it back. */
  lemma EntryRoundTripBack(entry: Json)
    requires entry.JObj? && |entry.members| == 1 && entry.members[0].1.JObj?
    requires "field" !in Keys(entry.members[0].1.members)
    ensures SortEntry(DenormalizeEntry(entry)) == entry
  {
    EntryRoundTrip(entry.members[0].0, entry.members[0].1.members);
  }
}
