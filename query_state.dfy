/**
 * The search state a user edits: the Query model of src/model.js.  Its
 * attributes (query text, paging, filters, boost fields, facets and
 * aggregations) are changed in place by the mutators the views call; the
 * backend reads them back through `toJSON()`.
 *
 * Every mutator is a method of the class `Query` proved against a function on
 * values; the properties the library relies on are lemmas about those
 * functions.
 */
module QueryState {
  import opened Wrappers
  import opened JsonValue
  import opened JsSemantics
  import opened AggregationKeys

  // ---------------------------------------------------------------- filter templates

  const TermTemplate: Json := JObj([("type", JStr("term")), ("field", JStr("")), ("term", JStr(""))])
  const RangeTemplate: Json := JObj([("type", JStr("range")), ("from", JStr("")), ("to", JStr(""))])
  const GeoDistanceTemplate: Json :=
    JObj([("type", JStr("geo_distance")), ("distance", JNum(10)), ("unit", JStr("km")),
          ("point", JObj([("lon", JNum(0)), ("lat", JNum(0))]))])

  /** `_filterTemplates`: a filter given by little more than its type is completed from one of these. */
  const FilterTemplates: Members :=
    [("term", TermTemplate), ("range", RangeTemplate), ("geo_distance", GeoDistanceTemplate)]

  /** `this._filterTemplates[filter.type]`. */
  function Template(filter: Json): Json
  {
    Lookup(FilterTemplates, PropKey(Get(filter, "type")))
  }

  /** Every template is an object without repeated keys; any other type names none. */
  lemma TemplateShape(filter: Json)
    ensures Template(filter) == JUndef || (Template(filter).JObj? && UniqueKeys(Template(filter).members))
  {
    assert UniqueKeys(TermTemplate.members) by {
      assert |"type"| == 4 && |"field"| == 5 && |"term"| == 4 && "type"[1] != "term"[1];
    }
    assert UniqueKeys(RangeTemplate.members) by {
      assert |"type"| == 4 && |"from"| == 4 && |"to"| == 2 && "type"[0] != "from"[0];
    }
    assert UniqueKeys(GeoDistanceTemplate.members) by {
      assert |"type"| == 4 && |"distance"| == 8 && |"unit"| == 4 && |"point"| == 5;
      assert "type"[0] != "unit"[0];
    }
    var name := PropKey(Get(filter, "type"));
    LookupAt(FilterTemplates, 0);
    if name != "term" && name != "range" && name != "geo_distance" {
      assert name !in Keys(FilterTemplates);
    } else if name == "range" {
      assert |"term"| == 4 && |"range"| == 5;
    } else if name == "geo_distance" {
      assert |"term"| == 4 && |"range"| == 5 && |"geo_distance"| == 12;
    }
  }

  // ---------------------------------------------------------------- completing a filter

  /**
   * `_.defaults(obj, template)` on an object: each template key whose value in
   * the object is still undefined is written, in the template's key order.
   */
  function FillDefaults(m: Members, t: Members): (r: Members)
    decreases |t|
  {
    if |t| == 0 then m
    else
      var acc := FillDefaults(m, t[..|t| - 1]);
      var (k, v) := t[|t| - 1];
      if Lookup(acc, k) == JUndef then Put(acc, k, v) else acc
  }

  /** A key is present after the defaults exactly when the object or the template has it. */
  lemma {:induction false} FillDefaultsKeys(m: Members, t: Members)
    ensures forall k :: k in Keys(FillDefaults(m, t)) <==> k in Keys(m) || k in Keys(t)
    decreases |t|
  {
    if |t| > 0 {
      var init := t[..|t| - 1];
      var last := t[|t| - 1];
      FillDefaultsKeys(m, init);
      assert t == init + [last];
      KeysAppend(init, [last]);
      assert Keys(t) == Keys(init) + [last.0];
      var acc := FillDefaults(m, init);
      if Lookup(acc, last.0) != JUndef {
        assert last.0 in Keys(acc);
      }
    }
  }

  /** A defined value of the object wins; an undefined one is replaced by the template's. */
  lemma {:induction false} FillDefaultsValues(m: Members, t: Members)
    requires UniqueKeys(t)
    ensures forall k :: Lookup(FillDefaults(m, t), k)
                     == if Lookup(m, k) != JUndef then Lookup(m, k) else Lookup(t, k)
    decreases |t|
  {
    if |t| > 0 {
      var init := t[..|t| - 1];
      var last := t[|t| - 1];
      assert UniqueKeys(init);
      FillDefaultsValues(m, init);
      assert t == init + [last];
      assert last.0 !in Keys(init) by {
        forall j | 0 <= j < |init| ensures Keys(init)[j] != last.0 {
          assert init[j] == t[j];
        }
      }
      forall k ensures Lookup(FillDefaults(m, t), k)
                    == if Lookup(m, k) != JUndef then Lookup(m, k) else Lookup(t, k)
      {
        LookupAppend(init, [last], k);
      }
    }
  }

  /** `_.defaults(obj, template)`; a missing template (an unknown type) changes nothing. */
  function Defaults(obj: Json, template: Json): Json
  {
    if obj.JObj? && template.JObj? then JObj(FillDefaults(obj.members, template.members)) else obj
  }

  /**
   * The filter `addFilter` pushes: a deep copy of the argument, completed
   * from the template of its type when it has at most three keys.
   */
  function Completed(filter: Json): (r: Json)
    ensures Readable(filter) ==> Readable(r)
  {
    var copy := JsonCopy(filter);
    if |KeysOf(filter)| <= 3 then Defaults(copy, Template(filter)) else copy
  }

  /** In a member list without repeated keys, dropping the undefined members changes no lookup. */
  lemma {:induction false} LookupDropUndefined(m: Members, k: string)
    requires UniqueKeys(m)
    ensures Lookup(DropUndefined(m), k) == Lookup(m, k)
  {
    if |m| > 0 {
      KeysCons(m);
      assert UniqueKeys(m[1..]);
      LookupDropUndefined(m[1..], k);
      assert m[0].0 !in Keys(m[1..]) by {
        forall j | 0 <= j < |m| - 1 ensures Keys(m[1..])[j] != m[0].0 {
          assert m[1..][j] == m[j + 1];
        }
      }
      if m[0].1 != JUndef {
        var d := DropUndefined(m);
        assert d == [m[0]] + DropUndefined(m[1..]);
        assert d[0] == m[0] && d[1..] == DropUndefined(m[1..]);
      }
    }
  }

  /** Copying every value of a member list keeps the keys and copies what each key reads as. */
  lemma {:induction false} LookupCopied(m: Members, k: string)
    ensures var c := seq(|m|, i requires 0 <= i < |m| => (m[i].0, JsonCopy(m[i].1)));
      Keys(c) == Keys(m) && Lookup(c, k) == JsonCopy(Lookup(m, k))
  {
    var c := seq(|m|, i requires 0 <= i < |m| => (m[i].0, JsonCopy(m[i].1)));
    if |m| > 0 {
      var rest := seq(|m| - 1, i requires 0 <= i < |m| - 1 => (m[1..][i].0, JsonCopy(m[1..][i].1)));
      assert c[1..] == rest;
      LookupCopied(m[1..], k);
      KeysCons(m);
      KeysCons(c);
    }
  }

  /** Reading a key of the copy of an object is copying what the object holds there. */
  lemma JsonCopyLookup(m: Members, k: string)
    requires UniqueKeys(m)
    ensures JsonCopy(JObj(m)).JObj?
    ensures Lookup(JsonCopy(JObj(m)).members, k) == JsonCopy(Lookup(m, k))
  {
    var c := seq(|m|, i requires 0 <= i < |m| => (m[i].0, JsonCopy(m[i].1)));
    LookupCopied(m, k);
    assert UniqueKeys(c) by {
      forall i, j | 0 <= i < j < |c| ensures c[i].0 != c[j].0 {
        assert c[i].0 == m[i].0 && c[j].0 == m[j].0;
      }
    }
    LookupDropUndefined(c, k);
    assert JsonCopy(JObj(m)) == JObj(DropUndefined(c));
  }

  /**
   * What the completed filter holds under any key: the copied value when the
   * filter gave one or has more than three keys, the template's otherwise.
   */
  lemma CompletedMember(filter: Json, k: string)
    requires filter.JObj? && UniqueKeys(filter.members)
    ensures Get(Completed(filter), k)
         == if Get(filter, k) != JUndef || |KeysOf(filter)| > 3 then JsonCopy(Get(filter, k))
            else Get(Template(filter), k)
  {
    JsonCopyLookup(filter.members, k);
    TemplateShape(filter);
    var t := Template(filter);
    if t.JObj? {
      FillDefaultsValues(JsonCopy(filter).members, t.members);
    }
  }

  /** With at most three keys, the completed filter has every key of its type's template. */
  lemma CompletedHasTemplateKeys(filter: Json)
    requires filter.JObj? && |KeysOf(filter)| <= 3 && Template(filter).JObj?
    ensures Completed(filter).JObj?
    ensures forall k :: k in Keys(Template(filter).members) ==> k in Keys(Completed(filter).members)
  {
    FillDefaultsKeys(JsonCopy(filter).members, Template(filter).members);
  }

  // ---------------------------------------------------------------- the filter list

  /** Index of the last filter whose `field` is loosely equal to `field`; -1 when there is none. */
  function LastSameField(fs: seq<Json>, field: Json): (i: int)
    ensures -1 <= i < |fs|
    decreases |fs|
  {
    if |fs| == 0 then -1
    else if LooseEq(field, Get(fs[|fs| - 1], "field")) then |fs| - 1
    else LastSameField(fs[..|fs| - 1], field)
  }

  /** The index found matches, and nothing after it does. */
  lemma {:induction false} LastSameFieldIsLast(fs: seq<Json>, field: Json)
    ensures LastSameField(fs, field) >= 0 ==> LooseEq(field, Get(fs[LastSameField(fs, field)], "field"))
    ensures forall j :: LastSameField(fs, field) < j < |fs| ==> !LooseEq(field, Get(fs[j], "field"))
    decreases |fs|
  {
    if |fs| > 0 && !LooseEq(field, Get(fs[|fs| - 1], "field")) {
      var init := fs[..|fs| - 1];
      LastSameFieldIsLast(init, field);
      forall j | LastSameField(fs, field) < j < |fs| ensures !LooseEq(field, Get(fs[j], "field")) {
        if j < |fs| - 1 { assert fs[j] == init[j]; }
      }
    }
  }

  /** `list.splice(i, 1)` when `i` is an index, the list as it was otherwise. */
  function Without(fs: seq<Json>, i: int): (r: seq<Json>)
    ensures |r| == if 0 <= i < |fs| then |fs| - 1 else |fs|
    ensures forall j :: 0 <= j < |r| ==> r[j] == if 0 <= i <= j then fs[j + 1] else fs[j]
    ensures forall j :: 0 <= j < |r| ==> r[j] in fs
  {
    if 0 <= i < |fs| then fs[..i] + fs[i + 1..] else fs
  }

  /** `removeFilter(filter)`: the last filter on the same field goes. */
  function RemovedField(fs: seq<Json>, filter: Json): (r: seq<Json>)
    ensures r == fs || exists i :: 0 <= i < |fs| && r == fs[..i] + fs[i + 1..]
    ensures forall j :: 0 <= j < |r| ==> r[j] in fs
  {
    Without(fs, LastSameField(fs, Get(filter, "field")))
  }

  /** `replaceFilter(filter)`: the last filter on the same field goes, the completed one is appended. */
  function Replaced(fs: seq<Json>, filter: Json): (r: seq<Json>)
    ensures 0 < |r| <= |fs| + 1 && r[|r| - 1] == Completed(filter)
    ensures forall j :: 0 <= j < |r| - 1 ==> r[j] in fs
  {
    var kept := RemovedField(fs, filter);
    var c := Completed(filter);
    assert forall j :: 0 <= j < |kept| ==> (kept + [c])[j] == kept[j];
    kept + [c]
  }

  /** Every filter names its field by a string. */
  predicate StringFields(fs: seq<Json>)
  {
    forall i :: 0 <= i < |fs| ==> Get(fs[i], "field").JStr?
  }

  /** No two filters are on the same field. */
  predicate OnePerField(fs: seq<Json>)
  {
    forall i, j :: 0 <= i < j < |fs| ==> Get(fs[i], "field") != Get(fs[j], "field")
  }

  /** With one filter per string field, no filter other than the last match is on the field. */
  lemma OnlyLastOnField(fs: seq<Json>, f: Json)
    requires StringFields(fs) && OnePerField(fs) && f.JStr?
    ensures forall j :: 0 <= j < |fs| && j != LastSameField(fs, f) ==> Get(fs[j], "field") != f
    ensures 0 <= LastSameField(fs, f) ==> Get(fs[LastSameField(fs, f)], "field") == f
  {
    var i := LastSameField(fs, f);
    LastSameFieldIsLast(fs, f);
    if 0 <= i {
      LooseEqStrings(f, Get(fs[i], "field"));
    }
    forall j | 0 <= j < |fs| && j != i ensures Get(fs[j], "field") != f {
      LooseEqStrings(f, Get(fs[j], "field"));
      if j < i {
        LooseEqStrings(f, Get(fs[i], "field"));
      }
    }
  }

  /** Taking one filter out keeps every other one. */
  lemma WithoutKeepsOthers(fs: seq<Json>, i: int)
    ensures forall j :: 0 <= j < |fs| && j != i ==> fs[j] in Without(fs, i)
  {
    var r := Without(fs, i);
    forall j | 0 <= j < |fs| && j != i ensures fs[j] in r {
      if 0 <= i < j { assert r[j - 1] == fs[j]; } else { assert r[j] == fs[j]; }
    }
  }

  /** Taking one filter out keeps string fields and one filter per field. */
  lemma WithoutKeepsOnePerField(fs: seq<Json>, i: int)
    requires StringFields(fs) && OnePerField(fs)
    ensures StringFields(Without(fs, i)) && OnePerField(Without(fs, i))
  {
    var r := Without(fs, i);
    forall a, b | 0 <= a < b < |r| ensures Get(r[a], "field") != Get(r[b], "field") {
      var ka := if 0 <= i <= a then a + 1 else a;
      var kb := if 0 <= i <= b then b + 1 else b;
      assert r[a] == fs[ka] && r[b] == fs[kb] && ka < kb;
    }
  }

  /**
   * On a list with one filter per (string) field, `removeFilter` removes the
   * filter on that field, keeps every other one, and keeps one filter per field.
   */
  lemma RemovedFieldSpec(fs: seq<Json>, filter: Json)
    requires StringFields(fs) && OnePerField(fs) && Get(filter, "field").JStr?
    ensures var r := RemovedField(fs, filter);
      StringFields(r) && OnePerField(r)
      && (forall j :: 0 <= j < |r| ==> Get(r[j], "field") != Get(filter, "field"))
      && (forall j :: 0 <= j < |fs| && Get(fs[j], "field") != Get(filter, "field") ==> fs[j] in r)
  {
    var f := Get(filter, "field");
    var i := LastSameField(fs, f);
    var r := Without(fs, i);
    assert RemovedField(fs, filter) == r;
    OnlyLastOnField(fs, f);
    WithoutKeepsOthers(fs, i);
    WithoutKeepsOnePerField(fs, i);
    forall j | 0 <= j < |r| ensures Get(r[j], "field") != f {
      var k := if 0 <= i <= j then j + 1 else j;
      assert r[j] == fs[k] && k != i;
    }
  }

  /** `replaceFilter` keeps one filter per field, and the new filter is the last one. */
  lemma ReplacedKeepsOnePerField(fs: seq<Json>, filter: Json)
    requires StringFields(fs) && OnePerField(fs)
    requires filter.JObj? && UniqueKeys(filter.members) && Get(filter, "field").JStr?
    ensures var r := Replaced(fs, filter);
      StringFields(r) && OnePerField(r) && r[|r| - 1] == Completed(filter)
      && Get(r[|r| - 1], "field") == Get(filter, "field")
  {
    RemovedFieldSpec(fs, filter);
    CompletedMember(filter, "field");
  }

  /** `filter.field == filterId` is false and the filter is truthy: it survives `removeFilterById`. */
  predicate Survives(filter: Json, filterId: Json)
  {
    Truthy(filter) && !LooseEq(Get(filter, "field"), filterId)
  }

  /**
   * `removeFilterById(filterId)`: the matching filters are deleted, and
   * `_.compact` then drops the holes together with any other falsy entry.
   */
  function Kept(fs: seq<Json>, filterId: Json): (r: seq<Json>)
    ensures |r| <= |fs|
    ensures forall g :: g in r ==> g in fs && Survives(g, filterId)
    decreases |fs|
  {
    if |fs| == 0 then []
    else Kept(fs[..|fs| - 1], filterId) + (if Survives(fs[|fs| - 1], filterId) then [fs[|fs| - 1]] else [])
  }

  /** The kept filters are exactly the surviving ones, and there are no more of them than before. */
  lemma {:induction false} KeptSpec(fs: seq<Json>, filterId: Json)
    ensures forall g :: g in Kept(fs, filterId) <==> g in fs && Survives(g, filterId)
    ensures |Kept(fs, filterId)| <= |fs|
    decreases |fs|
  {
    if |fs| > 0 {
      var init := fs[..|fs| - 1];
      var last := fs[|fs| - 1];
      KeptSpec(init, filterId);
      assert fs == init + [last];
    }
  }

  /** Every kept filter survives, so removing the same id again changes nothing. */
  lemma {:induction false} KeptIdempotent(fs: seq<Json>, filterId: Json)
    ensures Kept(Kept(fs, filterId), filterId) == Kept(fs, filterId)
    decreases |fs|
  {
    if |fs| > 0 {
      var init := fs[..|fs| - 1];
      var last := fs[|fs| - 1];
      KeptIdempotent(init, filterId);
      var k := Kept(init, filterId);
      if Survives(last, filterId) {
        assert Kept(fs, filterId) == k + [last];
        assert (k + [last])[..|k|] == k;
        assert Kept(k + [last], filterId) == Kept(k, filterId) + [last];
      } else {
        assert Kept(fs, filterId) == k + [];
        assert k + [] == k;
      }
    }
  }

  /** One slot after the deleting pass: a hole where the filter's field matches. */
  function MarkSlot(filter: Json, filterId: Json): Option<Json>
  {
    if LooseEq(Get(filter, "field"), filterId) then None else Some(filter)
  }

  /** The list after the deleting pass of `removeFilterById`: a hole for each match. */
  function Marked(fs: seq<Json>, filterId: Json): (slots: seq<Option<Json>>)
    ensures |slots| == |fs|
    decreases |fs|
  {
    if |fs| == 0 then [] else Marked(fs[..|fs| - 1], filterId) + [MarkSlot(fs[|fs| - 1], filterId)]
  }

  /** Each slot of the deleting pass is the slot of its own filter. */
  lemma {:induction false} MarkedAt(fs: seq<Json>, filterId: Json)
    ensures forall j :: 0 <= j < |fs| ==> Marked(fs, filterId)[j] == MarkSlot(fs[j], filterId)
    decreases |fs|
  {
    if |fs| > 0 {
      var init := fs[..|fs| - 1];
      MarkedAt(init, filterId);
      forall j | 0 <= j < |fs| ensures Marked(fs, filterId)[j] == MarkSlot(fs[j], filterId) {
        if j < |init| {
          assert fs[j] == init[j];
        }
      }
    }
  }

  /** `_.compact(list)`: the present, truthy entries in order. */
  function Compacted(slots: seq<Option<Json>>): seq<Json>
    decreases |slots|
  {
    if |slots| == 0 then []
    else
      var last := slots[|slots| - 1];
      Compacted(slots[..|slots| - 1]) + if last.Some? && Truthy(last.value) then [last.value] else []
  }

  /** A slot compacts to its filter exactly when the filter survives. */
  lemma SlotSurvives(filter: Json, filterId: Json)
    ensures (var slot := MarkSlot(filter, filterId);
             if slot.Some? && Truthy(slot.value) then [slot.value] else [])
         == (if Survives(filter, filterId) then [filter] else [])
  {
  }

  /** Deleting the matches and compacting keeps exactly the surviving filters. */
  lemma {:induction false} MarkedThenCompacted(fs: seq<Json>, filterId: Json)
    ensures Compacted(Marked(fs, filterId)) == Kept(fs, filterId)
    decreases |fs|
  {
    if |fs| > 0 {
      var init := fs[..|fs| - 1];
      var last := fs[|fs| - 1];
      MarkedThenCompacted(init, filterId);
      CompactedSnoc(Marked(init, filterId), MarkSlot(last, filterId));
      SlotSurvives(last, filterId);
    }
  }

  /** Compacting one more slot adds its value when it is present and truthy. */
  lemma CompactedSnoc(slots: seq<Option<Json>>, slot: Option<Json>)
    ensures Compacted(slots + [slot]) == Compacted(slots) + if slot.Some? && Truthy(slot.value) then [slot.value] else []
  {
    assert (slots + [slot])[..|slots|] == slots;
  }

  /** The deleting pass of `removeFilterById`: `delete filters[idx]` on each match. */
  method MarkMatches(fs: seq<Json>, filterId: Json) returns (slots: seq<Option<Json>>)
    ensures slots == Marked(fs, filterId)
  {
    slots := seq(|fs|, i requires 0 <= i < |fs| => Some(fs[i]));
    var i := 0;
    while i < |slots|
      invariant 0 <= i <= |slots| == |fs|
      invariant forall j :: 0 <= j < |slots| ==>
        slots[j] == if j < i then MarkSlot(fs[j], filterId) else Some(fs[j])
    {
      if LooseEq(Get(fs[i], "field"), filterId) {
        slots := slots[i := None];
      }
      i := i + 1;
    }
    MarkedAt(fs, filterId);
  }

  /** `_.compact`, one pass over the list. */
  method Compact(slots: seq<Option<Json>>) returns (r: seq<Json>)
    ensures r == Compacted(slots)
  {
    r := [];
    var i := 0;
    while i < |slots|
      invariant 0 <= i <= |slots|
      invariant r == Compacted(slots[..i])
    {
      assert slots[..i + 1][..i] == slots[..i];
      if slots[i].Some? && Truthy(slots[i].value) {
        r := r + [slots[i].value];
      }
      i := i + 1;
    }
    assert slots[..i] == slots;
  }

  /** getSelectedAggregation: the last filter whose `field == fieldId`, or false. */
  function SelectedFilter(fs: seq<Json>, fieldId: Json): (r: Json)
    ensures r == JBool(false) || (r in fs && LooseEq(Get(r, "field"), fieldId))
    decreases |fs|
  {
    if |fs| == 0 then JBool(false)
    else if LooseEq(Get(fs[|fs| - 1], "field"), fieldId) then fs[|fs| - 1]
    else SelectedFilter(fs[..|fs| - 1], fieldId)
  }

  /** The filter selected for an aggregation is the one `replaceFilter` would replace. */
  lemma {:induction false} SelectedIsLastSameField(fs: seq<Json>, fieldId: Json)
    ensures SelectedFilter(fs, fieldId)
         == if LastSameField(fs, fieldId) >= 0 then fs[LastSameField(fs, fieldId)] else JBool(false)
    decreases |fs|
  {
    if |fs| > 0 {
      LooseEqSymmetric(Get(fs[|fs| - 1], "field"), fieldId);
      SelectedIsLastSameField(fs[..|fs| - 1], fieldId);
    }
  }

  // ---------------------------------------------------------------- boost fields

  /** The entry `{field: fieldId}`, with `boost` unless it is undefined. */
  function BoostEntry(fieldId: string, boost: Json): (e: Json)
    ensures e.JObj? && Get(e, "field") == JStr(fieldId)
  {
    JObj([("field", JStr(fieldId))] + if boost != JUndef then [("boost", boost)] else [])
  }

  /** `_.contains(_.keys(boostFields), fieldId)`: some present slot's index spells `fieldId`. */
  predicate IndexKeyPresent(bfs: seq<Option<Json>>, fieldId: string)
  {
    exists i :: 0 <= i < |bfs| && bfs[i].Some? && NatToString(i) == fieldId
  }

  /** `addBoostField` as written: appends unless the id is the index of a present slot. */
  function WithBoostField(bfs: seq<Option<Json>>, fieldId: string, boost: Json): (r: seq<Option<Json>>)
    ensures bfs <= r && |r| <= |bfs| + 1
  {
    if IndexKeyPresent(bfs, fieldId) then bfs else bfs + [Some(BoostEntry(fieldId, boost))]
  }

  /** A field name that does not start with a digit is never an index: it is always appended again. */
  lemma NamedFieldAlwaysAppended(bfs: seq<Option<Json>>, fieldId: string, boost: Json)
    requires |fieldId| > 0 && !IsDecimalDigit(fieldId[0])
    ensures WithBoostField(bfs, fieldId, boost) == bfs + [Some(BoostEntry(fieldId, boost))]
  {
    forall i | 0 <= i < |bfs| ensures NatToString(i) != fieldId {
      assert IsDecimalDigit(NatToString(i)[0]);
    }
  }

  /** Adding the boost field "title" twice leaves it in the list twice. */
  lemma BoostFieldAddedTwice()
    ensures var e := Some(BoostEntry("title", JUndef));
      WithBoostField(WithBoostField([], "title", JUndef), "title", JUndef) == [e, e]
  {
    assert !IsDecimalDigit("title"[0]);
    NamedFieldAlwaysAppended([], "title", JUndef);
    NamedFieldAlwaysAppended([Some(BoostEntry("title", JUndef))], "title", JUndef);
  }

  /** Some present entry already boosts `fieldId`. */
  predicate FieldPresent(bfs: seq<Option<Json>>, fieldId: string)
  {
    exists i :: 0 <= i < |bfs| && bfs[i].Some? && Get(bfs[i].value, "field") == JStr(fieldId)
  }

  /** No field is boosted by two present entries. */
  predicate DistinctBoostFields(bfs: seq<Option<Json>>)
  {
    forall i, j :: 0 <= i < j < |bfs| && bfs[i].Some? && bfs[j].Some? ==>
      Get(bfs[i].value, "field") != Get(bfs[j].value, "field")
  }

  /** `addBoostField` as intended: appends unless an entry already boosts that field. */
  function WithBoostFieldOnce(bfs: seq<Option<Json>>, fieldId: string, boost: Json): seq<Option<Json>>
  {
    if FieldPresent(bfs, fieldId) then bfs else bfs + [Some(BoostEntry(fieldId, boost))]
  }

  /** The intended version boosts the field afterwards and never boosts a field twice. */
  lemma WithBoostFieldOnceSpec(bfs: seq<Option<Json>>, fieldId: string, boost: Json)
    requires DistinctBoostFields(bfs)
    ensures var r := WithBoostFieldOnce(bfs, fieldId, boost);
      DistinctBoostFields(r) && FieldPresent(r, fieldId)
      && (FieldPresent(bfs, fieldId) ==> r == bfs)
  {
    var r := WithBoostFieldOnce(bfs, fieldId, boost);
    if !FieldPresent(bfs, fieldId) {
      assert r[|bfs|].Some? && Get(r[|bfs|].value, "field") == JStr(fieldId);
    }
  }

  /** After `clearBoostFields` no slot is present, so any id is appended by the next add. */
  lemma ClearedBoostFieldsAppend(n: nat, fieldId: string, boost: Json)
    ensures var holes := seq(n, _ => None);
      WithBoostField(holes, fieldId, boost) == holes + [Some(BoostEntry(fieldId, boost))]
  {
  }

  // ---------------------------------------------------------------- facets and aggregations

  /** The entry with `size` only when it is defined. */
  function TermsBody(fieldId: string, size: Json): (m: Members)
  {
    [("field", JStr(fieldId))] + if size != JUndef then [("size", size)] else []
  }

  /** `addTermAggregation`'s entry: `{terms: {field, size?}, _type: "term"}`. */
  function TermEntry(fieldId: string, size: Json): Json
  {
    JObj([("terms", JObj(TermsBody(fieldId, size))), ("_type", JStr("term"))])
  }

  /** `addDateRangeAggregation`'s entry: `{date_range: {field, format, ranges}, _type: "date_range"}`. */
  function DateRangeEntry(fieldId: string, format: Json, ranges: Json): Json
  {
    JObj([("date_range", JObj([("field", JStr(fieldId)), ("format", format), ("ranges", ranges)])),
          ("_type", JStr("date_range"))])
  }

  /** `addRangeAggregation`'s entry: `{range: {field, ranges}}`, also tagged "date_range". */
  function RangeEntry(fieldId: string, ranges: Json): Json
  {
    JObj([("range", JObj([("field", JStr(fieldId)), ("ranges", ranges)])), ("_type", JStr("date_range"))])
  }

  /** `addFacet`'s entry: `{terms: {field, size?}}`. */
  function FacetEntry(fieldId: string, size: Json): Json
  {
    JObj([("terms", JObj(TermsBody(fieldId, size)))])
  }

  /** `addHistogramFacet`'s entry: `{date_histogram: {field, interval}}`. */
  function HistogramEntry(fieldId: string, interval: Json): Json
  {
    JObj([("date_histogram", JObj([("field", JStr(fieldId)), ("interval", interval)]))])
  }

  /** The `terms` body names its field and holds `size` exactly when it was given. */
  lemma TermsBodyFields(fieldId: string, size: Json)
    ensures Lookup(TermsBody(fieldId, size), "field") == JStr(fieldId)
    ensures "size" in Keys(TermsBody(fieldId, size)) <==> size != JUndef
    ensures Lookup(TermsBody(fieldId, size), "size") == size
  {
    var body := TermsBody(fieldId, size);
    assert |"field"| == 5 && |"size"| == 4;
    LookupAt(body, 0);
    if size != JUndef {
      assert UniqueKeys(body);
      LookupAt(body, 1);
    } else {
      assert Keys(body) == ["field"];
    }
  }

  /** The entries name their field and carry `size` exactly when it was given. */
  lemma EntryFields(fieldId: string, size: Json)
    ensures Get(Get(TermEntry(fieldId, size), "terms"), "field") == JStr(fieldId)
    ensures HasOwn(Get(TermEntry(fieldId, size), "terms"), "size") <==> size != JUndef
    ensures Get(Get(TermEntry(fieldId, size), "terms"), "size") == size
    ensures Get(TermEntry(fieldId, size), "_type") == JStr("term")
    ensures Get(FacetEntry(fieldId, size), "terms") == Get(TermEntry(fieldId, size), "terms")
  {
    var body := TermsBody(fieldId, size);
    TermsBodyFields(fieldId, size);
    var m := [("terms", JObj(body)), ("_type", JStr("term"))];
    assert UniqueKeys(m) by { assert "terms"[0] != "_type"[0]; }
    LookupAt(m, 0);
    LookupAt(m, 1);
  }

  /** `if (!_.contains(_.keys(o), k)) o[k] = v`: a new key is appended, an existing one is left alone. */
  function PutIfAbsent(m: Members, k: string, v: Json): (r: Members)
    ensures k in Keys(r) && Lookup(r, k) == if k in Keys(m) then Lookup(m, k) else v
    ensures forall x :: x != k ==> Lookup(r, x) == Lookup(m, x)
  {
    if k in Keys(m) then m else Put(m, k, v)
  }

  /** The adders append exactly one entry, and only for a key not yet there. */
  lemma PutIfAbsentSpec(m: Members, k: string, v: Json)
    ensures k in Keys(m) ==> PutIfAbsent(m, k, v) == m
    ensures k !in Keys(m) ==> PutIfAbsent(m, k, v) == m + [(k, v)]
  {
    if k !in Keys(m) { PutNew(m, k, v); }
  }

  /** `aggs[key].selected = selectedValues` when the key is present. */
  function Selected(aggs: Members, key: string, selectedValues: Json): Members
  {
    var entry := Lookup(aggs, key);
    if key in Keys(aggs) && entry.JObj? then Put(aggs, key, JObj(Put(entry.members, "selected", selectedValues)))
    else aggs
  }

  /** `delete aggs[key].selected` when the key is present. */
  function Unselected(aggs: Members, key: string): Members
  {
    var entry := Lookup(aggs, key);
    if key in Keys(aggs) && entry.JObj? then Put(aggs, key, JObj(Remove(entry.members, "selected")))
    else aggs
  }

  /** Deleting a member that was just appended gives the object back. */
  lemma {:induction false} RemoveAppended(m: Members, k: string, v: Json)
    requires k !in Keys(m)
    ensures Remove(m + [(k, v)], k) == m
  {
    var a := m + [(k, v)];
    if |m| > 0 {
      assert a[0] == m[0] && m[0].0 != k by { KeysCons(m); }
      assert Remove(a[1..], k) == m[1..] by {
        KeysCons(m);
        assert a[1..] == m[1..] + [(k, v)];
        RemoveAppended(m[1..], k, v);
      }
      assert Remove(a, k) == [m[0]] + m[1..];
      assert m == [m[0]] + m[1..];
    } else {
      assert a[1..] == [];
      assert Remove(a, k) == Remove(a[1..], k);
    }
  }

  /** Writing back the value a key already holds changes nothing. */
  lemma {:induction false} PutSame(m: Members, k: string)
    requires k in Keys(m)
    ensures Put(m, k, Lookup(m, k)) == m
  {
    KeysCons(m);
    if m[0].0 == k {
      assert Lookup(m, k) == m[0].1;
      assert Put(m, k, m[0].1) == [(k, m[0].1)] + m[1..];
    } else {
      assert Lookup(m, k) == Lookup(m[1..], k);
      PutSame(m[1..], k);
      assert Put(m, k, Lookup(m, k)) == [m[0]] + Put(m[1..], k, Lookup(m, k));
    }
    assert m == [m[0]] + m[1..];
  }

  /** Unselecting an aggregation that had no selection before selecting it restores the aggregations. */
  lemma UnselectUndoesSelect(aggs: Members, key: string, selectedValues: Json)
    requires key in Keys(aggs) && Lookup(aggs, key).JObj?
    requires "selected" !in Keys(Lookup(aggs, key).members)
    ensures Unselected(Selected(aggs, key, selectedValues), key) == aggs
  {
    var m := Lookup(aggs, key).members;
    PutNew(m, "selected", selectedValues);
    RemoveAppended(m, "selected", selectedValues);
    PutOverwrite(aggs, key, JObj(m + [("selected", selectedValues)]), JObj(m));
    PutSame(aggs, key);
  }

  /** Selecting writes the selection into the entry under the key and touches nothing else. */
  lemma SelectedSpec(aggs: Members, key: string, selectedValues: Json, k: string)
    requires key in Keys(aggs) && Lookup(aggs, key).JObj?
    ensures Keys(Selected(aggs, key, selectedValues)) == Keys(aggs)
    ensures Get(Lookup(Selected(aggs, key, selectedValues), key), "selected") == selectedValues
    ensures k != key ==> Lookup(Selected(aggs, key, selectedValues), k) == Lookup(aggs, k)
  {
    var m2 := Put(Lookup(aggs, key).members, "selected", selectedValues);
    SelectedIsPut(aggs, key, selectedValues);
    PutThenGet(Lookup(aggs, key).members, "selected", selectedValues);
    if k != key {
      PutFrame(aggs, key, JObj(m2), k);
    }
  }

  /** Under its preconditions, selecting is one write of the updated entry. */
  lemma SelectedIsPut(aggs: Members, key: string, selectedValues: Json)
    requires key in Keys(aggs) && Lookup(aggs, key).JObj?
    ensures Selected(aggs, key, selectedValues)
         == Put(aggs, key, JObj(Put(Lookup(aggs, key).members, "selected", selectedValues)))
    ensures Keys(Selected(aggs, key, selectedValues)) == Keys(aggs)
    ensures Lookup(Selected(aggs, key, selectedValues), key)
         == JObj(Put(Lookup(aggs, key).members, "selected", selectedValues))
  {
  }

  /** An object reads back under a key the value just written there. */
  lemma PutThenGet(m: Members, k: string, v: Json)
    ensures Get(JObj(Put(m, k, v)), k) == v
  {
  }

  /** Every aggregation entry is an object. */
  predicate EntriesAreObjects(m: Members)
  {
    forall k :: k in Keys(m) ==> Lookup(m, k).JObj?
  }

  /** Deleting the first key of an object without repeated keys drops its first member. */
  lemma RemoveFirst(m: Members)
    requires |m| > 0 && UniqueKeys(m)
    ensures Remove(m, m[0].0) == m[1..]
  {
    KeysCons(m);
    assert m[0].0 !in Keys(m[1..]) by {
      forall j | 0 <= j < |m| - 1 ensures Keys(m[1..])[j] != m[0].0 {
        assert m[1..][j] == m[j + 1];
      }
    }
  }

  // ---------------------------------------------------------------- the class

  class Query {
    var queryType: Json
    var size: Json
    var from: Json
    var q: Json
    var boolClauses: Json
    var aggs: Members
    var facets: Members
    var filters: seq<Json>
    /** Present slots and the holes `delete boostFields[i]` leaves. */
    var boostFields: seq<Option<Json>>

    /** Filters are readable, aggregations are objects, keys are not repeated. */
    predicate Valid()
      reads this
    {
      (forall i :: 0 <= i < |filters| ==> Readable(filters[i]))
      && UniqueKeys(aggs) && EntriesAreObjects(aggs) && UniqueKeys(facets)
    }

    /** The `defaults()` of a new query. */
    constructor ()
      ensures Valid()
      ensures queryType == JStr("") && size == JNum(100) && from == JNum(0) && q == JStr("")
      ensures boolClauses == JObj([]) && aggs == [] && facets == [] && filters == [] && boostFields == []
    {
      queryType := JStr("");
      size := JNum(100);
      from := JNum(0);
      q := JStr("");
      boolClauses := JObj([]);
      aggs := [];
      facets := [];
      filters := [];
      boostFields := [];
    }

    /** `addFilter(filter)`: the completed copy is appended. */
    method AddFilter(filter: Json)
      requires Valid() && Readable(filter)
      modifies this`filters
      ensures Valid() && filters == old(filters) + [Completed(filter)]
    {
      filters := filters + [Completed(filter)];
    }

    /** The index `replaceFilter` and `removeFilter` compute: the last filter on the same field. */
    method LastIndexOfField(field: Json) returns (idx: int)
      ensures idx == LastSameField(filters, field)
    {
      idx := -1;
      var i := 0;
      while i < |filters|
        invariant 0 <= i <= |filters|
        invariant idx == LastSameField(filters[..i], field)
      {
        assert filters[..i + 1][..i] == filters[..i];
        if LooseEq(field, Get(filters[i], "field")) {
          idx := i;
        }
        i := i + 1;
      }
      assert filters[..i] == filters;
    }

    /** `replaceFilter(filter)`. */
    method ReplaceFilter(filter: Json)
      requires Valid() && Readable(filter)
      modifies this`filters
      ensures Valid() && filters == Replaced(old(filters), filter)
    {
      var idx := LastIndexOfField(Get(filter, "field"));
      if idx >= 0 {
        filters := filters[..idx] + filters[idx + 1..];
      }
      AddFilter(filter);
    }

    /**
     * `removeFilter(filter)`. The argument's `field` is read only while
     * walking the filters, so an unreadable argument is harmless when there
     * are none.
     */
    method RemoveFilter(filter: Json)
      requires Valid() && (Readable(filter) || |filters| == 0)
      modifies this`filters
      ensures Valid() && filters == RemovedField(old(filters), filter)
    {
      var idx := LastIndexOfField(Get(filter, "field"));
      if idx >= 0 {
        filters := filters[..idx] + filters[idx + 1..];
      }
    }

    /** `removeFilterById(filterId)`: delete the matches, leaving holes, then compact. */
    method RemoveFilterById(filterId: Json)
      requires Valid()
      modifies this`filters
      ensures Valid() && filters == Kept(old(filters), filterId)
    {
      var fs := filters;
      var slots := MarkMatches(fs, filterId);
      filters := Compact(slots);
      MarkedThenCompacted(fs, filterId);
      KeptSpec(fs, filterId);
      forall j | 0 <= j < |filters| ensures Readable(filters[j]) {
        assert filters[j] in fs;
      }
    }

    /** `clearFilters()`. */
    method ClearFilters()
      requires Valid()
      modifies this`filters
      ensures Valid() && filters == []
    {
      filters := [];
    }

    /**
     * `getSelectedAggregation(fieldId)`: the last filter loosely on the field,
     * or false; reading `filter.field` of an undefined or null filter throws (None).
     */
    method GetSelectedAggregation(fieldId: string) returns (selected: Option<Json>)
      ensures selected.None? <==> exists i :: 0 <= i < |filters| && !Readable(filters[i])
      ensures selected.Some? ==> selected.value == SelectedFilter(filters, JStr(fieldId))
    {
      var found := JBool(false);
      var i := 0;
      while i < |filters|
        invariant 0 <= i <= |filters|
        invariant forall j :: 0 <= j < i ==> Readable(filters[j])
        invariant found == SelectedFilter(filters[..i], JStr(fieldId))
      {
        assert filters[..i + 1][..i] == filters[..i];
        if !Readable(filters[i]) {
          return None;
        }
        if LooseEq(Get(filters[i], "field"), JStr(fieldId)) {
          found := filters[i];
        }
        i := i + 1;
      }
      assert filters[..i] == filters;
      return Some(found);
    }

    /** `addBoostField(fieldId, boost)`, with its test on indices as written. */
    method AddBoostField(fieldId: string, boost: Json)
      modifies this`boostFields
      ensures boostFields == WithBoostField(old(boostFields), fieldId, boost)
    {
      var i := 0;
      while i < |boostFields|
        invariant 0 <= i <= |boostFields|
        invariant forall j :: 0 <= j < i ==> !(boostFields[j].Some? && NatToString(j) == fieldId)
      {
        if boostFields[i].Some? && NatToString(i) == fieldId {
          return;
        }
        i := i + 1;
      }
      boostFields := boostFields + [Some(BoostEntry(fieldId, boost))];
    }

    /** `clearBoostFields()`: every present slot is deleted; the length stays. */
    method ClearBoostFields()
      modifies this`boostFields
      ensures boostFields == seq(|old(boostFields)|, _ => None)
    {
      var i := 0;
      while i < |boostFields|
        invariant 0 <= i <= |boostFields| == |old(boostFields)|
        invariant forall j :: 0 <= j < i ==> boostFields[j].None?
        invariant forall j :: i <= j < |boostFields| ==> boostFields[j] == old(boostFields)[j]
      {
        if boostFields[i].Some? {
          boostFields := boostFields[i := None];
        }
        i := i + 1;
      }
    }

    /** `addFacet(fieldId, size)`. */
    method AddFacet(fieldId: string, size: Json)
      requires Valid()
      modifies this`facets
      ensures Valid() && facets == PutIfAbsent(old(facets), fieldId, FacetEntry(fieldId, size))
    {
      if fieldId !in Keys(facets) {
        facets := Put(facets, fieldId, FacetEntry(fieldId, size));
      }
    }

    /** `addHistogramFacet(fieldId, interval)`: written whether or not the key exists. */
    method AddHistogramFacet(fieldId: string, interval: Json)
      requires Valid()
      modifies this`facets
      ensures Valid() && facets == Put(old(facets), fieldId, HistogramEntry(fieldId, interval))
    {
      facets := Put(facets, fieldId, HistogramEntry(fieldId, interval));
    }

    /** `removeFacet(fieldId)`. */
    method RemoveFacet(fieldId: string)
      requires Valid()
      modifies this`facets
      ensures Valid() && facets == Remove(old(facets), fieldId)
    {
      if fieldId in Keys(facets) {
        facets := Remove(facets, fieldId);
      }
    }

    /** `clearFacets()`: every key is deleted. */
    method ClearFacets()
      requires Valid()
      modifies this`facets
      ensures Valid() && facets == []
    {
      var ks := Keys(facets);
      var i := 0;
      while i < |ks|
        invariant 0 <= i <= |ks| == |old(facets)|
        invariant facets == old(facets)[i..]
      {
        assert ks[i] == facets[0].0;
        RemoveFirst(facets);
        facets := Remove(facets, ks[i]);
        i := i + 1;
      }
    }

    /** `addTermAggregation(fieldId, size)`. */
    method AddTermAggregation(fieldId: string, size: Json)
      requires Valid()
      modifies this`aggs
      ensures Valid() && aggs == PutIfAbsent(old(aggs), AggKey(fieldId), TermEntry(fieldId, size))
    {
      var key := AggKey(fieldId);
      if key !in Keys(aggs) {
        aggs := Put(aggs, key, TermEntry(fieldId, size));
      }
    }

    /** `addDateRangeAggregation(fieldId, format, ranges)`. */
    method AddDateRangeAggregation(fieldId: string, format: Json, ranges: Json)
      requires Valid()
      modifies this`aggs
      ensures Valid() && aggs == PutIfAbsent(old(aggs), AggKey(fieldId), DateRangeEntry(fieldId, format, ranges))
    {
      var key := AggKey(fieldId);
      if key !in Keys(aggs) {
        aggs := Put(aggs, key, DateRangeEntry(fieldId, format, ranges));
      }
    }

    /** `addRangeAggregation(fieldId, ranges)`. */
    method AddRangeAggregation(fieldId: string, ranges: Json)
      requires Valid()
      modifies this`aggs
      ensures Valid() && aggs == PutIfAbsent(old(aggs), AggKey(fieldId), RangeEntry(fieldId, ranges))
    {
      var key := AggKey(fieldId);
      if key !in Keys(aggs) {
        aggs := Put(aggs, key, RangeEntry(fieldId, ranges));
      }
    }

    /** `selectAggregation(selectedValues)`; the field must be a string, or `replace` throws. */
    method SelectAggregation(selectedValues: Json)
      requires Valid() && Get(selectedValues, "field").JStr?
      modifies this`aggs
      ensures Valid() && aggs == Selected(old(aggs), AggKey(Get(selectedValues, "field").s), selectedValues)
    {
      var key := AggKey(Get(selectedValues, "field").s);
      if key in Keys(aggs) {
        var entry := Lookup(aggs, key);
        aggs := Put(aggs, key, JObj(Put(entry.members, "selected", selectedValues)));
      }
    }

    /** `unSelectAggregation(fieldId)`. */
    method UnSelectAggregation(fieldId: string)
      requires Valid()
      modifies this`aggs
      ensures Valid() && aggs == Unselected(old(aggs), AggKey(fieldId))
    {
      var key := AggKey(fieldId);
      if key in Keys(aggs) {
        var entry := Lookup(aggs, key);
        aggs := Put(aggs, key, JObj(Remove(entry.members, "selected")));
      }
    }

    /** `removeAggregation(aggId)`: every key equal to the rewritten id is deleted. */
    method RemoveAggregation(aggId: string)
      requires Valid()
      modifies this`aggs
      ensures Valid() && aggs == Remove(old(aggs), AggKey(aggId))
    {
      var key := AggKey(aggId);
      var ks := Keys(aggs);
      var i := 0;
      while i < |ks|
        invariant 0 <= i <= |ks|
        invariant aggs == if key in ks[..i] then Remove(old(aggs), key) else old(aggs)
      {
        assert ks[..i + 1] == ks[..i] + [ks[i]];
        if ks[i] == key {
          aggs := Remove(aggs, ks[i]);
        }
        i := i + 1;
      }
      assert ks[..i] == ks;
    }

    /** `clearAggregations()`: every key is deleted. */
    method ClearAggregations()
      requires Valid()
      modifies this`aggs
      ensures Valid() && aggs == []
    {
      var ks := Keys(aggs);
      var i := 0;
      while i < |ks|
        invariant 0 <= i <= |ks| == |old(aggs)|
        invariant aggs == old(aggs)[i..]
      {
        assert ks[i] == aggs[0].0;
        RemoveFirst(aggs);
        aggs := Remove(aggs, ks[i]);
        i := i + 1;
      }
    }
  }
}
