/**
 * The Field model of src/model.js: one column of a dataset.  Constructing a
 * field fills in the default attributes and refuses an array passed in place
 * of a hash. It names the label after the id when the label is null, and
 * maps the spellings of a column type that backends report onto the
 * library's own type names through `_typeMap`.
 */
module Fields {
  import opened Wrappers
  import opened JsonValue
  import opened JsSemantics
  import opened QueryState

  /** `_typeMap`: a spelling a backend may report, and the type it stands for. */
  const TypeMap: map<string, string> :=
    map["text" := "string", "double" := "number", "float" := "number", "numeric" := "number",
        "int" := "integer", "datetime" := "date-time", "bool" := "boolean",
        "timestamp" := "date-time", "json" := "object"]

  /** `String.prototype.toLowerCase` on ASCII letters. */
  function LowerAscii(s: string): (r: string)
    ensures |r| == |s|
    ensures forall i :: 0 <= i < |s| ==> !('A' <= r[i] <= 'Z')
    ensures forall i :: 0 <= i < |s| && !('A' <= s[i] <= 'Z') ==> r[i] == s[i]
  {
    seq(|s|, i requires 0 <= i < |s| => if 'A' <= s[i] <= 'Z' then (s[i] as int + 32) as char else s[i])
  }

  /** Lower-casing twice is lower-casing once. */
  lemma LowerAsciiIdempotent(s: string)
    ensures LowerAscii(LowerAscii(s)) == LowerAscii(s)
  {
  }

  /**
   * The type a field ends up with: the `_typeMap` entry for the lower-cased
   * spelling when there is one, otherwise the spelling as given.
   */
  function NormalizedType(t: string): (r: string)
    ensures r == t || r in TypeMap.Values
  {
    var key := LowerAscii(t);
    if key in TypeMap then TypeMap[key] else t
  }

  /** Every type `_typeMap` produces is lower case and is not itself one of its spellings. */
  lemma TypeMapImagesFixed(v: string)
    requires v in TypeMap.Values
    ensures LowerAscii(v) == v && v !in TypeMap
  {
    assert v in {"string", "number", "integer", "date-time", "boolean", "object"};
  }

  /** Normalising a type that is already normalised changes nothing. */
  lemma NormalizedTypeIdempotent(t: string)
    ensures NormalizedType(NormalizedType(t)) == NormalizedType(t)
  {
    var r := NormalizedType(t);
    if r in TypeMap.Values {
      TypeMapImagesFixed(r);
    } else {
      assert r == t;
    }
  }

  /** Spellings of a known type that differ only in case normalise alike. */
  lemma NormalizedTypeIgnoresCase(t: string, u: string)
    requires LowerAscii(t) == LowerAscii(u) && LowerAscii(t) in TypeMap
    ensures NormalizedType(t) == NormalizedType(u) == TypeMap[LowerAscii(t)]
  {
  }

  /** A spelling that is not in `_typeMap` is kept as given, case included. */
  lemma UnknownTypeKept(t: string)
    requires LowerAscii(t) !in TypeMap
    ensures NormalizedType(t) == t
  {
  }

  /** `"DateTime"` becomes `"date-time"`, `"String"` stays `"String"`: only the map's spellings are rewritten. */
  lemma NormalizedTypeExamples()
    ensures NormalizedType("DateTime") == "date-time"
    ensures NormalizedType("INT") == "integer"
    ensures NormalizedType("String") == "String"
  {
    assert LowerAscii("DateTime") == "datetime";
    assert LowerAscii("INT") == "int";
    assert LowerAscii("String") == "string";
  }

  // ---------------------------------------------------------------- construction

  /** The Field defaults. */
  const FieldDefaults: Members :=
    [("label", JNull), ("type", JStr("string")), ("format", JNull), ("is_derived", JBool(false))]

  /**
   * The own members a field is built from: an object's members, nothing for
   * an empty array; `None` where `initialize` throws, i.e. on a hash with a
   * key "0" (or a non-empty array) and on a value `'0' in data` cannot be
   * asked of.
   */
  function FieldData(data: Json): (m: Option<Members>)
    ensures m.Some? <==> (data.JObj? && "0" !in Keys(data.members)) || data == JArr([])
  {
    match data
    case JObj(m) => if "0" in Keys(m) then None else Some(m)
    case JArr(items) => if |items| == 0 then Some([]) else None
    case _ => None
  }

  /** `_.defaults` with the Field defaults. */
  function Filled(m: Members): Members
  {
    FillDefaults(m, FieldDefaults)
  }

  /** `if (label === null) set({label: this.id})`. */
  function Labelled(attrs: Members): Members
  {
    if Lookup(attrs, "label") == JNull then Put(attrs, "label", Lookup(attrs, "id")) else attrs
  }

  /** The rest of `initialize` on the filled-in attributes; lower-casing a type that is not a string throws. */
  function Built(m: Members): (r: Option<Members>)
    ensures r.Some? ==> Lookup(r.value, "type").JStr? && NormalizedType(Lookup(r.value, "type").s) == Lookup(r.value, "type").s
  {
    var labelled := Labelled(Filled(m));
    match Lookup(labelled, "type")
    case JStr(t) =>
      NormalizedTypeIdempotent(t);
      Some(Put(labelled, "type", JStr(NormalizedType(t))))
    case _ => None
  }

  /** The attributes after construction, or `None` where construction throws. */
  function FieldAttributes(data: Json): (r: Option<Members>)
    ensures FieldData(data).None? ==> r.None?
    ensures r.Some? ==> Lookup(r.value, "type").JStr? && NormalizedType(Lookup(r.value, "type").s) == Lookup(r.value, "type").s
  {
    var m :- FieldData(data);
    Built(m)
  }

  /** The type a field is given: its own when defined, else "string". */
  function GivenType(m: Members): Json
  {
    if Lookup(m, "type") != JUndef then Lookup(m, "type") else JStr("string")
  }

  /** The label a field is given: its own when neither missing nor null, else its id. */
  function GivenLabel(m: Members): Json
  {
    if Lookup(m, "label") != JUndef && Lookup(m, "label") != JNull then Lookup(m, "label") else Lookup(m, "id")
  }

  lemma FieldDefaultsUnique()
    ensures UniqueKeys(FieldDefaults) && Keys(FieldDefaults) == ["label", "type", "format", "is_derived"]
  {
    assert Keys(FieldDefaults) == ["label", "type", "format", "is_derived"];
  }

  /** Filling in the defaults: a defined value wins, every default key is present. */
  lemma FilledSpec(m: Members)
    ensures Lookup(Filled(m), "type") == GivenType(m)
    ensures Lookup(Filled(m), "id") == Lookup(m, "id")
    ensures Lookup(Filled(m), "label") == if Lookup(m, "label") != JUndef then Lookup(m, "label") else JNull
    ensures forall k :: Lookup(Filled(m), k) == if Lookup(m, k) != JUndef then Lookup(m, k) else Lookup(FieldDefaults, k)
    ensures forall k :: k in Keys(Filled(m)) <==> k in Keys(m) || k in Keys(FieldDefaults)
  {
    FieldDefaultsUnique();
    FillDefaultsValues(m, FieldDefaults);
    FillDefaultsKeys(m, FieldDefaults);
  }

  /** Naming the label changes only the label, and keeps the keys. */
  lemma LabelledSpec(attrs: Members)
    requires "label" in Keys(attrs)
    ensures Lookup(Labelled(attrs), "label") == if Lookup(attrs, "label") == JNull then Lookup(attrs, "id") else Lookup(attrs, "label")
    ensures forall k :: k != "label" ==> Lookup(Labelled(attrs), k) == Lookup(attrs, k)
    ensures forall k :: k in Keys(Labelled(attrs)) <==> k in Keys(attrs)
  {
  }

  /**
   * The attributes a field is built from: the type is then the normalised
   * one, the label the given one or else the id, every other attribute the
   * given one or else its default.
   */
  lemma BuiltSpec(m: Members)
    ensures Built(m).Some? <==> GivenType(m).JStr?
    ensures Built(m).Some? ==>
      var r := Built(m).value;
      && Lookup(r, "type") == JStr(NormalizedType(GivenType(m).s))
      && Lookup(r, "label") == GivenLabel(m)
      && (forall k :: k != "type" && k != "label" ==>
            Lookup(r, k) == if Lookup(m, k) != JUndef then Lookup(m, k) else Lookup(FieldDefaults, k))
      && (forall k :: k in Keys(r) <==> k in Keys(m) || k in Keys(FieldDefaults))
  {
    var attrs := Filled(m);
    FilledSpec(m);
    FieldDefaultsUnique();
    assert "label" in Keys(FieldDefaults);
    LabelledSpec(attrs);
  }

  /**
   * A field is built exactly when it is given a hash without a key "0" whose
   * type (or the default "string") is a string; its attributes are then
   * those `BuiltSpec` describes.
   */
  lemma FieldAttributesSpec(data: Json)
    ensures FieldAttributes(data).Some? <==> FieldData(data).Some? && GivenType(FieldData(data).value).JStr?
    ensures FieldAttributes(data).Some? ==> FieldAttributes(data) == Built(FieldData(data).value)
  {
    if FieldData(data).Some? {
      BuiltSpec(FieldData(data).value);
    }
  }

  /** The defaults are all defined, and `id` is not one of them. */
  lemma FieldDefaultsDefined()
    ensures forall k :: k in Keys(FieldDefaults) ==> Lookup(FieldDefaults, k) != JUndef
    ensures Lookup(FieldDefaults, "id") == JUndef && Lookup(FieldDefaults, "0") == JUndef
  {
    FieldDefaultsUnique();
  }

  /** Building again from built attributes reads every attribute back unchanged. */
  lemma BuiltAgainAt(m: Members, k: string)
    requires Built(m).Some?
    ensures var r := Built(m).value;
      Built(r).Some? && Lookup(Built(r).value, k) == Lookup(r, k)
  {
    var r := Built(m).value;
    BuiltSpec(m);
    BuiltSpec(r);
    FieldDefaultsDefined();
    if k == "type" {
      NormalizedTypeIdempotent(GivenType(m).s);
    }
  }

  /** A field built from the attributes of a built field has the same attributes. */
  lemma BuiltStable(m: Members)
    requires "0" !in Keys(m) && Built(m).Some?
    ensures var r := Built(m).value;
      FieldAttributes(JObj(r)).Some?
      && forall k :: Lookup(FieldAttributes(JObj(r)).value, k) == Lookup(r, k)
  {
    var r := Built(m).value;
    BuiltKeepsNoZero(m);
    assert FieldAttributes(JObj(r)) == Built(r);
    BuiltAgainAt(m, "type");
    forall k ensures Lookup(Built(r).value, k) == Lookup(r, k) {
      BuiltAgainAt(m, k);
    }
  }

  /** Construction adds no key "0", so built attributes can be passed to the constructor again. */
  lemma BuiltKeepsNoZero(m: Members)
    requires "0" !in Keys(m) && Built(m).Some?
    ensures "0" !in Keys(Built(m).value)
  {
    BuiltSpec(m);
    FieldDefaultsUnique();
  }
}
