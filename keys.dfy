/**
 * The aggregation key of a field: the field id with every `.` replaced by `_`
 * (`fieldId.replace(/\./g, "_")`), and the way back that the dataset uses for
 * a response key (`aggId.replace(/\_/g, ".")`).
 */
module AggregationKeys {

  /** The key under which the query stores a field's aggregation. */
  function AggKey(fieldId: string): (key: string)
    ensures |key| == |fieldId|
    ensures forall i :: 0 <= i < |key| ==> key[i] == (if fieldId[i] == '.' then '_' else fieldId[i])
    ensures '.' !in key
  {
    seq(|fieldId|, i requires 0 <= i < |fieldId| => if fieldId[i] == '.' then '_' else fieldId[i])
  }

  /** The field id the dataset derives from a response key. */
  function FieldIdOfKey(key: string): (fieldId: string)
    ensures |fieldId| == |key|
    ensures forall i :: 0 <= i < |key| ==> fieldId[i] == (if key[i] == '_' then '.' else key[i])
    ensures '_' !in fieldId
  {
    seq(|key|, i requires 0 <= i < |key| => if key[i] == '_' then '.' else key[i])
  }

  /**
   * Mapping a field id to its key and back gives the id again exactly when the
   * id holds no `_`: an underscore comes back as a dot.
   */
  lemma FieldIdRoundTrip(fieldId: string)
    ensures FieldIdOfKey(AggKey(fieldId)) == fieldId <==> '_' !in fieldId
  {
    var back := FieldIdOfKey(AggKey(fieldId));
    if '_' in fieldId {
      var i :| 0 <= i < |fieldId| && fieldId[i] == '_';
      assert back[i] == '.';
    } else {
      assert forall i :: 0 <= i < |fieldId| ==> back[i] == fieldId[i];
    }
  }

  /** Every key `AggKey` produces (one without dots) is the key of the id it is read back as. */
  lemma KeyRoundTrip(key: string)
    requires '.' !in key
    ensures AggKey(FieldIdOfKey(key)) == key
  {
    assert forall i :: 0 <= i < |key| ==> AggKey(FieldIdOfKey(key))[i] == key[i];
  }

  /** Keys are already free of dots, so rewriting one again changes nothing. */
  lemma AggKeyIdempotent(fieldId: string)
    ensures AggKey(AggKey(fieldId)) == AggKey(fieldId)
  {
  }

  /** The field ids `a.b` and `a_b` share one aggregation key. */
  lemma DotAndUnderscoreCollide()
    ensures AggKey("a.b") == AggKey("a_b") == "a_b"
  {
  }
}
