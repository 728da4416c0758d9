/**
 * The JavaScript values the library passes around: JSON data plus `undefined`.
 *
 * Objects are ordered association lists, because the library depends on the
 * order of an object's keys (the last key of an aggregation spec becomes the
 * stamped kind; the keys of the first record become the headings).  The list
 * is kept in insertion order, a new key going last.  JavaScript enumerates
 * keys in that order except for array-index keys such as "0" or "2019", which
 * come first in ascending order; this model does not make that exception.  A missing
 * property reads as `JUndef`; `o[k] = undefined` keeps the key with the value
 * `JUndef`, exactly as JavaScript does.
 */
module JsonValue {

  datatype Json =
    | JUndef
    | JNull
    | JBool(b: bool)
    | JNum(n: int)
    | JStr(s: string)
    | JArr(items: seq<Json>)
    | JObj(members: seq<(string, Json)>)

  type Members = seq<(string, Json)>

  /** The keys of an object, in insertion order. */
  function Keys(m: Members): seq<string>
  {
    seq(|m|, i requires 0 <= i < |m| => m[i].0)
  }

  /** No key occurs twice (every object the library builds has this shape). */
  predicate UniqueKeys(m: Members)
  {
    forall i, j :: 0 <= i < j < |m| ==> m[i].0 != m[j].0
  }

  /** Reading `o[k]`: the value stored under `k`, or `undefined` when there is none. */
  function Lookup(m: Members, k: string): (v: Json)
    ensures k !in Keys(m) ==> v == JUndef
    ensures v != JUndef ==> exists i :: 0 <= i < |m| && m[i] == (k, v)
  {
    if |m| == 0 then JUndef
    else
      KeysCons(m);
      if m[0].0 == k then m[0].1 else Lookup(m[1..], k)
  }

  lemma KeysCons(m: Members)
    requires |m| > 0
    ensures Keys(m) == [m[0].0] + Keys(m[1..])
  {
  }

  lemma KeysAppend(a: Members, b: Members)
    ensures Keys(a + b) == Keys(a) + Keys(b)
  {
  }

  /** The keys of a member list of at most one member. */
  lemma KeysOfOptional(k: string, v: Json, present: bool)
    ensures Keys(if present then [(k, v)] else []) == if present then [k] else []
  {
  }

  /** Reading from two member lists laid end to end: the first one wins. */
  lemma {:induction false} LookupAppend(a: Members, b: Members, k: string)
    ensures Lookup(a + b, k) == if k in Keys(a) then Lookup(a, k) else Lookup(b, k)
  {
    if |a| == 0 {
      assert a + b == b;
    } else {
      KeysCons(a);
      KeysCons(a + b);
      assert (a + b)[0] == a[0];
      assert (a + b)[1..] == a[1..] + b;
      LookupAppend(a[1..], b, k);
    }
  }

  /** The member `k` of an object; undefined for any other value. */
  function Member(v: Json, k: string): Json
  {
    if v.JObj? then Lookup(v.members, k) else JUndef
  }

  /** `v` is an object with a member named `k`. */
  predicate HasMember(v: Json, k: string)
  {
    v.JObj? && k in Keys(v.members)
  }

  /** In a member list without repeated keys, the i-th key reads as the i-th value. */
  lemma {:induction false} LookupAt(m: Members, i: nat)
    requires i < |m| && UniqueKeys(m)
    ensures Lookup(m, m[i].0) == m[i].1
  {
    if i > 0 {
      assert m[1..][i - 1] == m[i];
      LookupAt(m[1..], i - 1);
    }
  }

  /** In a member list without repeated keys, every key reads as its own value. */
  lemma LookupEveryKey(m: Members)
    ensures UniqueKeys(m) ==> forall i :: 0 <= i < |m| ==> Lookup(m, m[i].0) == m[i].1
  {
    if UniqueKeys(m) {
      forall i | 0 <= i < |m| ensures Lookup(m, m[i].0) == m[i].1 {
        LookupAt(m, i);
      }
    }
  }

  /**
   * The assignment `o[k] = v`: an existing key keeps its position and gets the
   * new value, a new key becomes the last member.
   */
  function Put(m: Members, k: string, v: Json): (r: Members)
    ensures Keys(r) == if k in Keys(m) then Keys(m) else Keys(m) + [k]
    ensures forall k' {:trigger Lookup(r, k')} :: Lookup(r, k') == if k' == k then v else Lookup(m, k')
    ensures UniqueKeys(m) ==> UniqueKeys(r)
  {
    if |m| == 0 then [(k, v)]
    else
      KeysCons(m);
      if m[0].0 == k then
        KeysCons([(k, v)] + m[1..]);
        [(k, v)] + m[1..]
      else
        var rest := Put(m[1..], k, v);
        KeysCons([m[0]] + rest);
        assert UniqueKeys(m) ==> m[0].0 !in Keys(m[1..]);
        assert forall x :: x in Keys(rest) ==> x in Keys(m[1..]) || x == k;
        assert UniqueKeys(m) ==> forall j :: 0 <= j < |rest| ==> rest[j].0 != m[0].0 by {
          forall j | 0 <= j < |rest| ensures UniqueKeys(m) ==> rest[j].0 != m[0].0 {
            assert rest[j].0 == Keys(rest)[j];
          }
        }
        [m[0]] + rest
  }
  /** The key `k` is present in `a` exactly when it is in `b`, with the same value. */
  predicate Agrees(a: Members, b: Members, k: string)
  {
    (k in Keys(a) <==> k in Keys(b)) && Lookup(a, k) == Lookup(b, k)
  }

  /** Writing one key leaves every other key as it was. */
  lemma PutFrame(m: Members, key: string, v: Json, k: string)
    requires k != key
    ensures Agrees(Put(m, key, v), m, k)
  {
  }

  /** Deleting one key leaves every other key as it was. */
  lemma RemoveFrame(m: Members, key: string, k: string)
    requires k != key
    ensures Agrees(Remove(m, key), m, k)
  {
  }

  /** A second write to the same key replaces the first and leaves the order of the keys alone. */
  lemma {:induction false} PutOverwrite(m: Members, k: string, a: Json, b: Json)
    ensures Put(Put(m, k, a), k, b) == Put(m, k, b)
  {
    if |m| > 0 && m[0].0 != k {
      PutOverwrite(m[1..], k, a, b);
      assert Put(m, k, a)[1..] == Put(m[1..], k, a);
    }
  }

  /** A write to a key the object does not have appends one member. */
  lemma {:induction false} PutNew(m: Members, k: string, v: Json)
    requires k !in Keys(m)
    ensures Put(m, k, v) == m + [(k, v)]
  {
    if |m| > 0 {
      KeysCons(m);
      PutNew(m[1..], k, v);
      assert m == [m[0]] + m[1..];
    }
  }

  /** The statement `if (c) o[k] = v`. */
  function MaybePut(m: Members, k: string, v: Json, c: bool): (r: Members)
    ensures |r| <= |m| + 1
  {
    if c then Put(m, k, v) else m
  }

  /** What `if (c) o[k] = v` does to one key `x`: its presence and its value. */
  lemma MaybePutAt(m: Members, k: string, v: Json, c: bool, x: string)
    ensures x in Keys(MaybePut(m, k, v, c)) <==> x in Keys(m) || (c && x == k)
    ensures Lookup(MaybePut(m, k, v, c), x) == if c && x == k then v else Lookup(m, x)
  {
  }

  /** The statement `delete o[k]`: every member named `k` goes, the others keep their order. */
  function Remove(m: Members, k: string): (r: Members)
    ensures k !in Keys(r)
    ensures forall k' :: k' != k ==> (k' in Keys(r) <==> k' in Keys(m))
    ensures forall k' {:trigger Lookup(r, k')} :: Lookup(r, k') == if k' == k then JUndef else Lookup(m, k')
    ensures forall i :: 0 <= i < |r| ==> r[i] in m
    ensures UniqueKeys(m) ==> UniqueKeys(r)
    ensures k !in Keys(m) ==> r == m
  {
    if |m| == 0 then []
    else
      var rest := Remove(m[1..], k);
      KeysCons(m);
      if m[0].0 == k then rest
      else
        var r := [m[0]] + rest;
        assert r[0] == m[0] && r[1..] == rest;
        KeysCons(r);
        assert forall k' {:trigger Lookup(r, k')} :: Lookup(r, k') == if k' == m[0].0 then m[0].1 else Lookup(rest, k');
        r
  }

  /** The copy `JSON.parse(JSON.stringify(v))` of a value that is not itself undefined. */
  function JsonCopy(v: Json): (r: Json)
    decreases v
  {
    match v
    case JArr(items) =>
      JArr(seq(|items|, i requires 0 <= i < |items| =>
        if items[i] == JUndef then JNull else JsonCopy(items[i])))
    case JObj(m) =>
      JObj(DropUndefined(seq(|m|, i requires 0 <= i < |m| => (m[i].0, JsonCopy(m[i].1)))))
    case _ => v
  }

  /** JSON.stringify leaves out the members whose value is undefined. */
  function DropUndefined(m: Members): (r: Members)
    ensures forall i :: 0 <= i < |r| ==> r[i].1 != JUndef && r[i] in m
    ensures (forall i :: 0 <= i < |m| ==> m[i].1 != JUndef) ==> r == m
  {
    if |m| == 0 then []
    else if m[0].1 == JUndef then DropUndefined(m[1..])
    else [m[0]] + DropUndefined(m[1..])
  }

  /** Plain JSON data: no `undefined` anywhere inside. */
  predicate Defined(v: Json)
    decreases v
  {
    match v
    case JUndef => false
    case JArr(items) => forall i :: 0 <= i < |items| ==> Defined(items[i])
    case JObj(m) => forall i :: 0 <= i < |m| ==> Defined(m[i].1)
    case _ => true
  }

  /** Copying plain JSON data changes nothing. */
  lemma {:induction false} JsonCopyOfDefined(v: Json)
    requires Defined(v)
    ensures JsonCopy(v) == v
    decreases v
  {
    match v
    case JArr(items) =>
      forall i | 0 <= i < |items| ensures JsonCopy(items[i]) == items[i] {
        JsonCopyOfDefined(items[i]);
      }
      assert JsonCopy(v).items == items;
    case JObj(m) =>
      var mapped := seq(|m|, i requires 0 <= i < |m| => (m[i].0, JsonCopy(m[i].1)));
      forall i | 0 <= i < |m| ensures mapped[i] == m[i] {
        JsonCopyOfDefined(m[i].1);
      }
      assert mapped == m;
    case _ =>
  }

  /** Whatever went in, a copy of a defined value is plain JSON data. */
  lemma {:induction false} JsonCopyIsDefined(v: Json)
    requires v != JUndef
    ensures Defined(JsonCopy(v))
    decreases v
  {
    match v
    case JArr(items) =>
      var r := JsonCopy(v).items;
      forall i | 0 <= i < |items| ensures Defined(r[i]) {
        if items[i] != JUndef { JsonCopyIsDefined(items[i]); }
      }
    case JObj(m) =>
      var mapped := seq(|m|, i requires 0 <= i < |m| => (m[i].0, JsonCopy(m[i].1)));
      forall i | 0 <= i < |m| && mapped[i].1 != JUndef ensures Defined(mapped[i].1) {
        JsonCopyIsDefined(m[i].1);
      }
      var r := DropUndefined(mapped);
      forall i | 0 <= i < |r| ensures Defined(r[i].1) {
        assert r[i] in mapped;
      }
    case _ =>
  }

  /** Copying twice is copying once. */
  lemma JsonCopyIdempotent(v: Json)
    requires v != JUndef
    ensures JsonCopy(JsonCopy(v)) == JsonCopy(v)
  {
    JsonCopyIsDefined(v);
    JsonCopyOfDefined(JsonCopy(v));
  }
}
