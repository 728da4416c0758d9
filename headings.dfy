/**
 * Turning a row of headings into field ids (`_normalizeRecordsAndFields` in
 * src/model.js): each heading is made text, trimmed, named `_noname_` when
 * empty, and renamed with a numeric suffix while its name is already in the
 * `seen` counter map.
 *
 * The loop is modelled as written, with the three ways it goes wrong, and as
 * evidently intended, where every id handed out is distinct.
 */
module Headings {
  import opened Wrappers
  import opened JsonValue
  import opened JsSemantics

  /** A value of the `seen` map: a count, or NaN once `undefined + 1` has been stored. */
  datatype Count = Num(n: nat) | NotANumber

  /** `seen[field] += 1` on a counter that may be missing. */
  function Bump(c: Option<Count>): (r: Count)
    ensures r.Num? <==> c.Some? && c.value.Num?
  {
    match c
    case Some(Num(n)) => Num(n + 1)
    case _ => NotANumber
  }

  /** The text `field + seen[field]` appends. */
  function CountText(c: Count): string
  {
    match c
    case Num(n) => NatToString(n)
    case NotANumber => "NaN"
  }

  /** A heading as text: null becomes '', undefined has no `toString` and throws. */
  function HeadingText(v: Json): (r: Option<string>)
    ensures r.None? <==> v.JUndef?
    ensures v.JNull? ==> r == Some("")
    ensures v.JStr? ==> r == Some(v.s)
  {
    if v.JUndef? then None else if v.JNull? then Some("") else Some(ToStr(v))
  }

  // ---------------------------------------------------------------- the renaming loop ends

  /** A bound on the lengths of the names in `keys`. */
  ghost function MaxLen(keys: set<string>): (b: nat)
    ensures forall s :: s in keys ==> |s| <= b
    decreases |keys|
  {
    if keys == {} then 0
    else
      var s :| s in keys;
      var rest := MaxLen(keys - {s});
      if |s| > rest then |s| else rest
  }

  /** A number is below ten to the power of its number of digits. */
  lemma {:induction false} NatToStringBound(k: nat)
    ensures k < Pow10(|NatToString(k)|)
  {
    if k >= 10 {
      NatToStringBound(k / 10);
      assert |NatToString(k)| == |NatToString(k / 10)| + 1;
    }
  }

  lemma {:induction false} Pow10Monotone(a: nat, b: nat)
    requires a <= b
    ensures Pow10(a) <= Pow10(b)
    decreases b
  {
    if a < b {
      Pow10Monotone(a, b - 1);
    }
  }

  /** Only numbers below a bound fixed by `keys` give a candidate `base + k` that is taken. */
  lemma TakenCandidateBound(keys: set<string>, base: string, k: nat)
    requires base + NatToString(k) in keys
    ensures k < Pow10(MaxLen(keys))
  {
    NatToStringBound(k);
    Pow10Monotone(|NatToString(k)|, MaxLen(keys));
  }

  /**
   * Where `while (fieldId in seen)` stops once the counter is a number: the
   * first `j >= k` whose candidate `base + j` is not taken.  It always stops,
   * since only finitely many candidates are taken.
   */
  function FirstFree(keys: set<string>, base: string, k: nat): (j: nat)
    ensures j >= k && base + NatToString(j) !in keys
    decreases Pow10(MaxLen(keys)) - k
  {
    if base + NatToString(k) !in keys then k
    else
      TakenCandidateBound(keys, base, k);
      FirstFree(keys, base, k + 1)
  }

  /** Every candidate the loop passes over on the way is taken. */
  lemma {:induction false} FirstFreeIsFirst(keys: set<string>, base: string, k: nat, i: nat)
    requires k <= i < FirstFree(keys, base, k)
    ensures base + NatToString(i) in keys
    decreases Pow10(MaxLen(keys)) - k
  {
    if i > k {
      TakenCandidateBound(keys, base, k);
      FirstFreeIsFirst(keys, base, k + 1, i);
    }
  }

  // ---------------------------------------------------------------- as written

  /** One heading's id and the `seen` map after it; or the loop never ends. */
  datatype Renamed = Renamed(id: string, seen: map<string, Count>) | Hangs

  /** The name the counter is kept under (the untrimmed text) and the first id tried (the trimmed text). */
  function FieldAndId(text: string): (string, string)
  {
    if Trim(text) == "" then ("_noname_", "_noname_") else (text, Trim(text))
  }

  /**
   * One heading through the body of the `_.map` callback, as written: the
   * counter is kept under the untrimmed text, and an id handed out is not
   * itself recorded in `seen`.
   */
  function RenameAsWritten(seen: map<string, Count>, text: string): (r: Renamed)
    ensures r.Renamed? ==> r.id !in seen && FieldAndId(text).0 in r.seen && seen.Keys <= r.seen.Keys
  {
    var (field, fieldId) := FieldAndId(text);
    if fieldId !in seen then
      Renamed(fieldId, if field in seen then seen else seen[field := Num(0)])
    else
      var c := Bump(if field in seen then Some(seen[field]) else None);
      var keys := seen.Keys + {field};
      match c
      case NotANumber =>
        // NaN + 1 is NaN: the same id is tried again for ever when it is taken
        if field + "NaN" in keys then Hangs else Renamed(field + "NaN", seen[field := c])
      case Num(n) =>
        var j := FirstFree(keys, field, n);
        Renamed(field + NatToString(j), seen[field := Num(j)])
  }

  /** The ids of a row of headings, the `seen` map after them; or a TypeError; or a loop that never ends. */
  datatype Named = Named(ids: seq<string>, seen: map<string, Count>) | Throws | Diverges

  /** `_.map(fields, ...)` over the headings, as written. */
  function NameAll(hs: seq<Json>): (r: Named)
    ensures r.Named? ==> |r.ids| == |hs|
    decreases |hs|
  {
    if |hs| == 0 then Named([], map[])
    else
      match NameAll(hs[..|hs| - 1])
      case Named(ids, seen) =>
        (match HeadingText(hs[|hs| - 1])
         case None => Throws
         case Some(text) =>
           match RenameAsWritten(seen, text)
           case Hangs => Diverges
           case Renamed(id, seen') => Named(ids + [id], seen'))
      case other => other
  }

  /** One id per heading, in order; the first heading keeps its trimmed text (or `_noname_`). */
  lemma {:induction false} NameAllShape(hs: seq<Json>)
    ensures NameAll(hs).Named? ==> |NameAll(hs).ids| == |hs|
    ensures NameAll(hs).Named? && |hs| > 0 && HeadingText(hs[0]).Some? ==>
      NameAll(hs).ids[0] == FieldAndId(HeadingText(hs[0]).value).1
    decreases |hs|
  {
    if |hs| > 1 {
      var init := hs[..|hs| - 1];
      NameAllShape(init);
      assert init[0] == hs[0];
    }
  }

  /** The `while (fieldId in seen)` loop once the counter is a number. */
  method Probe(seen: map<string, Count>, field: string, n: nat) returns (j: nat, s: map<string, Count>)
    requires field in seen && seen[field] == Num(n)
    ensures j == FirstFree(seen.Keys, field, n) && s == seen[field := Num(j)]
  {
    j := n;
    s := seen;
    while field + NatToString(j) in s
      invariant n <= j
      invariant FirstFree(seen.Keys, field, j) == FirstFree(seen.Keys, field, n)
      invariant s == seen[field := Num(j)]
      decreases Pow10(MaxLen(seen.Keys)) - j
    {
      SameKeys(seen, field, Num(j));
      FirstFreeStep(seen.Keys, field, j);
      s := s[field := Num(j + 1)];
      j := j + 1;
    }
    SameKeys(seen, field, Num(j));
  }

  /** Updating a counter that is there already adds no name. */
  lemma SameKeys(seen: map<string, Count>, field: string, c: Count)
    requires field in seen
    ensures seen[field := c].Keys == seen.Keys
  {
  }

  /** A taken candidate sends the search one number further, and lies below the bound. */
  lemma FirstFreeStep(keys: set<string>, base: string, j: nat)
    requires base + NatToString(j) in keys
    ensures FirstFree(keys, base, j) == FirstFree(keys, base, j + 1)
    ensures j < Pow10(MaxLen(keys))
  {
    TakenCandidateBound(keys, base, j);
  }

  /** One heading, as the callback runs it. */
  method RenameHeading(seen: map<string, Count>, text: string) returns (r: Renamed)
    ensures r == RenameAsWritten(seen, text)
  {
    // the callback's `field` and `fieldId`
    var field := text;
    var fieldId := Trim(text);
    if fieldId == "" {
      fieldId := "_noname_";
      field := fieldId;
    }
    assert (field, fieldId) == FieldAndId(text);
    var s := seen;
    if fieldId in s {
      var c := Bump(if field in s then Some(s[field]) else None);
      s := s[field := c];
      fieldId := field + CountText(c);
      if c.NotANumber? {
        assert s.Keys == seen.Keys + {field};
        if fieldId in s {
          return Hangs;
        }
        r := Renamed(fieldId, s);
        return;
      }
      assert field in seen;
      ghost var keys := seen.Keys + {field};
      assert s.Keys == keys;
      ghost var s0 := s;
      var j;
      j, s := Probe(s, field, c.n);
      assert j == FirstFree(keys, field, c.n);
      assert s == s0[field := Num(j)] == seen[field := Num(j)];
      fieldId := field + NatToString(j);
      r := Renamed(fieldId, s);
      return;
    }
    if field !in s {
      s := s[field := Num(0)];
    }
    r := Renamed(fieldId, s);
  }

  /** The headings one after another, threading `seen`. */
  method NameHeadings(hs: seq<Json>) returns (r: Named)
    ensures r == NameAll(hs)
  {
    var ids := [];
    var seen := map[];
    var i := 0;
    while i < |hs|
      invariant 0 <= i <= |hs|
      invariant NameAll(hs[..i]) == Named(ids, seen)
    {
      assert hs[..i + 1][..i] == hs[..i];
      var text := HeadingText(hs[i]);
      if text.None? {
        r := Throws;
        NameAllFailsFrom(hs, i + 1);
        return;
      }
      var one := RenameHeading(seen, text.value);
      if one.Hangs? {
        r := Diverges;
        NameAllFailsFrom(hs, i + 1);
        return;
      }
      ids := ids + [one.id];
      seen := one.seen;
      i := i + 1;
    }
    assert hs[..i] == hs;
    r := Named(ids, seen);
  }

  /** A TypeError or an endless loop at one heading is the outcome of the whole row. */
  lemma {:induction false} NameAllFailsFrom(hs: seq<Json>, i: nat)
    requires i <= |hs| && !NameAll(hs[..i]).Named?
    ensures NameAll(hs) == NameAll(hs[..i])
    decreases |hs| - i
  {
    if i < |hs| {
      assert hs[..i + 1][..i] == hs[..i];
      NameAllFailsFrom(hs, i + 1);
    } else {
      assert hs[..i] == hs;
    }
  }

  /** Text with something in it and no whitespace at either end: its own trimmed text. */
  predicate Plain(x: string)
  {
    |x| > 0 && !IsJsSpace(x[0]) && !IsJsSpace(x[|x| - 1])
  }

  /** Plain text followed by plain text is plain. */
  lemma PlainAppend(x: string, t: string)
    requires Plain(x) && Plain(t)
    ensures Plain(x + t) && (x + t)[0] == x[0]
  {
    assert (x + t)[|x + t| - 1] == t[|t| - 1];
  }

  /** One space in front of plain text is trimmed away. */
  lemma TrimLeadingSpace(x: string)
    requires Plain(x)
    ensures Trim(" " + x) == x
  {
    assert (" " + x)[1..] == x;
    assert TrimStart(" " + x) == TrimStart(x) == x;
  }

  /** Plain text is both the counter's name and the first id tried. */
  lemma PlainNames(x: string)
    requires Plain(x)
    ensures FieldAndId(x) == (x, x)
  {
  }

  /** Plain text after one space: the counter's name keeps the space, the first id tried does not. */
  lemma SpacedNames(x: string)
    requires Plain(x)
    ensures FieldAndId(" " + x) == (" " + x, x)
  {
    TrimLeadingSpace(x);
  }


  /** One more heading after a row: the callback run once more on what the row left. */
  lemma NameAllSnoc(hs: seq<Json>, h: Json)
    ensures NameAll(hs + [h]) ==
      match NameAll(hs)
      case Named(ids, seen) =>
        (match HeadingText(h)
         case None => Throws
         case Some(text) =>
           match RenameAsWritten(seen, text)
           case Hangs => Diverges
           case Renamed(id, seen') => Named(ids + [id], seen'))
      case other => other
  {
    assert (hs + [h])[..|hs|] == hs;
  }

  /** The first heading keeps its text and starts its counter at 0. */
  lemma FirstHeading(x: string)
    requires Plain(x)
    ensures NameAll([JStr(x)]) == Named([x], map[x := Num(0)])
  {
    NameAllSnoc([], JStr(x));
    assert [] + [JStr(x)] == [JStr(x)];
  }

  /** A plain heading whose text is not in `seen` keeps its text. */
  lemma Fresh(seen: map<string, Count>, x: string)
    requires Plain(x) && x !in seen
    ensures RenameAsWritten(seen, x) == Renamed(x, seen[x := Num(0)])
  {
    PlainNames(x);
  }


  /** Plain text after one space, where neither is in `seen`: the id is the text, the counter is kept under the spaced text. */
  lemma SpacedFresh(seen: map<string, Count>, x: string)
    requires Plain(x) && x !in seen && " " + x !in seen
    ensures RenameAsWritten(seen, " " + x) == Renamed(x, seen[" " + x := Num(0)])
  {
    SpacedNames(x);
  }


  /** Plain text after one space, where only the text is in `seen`: the counter read is undefined, so the suffix is NaN. */
  lemma SpacedAgain(seen: map<string, Count>, x: string)
    requires Plain(x) && x in seen && " " + x !in seen
    ensures RenameAsWritten(seen, " " + x) ==
      if " " + x + "NaN" in seen then Hangs else Renamed(" " + x + "NaN", seen[" " + x := NotANumber])
  {
    SpacedNames(x);
    assert Bump(None) == NotANumber;
    assert " " + x + "NaN" != " " + x by {
      assert |" " + x + "NaN"| > |" " + x|;
    }
  }


  /** A plain heading met again when its counter is `n` and the suffix `n + 1` is free gets that suffix. */
  lemma Again(seen: map<string, Count>, x: string, n: nat)
    requires Plain(x) && x in seen && seen[x] == Num(n) && x + NatToString(n + 1) !in seen
    ensures RenameAsWritten(seen, x) == Renamed(x + NatToString(n + 1), seen[x := Num(n + 1)])
  {
    PlainNames(x);
    var k := NatToString(n + 1);
    assert x + k !in seen.Keys + {x} by {
      assert |x + k| > |x|;
    }
    assert FirstFree(seen.Keys + {x}, x, n + 1) == n + 1;
  }


  /** A row followed by a plain heading whose counter is `n` and whose suffix `n + 1` is free. */
  lemma StepAgain(hs: seq<Json>, ids: seq<string>, seen: map<string, Count>, x: string, n: nat)
    requires NameAll(hs) == Named(ids, seen)
    requires Plain(x) && x in seen && seen[x] == Num(n) && x + NatToString(n + 1) !in seen
    ensures NameAll(hs + [JStr(x)]) == Named(ids + [x + NatToString(n + 1)], seen[x := Num(n + 1)])
  {
    NameAllSnoc(hs, JStr(x));
    assert HeadingText(JStr(x)) == Some(x);
    Again(seen, x, n);
  }

  /** The second id of x, x is free: x1 is not x. */
  lemma FirstSuffixFree(x: string)
    ensures NatToString(0 + 1) == "1"
    ensures x + "1" !in map[x := Num(0)]
  {
    assert |x + "1"| > |x|;
  }

  /** The same heading twice: the second gets the suffix 1. */
  lemma TwoSame(x: string)
    requires Plain(x)
    ensures NameAll([JStr(x), JStr(x)]) == Named([x, x + "1"], map[x := Num(0)][x := Num(1)])
  {
    assert [JStr(x)] + [JStr(x)] == [JStr(x), JStr(x)];
    assert [x] + [x + "1"] == [x, x + "1"];
    FirstHeading(x);
    FirstSuffixFree(x);
    StepAgain([JStr(x)], [x], map[x := Num(0)], x, 0);
  }


  /** The third id of x, x, x is free: x2 is neither x nor x1. */
  lemma SecondSuffixFree(x: string)
    ensures NatToString(1 + 1) == "2"
    ensures x + "2" !in map[x := Num(0)][x := Num(1)]
  {
    assert |x + "2"| > |x|;
  }

  /** A heading that repeats gets the suffixes 1, 2, ... */
  lemma RepeatedHeadingNumbered(x: string)
    requires Plain(x)
    ensures NameAll([JStr(x), JStr(x), JStr(x)]).Named?
    ensures NameAll([JStr(x), JStr(x), JStr(x)]).ids == [x, x + "1", x + "2"]
  {
    assert [JStr(x), JStr(x)] + [JStr(x)] == [JStr(x), JStr(x), JStr(x)];
    assert [x, x + "1"] + [x + "2"] == [x, x + "1", x + "2"];
    TwoSame(x);
    SecondSuffixFree(x);
    StepAgain([JStr(x), JStr(x)], [x, x + "1"], map[x := Num(0)][x := Num(1)], x, 1);
  }


  /** A row followed by a plain heading not yet in `seen`. */
  lemma StepFresh(hs: seq<Json>, ids: seq<string>, seen: map<string, Count>, x: string)
    requires NameAll(hs) == Named(ids, seen)
    requires Plain(x) && x !in seen
    ensures NameAll(hs + [JStr(x)]) == Named(ids + [x], seen[x := Num(0)])
  {
    NameAllSnoc(hs, JStr(x));
    assert HeadingText(JStr(x)) == Some(x);
    Fresh(seen, x);
  }

  /** A row followed by plain text after one space, neither in `seen`. */
  lemma StepSpacedFresh(hs: seq<Json>, ids: seq<string>, seen: map<string, Count>, x: string)
    requires NameAll(hs) == Named(ids, seen)
    requires Plain(x) && x !in seen && " " + x !in seen
    ensures NameAll(hs + [JStr(" " + x)]) == Named(ids + [x], seen[" " + x := Num(0)])
  {
    NameAllSnoc(hs, JStr(" " + x));
    assert HeadingText(JStr(" " + x)) == Some(" " + x);
    SpacedFresh(seen, x);
  }

  /** A row followed by plain text after one space, where only the text is in `seen`. */
  lemma StepSpacedAgain(hs: seq<Json>, ids: seq<string>, seen: map<string, Count>, x: string)
    requires NameAll(hs) == Named(ids, seen)
    requires Plain(x) && x in seen && " " + x !in seen
    ensures NameAll(hs + [JStr(" " + x)]) ==
      if " " + x + "NaN" in seen then Diverges else Named(ids + [" " + x + "NaN"], seen[" " + x := NotANumber])
  {
    NameAllSnoc(hs, JStr(" " + x));
    assert HeadingText(JStr(" " + x)) == Some(" " + x);
    SpacedAgain(seen, x);
  }

  /** After x, x the text x1 is plain and not in `seen`. */
  lemma CollisionFacts(x: string)
    requires Plain(x)
    ensures Plain(x + "1") && x + "1" !in map[x := Num(0)][x := Num(1)]
  {
    PlainAppend(x, "1");
    assert |x + "1"| > |x|;
  }

  /** Finding: the headings x, x, x1 come out as x, x1, x1; the suffixed id was never recorded. */
  lemma SuffixCollides(x: string)
    requires Plain(x)
    ensures NameAll([JStr(x), JStr(x), JStr(x + "1")]).Named?
    ensures NameAll([JStr(x), JStr(x), JStr(x + "1")]).ids == [x, x + "1", x + "1"]
  {
    var y := x + "1";
    assert [JStr(x), JStr(x)] + [JStr(y)] == [JStr(x), JStr(x), JStr(y)];
    assert [x, y] + [y] == [x, y, y];
    TwoSame(x);
    CollisionFacts(x);
    StepFresh([JStr(x), JStr(x)], [x, y], map[x := Num(0)][x := Num(1)], y);
  }


  /** After x, the spaced text " x" and the id " xNaN" are not in `seen`. */
  lemma SpacedFacts(x: string)
    ensures x in map[x := Num(0)] && " " + x !in map[x := Num(0)] && " " + x + "NaN" !in map[x := Num(0)]
  {
    assert |" " + x| > |x| && |" " + x + "NaN"| > |x|;
  }

  /** Finding: the headings x, " x" come out as x, " xNaN"; the counter of " x" was never set. */
  lemma UntrimmedCounter(x: string)
    requires Plain(x)
    ensures NameAll([JStr(x), JStr(" " + x)]).Named?
    ensures NameAll([JStr(x), JStr(" " + x)]).ids == [x, " " + x + "NaN"]
  {
    assert [JStr(x)] + [JStr(" " + x)] == [JStr(x), JStr(" " + x)];
    assert [x] + [" " + x + "NaN"] == [x, " " + x + "NaN"];
    FirstHeading(x);
    SpacedFacts(x);
    StepSpacedAgain([JStr(x)], [x], map[x := Num(0)], x);
  }


  /** After x, the text xNaN is plain, and neither it nor " xNaN" is in `seen`. */
  lemma NaNFacts(x: string)
    requires Plain(x)
    ensures Plain(x + "NaN") && " " + x + "NaN" == " " + (x + "NaN")
    ensures x + "NaN" !in map[x := Num(0)] && " " + (x + "NaN") !in map[x := Num(0)]
  {
    PlainAppend(x, "NaN");
    assert |x + "NaN"| > |x| && |" " + (x + "NaN")| > |x|;
  }

  /** The headings x, " xNaN": the second gets the id xNaN and a counter under " xNaN". */
  lemma NaNTaken(x: string)
    requires Plain(x)
    ensures NameAll([JStr(x), JStr(" " + x + "NaN")]) == Named([x, x + "NaN"], map[x := Num(0)][" " + x + "NaN" := Num(0)])
  {
    var y := x + "NaN";
    assert [JStr(x)] + [JStr(" " + y)] == [JStr(x), JStr(" " + y)];
    assert [x] + [y] == [x, y];
    NaNFacts(x);
    FirstHeading(x);
    StepSpacedFresh([JStr(x)], [x], map[x := Num(0)], y);
  }


  /** After x, " xNaN": x and " xNaN" are in `seen`, " x" is not. */
  lemma LoopFacts(x: string)
    ensures var seen := map[x := Num(0)][" " + x + "NaN" := Num(0)];
      x in seen && " " + x !in seen && " " + x + "NaN" in seen
  {
    assert |" " + x| != |x| && |" " + x| != |" " + x + "NaN"|;
  }

  /** Finding: the headings x, " xNaN", " x" never come out: the loop tries " xNaN" for ever. */
  lemma NaNLoops(x: string)
    requires Plain(x)
    ensures NameAll([JStr(x), JStr(" " + x + "NaN"), JStr(" " + x)]) == Diverges
  {
    var hs := [JStr(x), JStr(" " + x + "NaN")];
    assert hs + [JStr(" " + x)] == [JStr(x), JStr(" " + x + "NaN"), JStr(" " + x)];
    NaNTaken(x);
    LoopFacts(x);
    StepSpacedAgain(hs, [x, x + "NaN"], map[x := Num(0)][" " + x + "NaN" := Num(0)], x);
  }



  // ---------------------------------------------------------------- as intended

  /**
   * One heading, as intended: counted under its trimmed name, and every id
   * handed out recorded, so that no later heading can be given it again.
   */
  function RenameUnique(seen: map<string, nat>, text: string): (r: (string, map<string, nat>))
    ensures r.0 !in seen && r.0 in r.1 && seen.Keys <= r.1.Keys
  {
    var base := FieldAndId(text).1;
    if base !in seen then (base, seen[base := 0])
    else
      var j := FirstFree(seen.Keys, base, seen[base] + 1);
      var id := base + NatToString(j);
      (id, seen[base := j][id := 0])
  }

  /** The headings one after another, as intended; a TypeError for an undefined heading. */
  function NameAllUnique(hs: seq<Json>): (r: Option<(seq<string>, map<string, nat>)>)
    ensures r.Some? ==> |r.value.0| == |hs|
    decreases |hs|
  {
    if |hs| == 0 then Some(([], map[]))
    else
      var (ids, seen) :- NameAllUnique(hs[..|hs| - 1]);
      var text :- HeadingText(hs[|hs| - 1]);
      var (id, seen') := RenameUnique(seen, text);
      Some((ids + [id], seen'))
  }

  /** One more heading after a row, as intended. */
  lemma NameAllUniqueSnoc(hs: seq<Json>, h: Json)
    ensures NameAllUnique(hs + [h]) ==
      if NameAllUnique(hs).None? || h.JUndef? then None
      else
        var (ids, seen) := NameAllUnique(hs).value;
        var (id, seen') := RenameUnique(seen, HeadingText(h).value);
        Some((ids + [id], seen'))
  {
    assert (hs + [h])[..|hs|] == hs;
  }

  /** As intended, a row gets its ids exactly when none of its headings is undefined. */
  lemma {:induction false} NameAllUniqueDefined(hs: seq<Json>)
    ensures NameAllUnique(hs).Some? <==> forall i :: 0 <= i < |hs| ==> !hs[i].JUndef?
    decreases |hs|
  {
    if |hs| > 0 {
      var init := hs[..|hs| - 1];
      var last := hs[|hs| - 1];
      NameAllUniqueDefined(init);
      assert hs == init + [last];
      NameAllUniqueSnoc(init, last);
      assert (forall i :: 0 <= i < |hs| ==> !hs[i].JUndef?)
         <==> (forall i :: 0 <= i < |init| ==> !init[i].JUndef?) && !last.JUndef?;
    }
  }

  /** No two ids the same. */
  predicate Distinct(ids: seq<string>)
  {
    forall i, j :: 0 <= i < j < |ids| ==> ids[i] != ids[j]
  }

  /** Distinct ids, all recorded in `seen`, stay so when a new id is added and recorded. */
  lemma DistinctAppend(ids: seq<string>, seen: map<string, nat>, id: string, seen': map<string, nat>)
    requires Distinct(ids) && forall i :: 0 <= i < |ids| ==> ids[i] in seen
    requires id !in seen && id in seen' && seen.Keys <= seen'.Keys
    ensures Distinct(ids + [id]) && forall i :: 0 <= i < |ids| + 1 ==> (ids + [id])[i] in seen'
  {
    var ids' := ids + [id];
    forall i | 0 <= i < |ids'|
      ensures ids'[i] in seen'
    {
      if i < |ids| {
        assert ids'[i] == ids[i];
      }
    }
    forall i, j | 0 <= i < j < |ids'|
      ensures ids'[i] != ids'[j]
    {
      assert ids'[i] == ids[i];
      if j < |ids| {
        assert ids'[j] == ids[j];
      }
    }
  }

  /** The last heading of a named row, as intended: the row before it is named, and the last id is appended. */
  lemma NameAllUniqueLast(hs: seq<Json>)
    requires |hs| > 0 && NameAllUnique(hs).Some?
    ensures NameAllUnique(hs[..|hs| - 1]).Some? && HeadingText(hs[|hs| - 1]).Some?
    ensures var named := NameAllUnique(hs[..|hs| - 1]).value;
      var r := RenameUnique(named.1, HeadingText(hs[|hs| - 1]).value);
      NameAllUnique(hs).value == (named.0 + [r.0], r.1)
  {
  }

  /** As intended, one id per heading, every id recorded in `seen`, and no two the same. */
  lemma {:induction false} NameAllUniqueDistinct(hs: seq<Json>)
    requires NameAllUnique(hs).Some?
    ensures |NameAllUnique(hs).value.0| == |hs|
    ensures forall i :: 0 <= i < |hs| ==> NameAllUnique(hs).value.0[i] in NameAllUnique(hs).value.1
    ensures Distinct(NameAllUnique(hs).value.0)
    decreases |hs|
  {
    if |hs| > 0 {
      var init := hs[..|hs| - 1];
      NameAllUniqueLast(hs);
      NameAllUniqueDistinct(init);
      var ids := NameAllUnique(init).value.0;
      var seen := NameAllUnique(init).value.1;
      var r := RenameUnique(seen, HeadingText(hs[|hs| - 1]).value);
      DistinctAppend(ids, seen, r.0, r.1);
    }
  }

  /** As intended, a plain heading whose text is not in `seen` keeps its text. */
  lemma FreshUnique(seen: map<string, nat>, x: string)
    requires Plain(x) && x !in seen
    ensures RenameUnique(seen, x) == (x, seen[x := 0])
  {
    PlainNames(x);
  }


  /** As intended, a plain heading seen before whose next suffix is free takes it, and the id is recorded. */
  lemma AgainUnique(seen: map<string, nat>, x: string)
    requires Plain(x) && x in seen && x + NatToString(seen[x] + 1) !in seen
    ensures RenameUnique(seen, x) ==
      (x + NatToString(seen[x] + 1), seen[x := seen[x] + 1][x + NatToString(seen[x] + 1) := 0])
  {
    PlainNames(x);
    assert FirstFree(seen.Keys, x, seen[x] + 1) == seen[x] + 1;
  }


  /** As intended, a row followed by a plain heading not yet in `seen`. */
  lemma StepFreshUnique(hs: seq<Json>, ids: seq<string>, seen: map<string, nat>, x: string)
    requires NameAllUnique(hs) == Some((ids, seen))
    requires Plain(x) && x !in seen
    ensures NameAllUnique(hs + [JStr(x)]) == Some((ids + [x], seen[x := 0]))
  {
    NameAllUniqueSnoc(hs, JStr(x));
    assert HeadingText(JStr(x)) == Some(x);
    FreshUnique(seen, x);
  }

  /** As intended, a row followed by a plain heading seen `n` times before whose next suffix is free. */
  lemma StepAgainUnique(hs: seq<Json>, ids: seq<string>, seen: map<string, nat>, x: string, n: nat)
    requires NameAllUnique(hs) == Some((ids, seen))
    requires Plain(x) && x in seen && seen[x] == n && x + NatToString(n + 1) !in seen
    ensures NameAllUnique(hs + [JStr(x)]) ==
      Some((ids + [x + NatToString(n + 1)], seen[x := n + 1][x + NatToString(n + 1) := 0]))
  {
    NameAllUniqueSnoc(hs, JStr(x));
    assert HeadingText(JStr(x)) == Some(x);
    AgainUnique(seen, x);
  }

  /** The first heading, as intended. */
  lemma FirstUnique(x: string)
    requires Plain(x)
    ensures NameAllUnique([JStr(x)]) == Some(([x], map[x := 0]))
  {
    assert NameAllUnique([]) == Some(([], map[]));
    StepFreshUnique([], [], map[], x);
    assert [] + [JStr(x)] == [JStr(x)];
    assert [] + [x] == [x];
  }

  /** A null or blank heading is named `_noname_`, as written and as intended. */
  lemma BlankHeadingNoname(h: Json)
    requires h.JNull? || (h.JStr? && Trim(h.s) == "")
    ensures NameAll([h]) == Named(["_noname_"], map["_noname_" := Num(0)])
    ensures NameAllUnique([h]) == Some((["_noname_"], map["_noname_" := 0]))
  {
    assert [] + [h] == [h];
    assert HeadingText(h).Some? && Trim(HeadingText(h).value) == "";
    NameAllSnoc([], h);
    NameAllUniqueSnoc([], h);
    assert [] + ["_noname_"] == ["_noname_"];
  }

  /** As intended, the second id of x, x is free: x1 is not x. */
  lemma FirstSuffixFreeUnique(x: string)
    ensures NatToString(0 + 1) == "1"
    ensures x in map[x := 0] && map[x := 0][x] == 0 && x + "1" !in map[x := 0]
  {
    assert |x + "1"| > |x|;
  }

  /** As intended, the same heading twice gets x and x1, and x1 is recorded. */
  lemma TwoSameUnique(x: string)
    requires Plain(x)
    ensures NameAllUnique([JStr(x), JStr(x)]) == Some(([x, x + "1"], map[x := 0][x := 1][x + "1" := 0]))
  {
    assert [JStr(x)] + [JStr(x)] == [JStr(x), JStr(x)];
    assert [x] + [x + "1"] == [x, x + "1"];
    FirstUnique(x);
    FirstSuffixFreeUnique(x);
    StepAgainUnique([JStr(x)], [x], map[x := 0], x, 0);
  }


  /** As intended, after x, x the text x1 is plain, recorded with count 0, and x11 is free. */
  lemma RecordedFacts(x: string)
    requires Plain(x)
    ensures var seen := map[x := 0][x := 1][x + "1" := 0];
      Plain(x + "1") && x + "1" in seen && seen[x + "1"] == 0 && x + "1" + NatToString(0 + 1) !in seen
  {
    PlainAppend(x, "1");
    assert NatToString(1) == "1";
    var z := x + "1" + "1";
    assert |z| == |x| + 2 && |x + "1"| == |x| + 1;
  }

  /** As intended, x1 after x, x: its counter was recorded with the id x1, so it goes on to x11. */
  lemma ThirdUnique(x: string)
    requires Plain(x)
    ensures NameAllUnique([JStr(x), JStr(x)] + [JStr(x + "1")]).Some?
    ensures NameAllUnique([JStr(x), JStr(x)] + [JStr(x + "1")]).value.0 == [x, x + "1"] + [x + "1" + "1"]
  {
    TwoSameUnique(x);
    RecordedFacts(x);
    assert NatToString(0 + 1) == "1";
    StepAgainUnique([JStr(x), JStr(x)], [x, x + "1"], map[x := 0][x := 1][x + "1" := 0], x + "1", 0);
  }


  /** As intended, the headings x, x, x1 come out as x, x1, x11. */
  lemma SuffixCollisionAvoided(x: string)
    requires Plain(x)
    ensures NameAllUnique([JStr(x), JStr(x), JStr(x + "1")]).Some?
    ensures NameAllUnique([JStr(x), JStr(x), JStr(x + "1")]).value.0 == [x, x + "1", x + "1" + "1"]
  {
    var y := x + "1";
    var z := y + "1";
    assert [JStr(x), JStr(x)] + [JStr(y)] == [JStr(x), JStr(x), JStr(y)];
    assert [x, y] + [z] == [x, y, z];
    ThirdUnique(x);
  }

  /** As intended, the headings x, " x" come out as x, x1: the counter is kept under the trimmed name. */
  lemma UntrimmedCounterAvoided(x: string)
    requires Plain(x)
    ensures NameAllUnique([JStr(x), JStr(" " + x)]).Some?
    ensures NameAllUnique([JStr(x), JStr(" " + x)]).value.0 == [x, x + "1"]
  {
    FirstUnique(x);
    NameAllUniqueSnoc([JStr(x)], JStr(" " + x));
    assert [JStr(x)] + [JStr(" " + x)] == [JStr(x), JStr(" " + x)];
    assert HeadingText(JStr(" " + x)) == Some(" " + x);
    SpacedNames(x);
    FirstSuffixFreeUnique(x);
    assert FirstFree(map[x := 0].Keys, x, 1) == 1;
    assert [x] + [x + "1"] == [x, x + "1"];
  }

  /** As intended, an undefined heading ends the row with a TypeError. */
  lemma {:induction false} NameAllUniqueFailsFrom(hs: seq<Json>, i: nat)
    requires i <= |hs| && NameAllUnique(hs[..i]).None?
    ensures NameAllUnique(hs).None?
    decreases |hs| - i
  {
    if i < |hs| {
      assert hs[..i + 1][..i] == hs[..i];
      NameAllUniqueFailsFrom(hs, i + 1);
    } else {
      assert hs[..i] == hs;
    }
  }

  /** One heading as intended, with the `while (fieldId in seen)` search written as a loop. */
  method RenameHeadingUnique(seen: map<string, nat>, text: string) returns (id: string, seen': map<string, nat>)
    ensures (id, seen') == RenameUnique(seen, text)
  {
    var base := FieldAndId(text).1;
    if base !in seen {
      return base, seen[base := 0];
    }
    var j := NextFree(seen, base, seen[base] + 1);
    id := base + NatToString(j);
    seen' := seen[base := j][id := 0];
  }

  /** The `while (fieldId in seen)` search: the first counter from `start` whose name is free. */
  method NextFree(seen: map<string, nat>, base: string, start: nat) returns (j: nat)
    ensures j == FirstFree(seen.Keys, base, start)
  {
    j := start;
    while base + NatToString(j) in seen
      invariant j >= start
      invariant FirstFree(seen.Keys, base, j) == FirstFree(seen.Keys, base, start)
      decreases Pow10(MaxLen(seen.Keys)) - j
    {
      FirstFreeStep(seen.Keys, base, j);
      j := j + 1;
    }
  }

  /** The headings one after another, as intended. */
  method NameHeadingsUnique(hs: seq<Json>) returns (r: Option<(seq<string>, map<string, nat>)>)
    ensures r == NameAllUnique(hs)
  {
    var ids: seq<string> := [];
    var seen: map<string, nat> := map[];
    var i := 0;
    while i < |hs|
      invariant 0 <= i <= |hs|
      invariant NameAllUnique(hs[..i]) == Some((ids, seen))
    {
      assert hs[..i + 1] == hs[..i] + [hs[i]];
      NameAllUniqueSnoc(hs[..i], hs[i]);
      var text := HeadingText(hs[i]);
      if text.None? {
        NameAllUniqueFailsFrom(hs, i + 1);
        return None;
      }
      var id, seen' := RenameHeadingUnique(seen, text.value);
      ids := ids + [id];
      seen := seen';
      i := i + 1;
    }
    assert hs[..i] == hs;
    return Some((ids, seen));
  }
}
