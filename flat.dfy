/** The flat-text serialiser `flatJson` (src/lib/json/flat.ts): renders a
    JSON-like value as tab-indented text without JSON punctuation. */
module Flat {
  import opened Common

  /** The values `flatJson` distinguishes. `JId` is a MongoDB ObjectId held as
      its hex string, `JDate` a Date held as its ISO-8601 string, `JObj` an
      object's entries in `Object.entries` order. Numbers are integers. */
  datatype Json =
    | JNull
    | JUndefined
    | JId(hex: string)
    | JArr(items: seq<Json>)
    | JDate(iso: string)
    | JObj(entries: seq<(string, Json)>)
    | JStr(s: string)
    | JNum(n: int)
    | JBool(b: bool)

  /** `isPrimitiveType`: string, number, boolean, or a Date. */
  predicate IsPrimitiveType(v: Json)
  {
    v.JStr? || v.JNum? || v.JBool? || v.JDate?
  }

  /** The value under key `k` of an object given by its entries, as property
      access sees it; of two entries with one key the later wins, as in the
      object `JSON.parse` builds. */
  function Field(entries: seq<(string, Json)>, k: string): Option<Json>
  {
    if |entries| == 0 then None
    else if entries[|entries| - 1].0 == k then Some(entries[|entries| - 1].1)
    else Field(entries[..|entries| - 1], k)
  }

  /** The separator `flatJson` puts between a key and its value. */
  function Sep(v: Json): (r: string)
  {
    if IsPrimitiveType(v) then "=" else "\n"
  }

  /** `"\t".repeat(n)`. */
  function Tabs(n: nat): (r: string)
    ensures |r| == n
    ensures forall i :: 0 <= i < n ==> r[i] == '\t'
  {
    if n == 0 then "" else "\t" + Tabs(n - 1)
  }

  /** `flatJson(src, depth)`. */
  function FlatJson(src: Json, depth: nat): string
    decreases src, 1, 0
  {
    match src
    case JNull => "null"
    case JId(hex) => hex
    case JArr(items) => Tabs(depth) + FlatItems(src, 0, depth)
    case JDate(iso) => iso
    case JObj(entries) => FlatEntries(src, 0, depth)
    case JStr(s) => s
    case JNum(n) => IntToString(n)
    case JBool(b) => if b then "true" else "false"
    case JUndefined => "undefined"
  }

  /** The array's elements from index `k` on, rendered and joined by newlines. */
  function FlatItems(arr: Json, k: nat, depth: nat): (r: string)
    requires arr.JArr? && k <= |arr.items|
    decreases arr, 0, |arr.items| - k
  {
    if k == |arr.items| then ""
    else
      assert arr.items[k] < arr;
      var part := (if k > 0 then Tabs(depth) else "") + NatToString(k) + " " + FlatJson(arr.items[k], depth + 1);
      if k + 1 < |arr.items| then part + "\n" + FlatItems(arr, k + 1, depth) else part
  }

  /** The object's entries from index `k` on, rendered and joined by newlines. */
  function FlatEntries(obj: Json, k: nat, depth: nat): (r: string)
    requires obj.JObj? && k <= |obj.entries|
    decreases obj, 0, |obj.entries| - k
  {
    if k == |obj.entries| then ""
    else
      assert obj.entries[k] < obj && obj.entries[k].1 < obj.entries[k];
      var key := obj.entries[k].0;
      var value := obj.entries[k].1;
      var part := (if k > 0 then Tabs(depth) else "") + key + Sep(value) + FlatJson(value, depth + 1);
      if k + 1 < |obj.entries| then part + "\n" + FlatEntries(obj, k + 1, depth) else part
  }

  // ---------------------------------------------------------------------------
  // The rendering rules, stated element by element as the source's
  // `map(...).join("\n")` pipelines do.

  /** One array element as the source's `map` callback builds it. */
  function ArrayPart(items: seq<Json>, i: nat, depth: nat): string
    requires i < |items|
  {
    (if i > 0 then Tabs(depth) else "") + NatToString(i) + " " + FlatJson(items[i], depth + 1)
  }

  /** One array element with the indentation it has in the output: every
      element, the first included, starts with `depth` tabs. */
  function ArrayLine(items: seq<Json>, i: nat, depth: nat): string
    requires i < |items|
  {
    Tabs(depth) + NatToString(i) + " " + FlatJson(items[i], depth + 1)
  }

  /** One object entry as the source's two `map` callbacks build it. */
  function EntryPart(entries: seq<(string, Json)>, i: nat, depth: nat): string
    requires i < |entries|
  {
    (if i > 0 then Tabs(depth) else "") + entries[i].0 + Sep(entries[i].1) + FlatJson(entries[i].1, depth + 1)
  }

  /** The `map` parts from index `k` on: the first, then those from `k + 1`. */
  lemma ArrayPartsStep(items: seq<Json>, k: nat, depth: nat)
    requires k < |items|
    ensures var parts := seq(|items| - k, j requires 0 <= j < |items| - k => ArrayPart(items, k + j, depth));
            parts[0] == ArrayPart(items, k, depth)
            && parts[1..] == seq(|items| - (k + 1), j requires 0 <= j < |items| - (k + 1) => ArrayPart(items, k + 1 + j, depth))
  {
  }

  lemma EntryPartsStep(entries: seq<(string, Json)>, k: nat, depth: nat)
    requires k < |entries|
    ensures var parts := seq(|entries| - k, j requires 0 <= j < |entries| - k => EntryPart(entries, k + j, depth));
            parts[0] == EntryPart(entries, k, depth)
            && parts[1..] == seq(|entries| - (k + 1), j requires 0 <= j < |entries| - (k + 1) => EntryPart(entries, k + 1 + j, depth))
  {
  }

  lemma {:induction false} FlatItemsFrom(arr: Json, k: nat, depth: nat)
    requires arr.JArr? && k <= |arr.items|
    ensures FlatItems(arr, k, depth)
         == Join(seq(|arr.items| - k, j requires 0 <= j < |arr.items| - k => ArrayPart(arr.items, k + j, depth)), "\n")
    decreases |arr.items| - k
  {
    var parts := seq(|arr.items| - k, j requires 0 <= j < |arr.items| - k => ArrayPart(arr.items, k + j, depth));
    if k < |arr.items| {
      ArrayPartsStep(arr.items, k, depth);
      if k + 1 < |arr.items| {
        FlatItemsFrom(arr, k + 1, depth);
        JoinUnfold(parts, "\n");
      } else {
        assert parts == [parts[0]];
      }
    }
  }

  lemma {:induction false} FlatEntriesFrom(obj: Json, k: nat, depth: nat)
    requires obj.JObj? && k <= |obj.entries|
    ensures FlatEntries(obj, k, depth)
         == Join(seq(|obj.entries| - k, j requires 0 <= j < |obj.entries| - k => EntryPart(obj.entries, k + j, depth)), "\n")
    decreases |obj.entries| - k
  {
    var parts := seq(|obj.entries| - k, j requires 0 <= j < |obj.entries| - k => EntryPart(obj.entries, k + j, depth));
    if k < |obj.entries| {
      EntryPartsStep(obj.entries, k, depth);
      if k + 1 < |obj.entries| {
        FlatEntriesFrom(obj, k + 1, depth);
        JoinUnfold(parts, "\n");
      } else {
        assert parts == [parts[0]];
      }
    }
  }

  /** An array at depth d: its elements joined by newlines, each one `d` tabs,
      its index, a space, then the element flattened at depth d + 1. An empty
      array renders as the bare `d` tabs. */
  lemma ArrayRendering(items: seq<Json>, depth: nat)
    ensures |items| == 0 ==> FlatJson(JArr(items), depth) == Tabs(depth)
    ensures |items| > 0 ==>
              FlatJson(JArr(items), depth)
              == Join(seq(|items|, i requires 0 <= i < |items| => ArrayLine(items, i, depth)), "\n")
  {
    var arr := JArr(items);
    FlatItemsFrom(arr, 0, depth);
    var parts := seq(|items|, i requires 0 <= i < |items| => ArrayPart(items, i, depth));
    assert parts == seq(|items| - 0, j requires 0 <= j < |items| - 0 => ArrayPart(arr.items, 0 + j, depth));
    if |items| > 0 {
      ArrayLinesFromParts(items, depth);
      JoinPrefixFirst(parts, Tabs(depth), "\n");
    }
  }

  /** The output lines are the `map` parts with the array's own indentation
      added in front of the first. */
  lemma ArrayLinesFromParts(items: seq<Json>, depth: nat)
    requires |items| > 0
    ensures var parts := seq(|items|, i requires 0 <= i < |items| => ArrayPart(items, i, depth));
            seq(|items|, i requires 0 <= i < |items| => ArrayLine(items, i, depth)) == [Tabs(depth) + parts[0]] + parts[1..]
  {
    var parts := seq(|items|, i requires 0 <= i < |items| => ArrayPart(items, i, depth));
    var lines := seq(|items|, i requires 0 <= i < |items| => ArrayLine(items, i, depth));
    var shaped := [Tabs(depth) + parts[0]] + parts[1..];
    assert lines[0] == shaped[0];
    forall i | 1 <= i < |items|
      ensures lines[i] == shaped[i]
    {
      assert shaped[i] == parts[i];
    }
  }

  /** Prefixing a join prefixes its first part. */
  lemma JoinPrefixFirst(parts: seq<string>, pre: string, sep: string)
    requires |parts| > 0
    ensures pre + Join(parts, sep) == Join([pre + parts[0]] + parts[1..], sep)
  {
    var ps := [pre + parts[0]] + parts[1..];
    if |parts| > 1 {
      assert ps[1..] == parts[1..];
    }
  }

  /** An object at depth d: its entries in order, joined by newlines; each is
      its key, then `=` for a string, number, boolean or Date value and a
      newline for anything else, then the value flattened at depth d + 1;
      entries after the first are prefixed with `d` tabs. */
  lemma ObjectRendering(entries: seq<(string, Json)>, depth: nat)
    ensures FlatJson(JObj(entries), depth)
         == Join(seq(|entries|, i requires 0 <= i < |entries| => EntryPart(entries, i, depth)), "\n")
  {
    var obj := JObj(entries);
    FlatEntriesFrom(obj, 0, depth);
    assert seq(|entries|, i requires 0 <= i < |entries| => EntryPart(entries, i, depth))
        == seq(|entries| - 0, j requires 0 <= j < |entries| - 0 => EntryPart(obj.entries, 0 + j, depth));
  }

  /** The values that are not arrays or objects render on their own, whatever
      the depth: null as "null", an ObjectId as its hex string, a Date as its
      ISO string, other primitives by string coercion. */
  lemma ScalarRendering(depth: nat, hex: string, iso: string, s: string, n: int, b: bool)
    ensures FlatJson(JNull, depth) == "null"
    ensures FlatJson(JId(hex), depth) == hex
    ensures FlatJson(JDate(iso), depth) == iso
    ensures FlatJson(JStr(s), depth) == s
    ensures FlatJson(JNum(n), depth) == IntToString(n)
    ensures FlatJson(JBool(b), depth) == (if b then "true" else "false")
    ensures FlatJson(JUndefined, depth) == "undefined"
  {
  }

  /** A Date field renders as `key=ISO`; a field holding null, an ObjectId, an
      array or an object puts its value on the next line. */
  lemma EntrySeparator(entries: seq<(string, Json)>, i: nat, depth: nat)
    requires i < |entries|
    ensures entries[i].1.JDate? ==>
              EntryPart(entries, i, depth) == (if i > 0 then Tabs(depth) else "") + entries[i].0 + "=" + entries[i].1.iso
    ensures (entries[i].1.JNull? || entries[i].1.JId? || entries[i].1.JArr? || entries[i].1.JObj?) ==>
         EntryPart(entries, i, depth) == (if i > 0 then Tabs(depth) else "") + entries[i].0 + "\n" + FlatJson(entries[i].1, depth + 1)
  {
  }

  lemma Join2(x: string, y: string, sep: string)
    ensures Join([x, y], sep) == x + sep + y
  {
    assert [x, y][1..] == [y];
  }

  lemma Join3(x: string, y: string, z: string, sep: string)
    ensures Join([x, y, z], sep) == x + sep + y + sep + z
  {
    assert [x, y, z][1..] == [y, z];
    Join2(y, z, sep);
  }

  lemma ArrayPair(a: Json, b: Json, depth: nat)
    ensures FlatJson(JArr([a, b]), depth) == ArrayLine([a, b], 0, depth) + "\n" + ArrayLine([a, b], 1, depth)
  {
    ArrayRendering([a, b], depth);
    var lines := seq(2, i requires 0 <= i < 2 => ArrayLine([a, b], i, depth));
    assert lines == [ArrayLine([a, b], 0, depth), ArrayLine([a, b], 1, depth)];
    Join2(lines[0], lines[1], "\n");
  }

  lemma FirstDigits()
    ensures NatToString(0) == "0" && NatToString(1) == "1" && NatToString(2) == "2"
  {
  }

  /** Two-element arrays, spelled out. */
  lemma SmallArray(a: Json, b: Json, depth: nat)
    ensures FlatJson(JArr([a, b]), depth)
         == Tabs(depth) + "0 " + FlatJson(a, depth + 1) + "\n" + Tabs(depth) + "1 " + FlatJson(b, depth + 1)
  {
    ArrayPair(a, b, depth);
    FirstDigits();
  }

  /** An entry's text after its indentation: key, separator, value. */
  function EntryText(key: string, value: Json, depth: nat): string
  {
    key + Sep(value) + FlatJson(value, depth + 1)
  }

  lemma EntryPartForm(entries: seq<(string, Json)>, i: nat, depth: nat)
    requires i < |entries|
    ensures i == 0 ==> EntryPart(entries, i, depth) == EntryText(entries[i].0, entries[i].1, depth)
    ensures i > 0 ==> EntryPart(entries, i, depth) == Tabs(depth) + EntryText(entries[i].0, entries[i].1, depth)
  {
  }

  lemma ObjectOne(ka: string, a: Json, depth: nat)
    ensures FlatJson(JObj([(ka, a)]), depth) == EntryText(ka, a, depth)
  {
    var e := [(ka, a)];
    ObjectRendering(e, depth);
    assert seq(|e|, i requires 0 <= i < |e| => EntryPart(e, i, depth)) == [EntryPart(e, 0, depth)];
    EntryPartForm(e, 0, depth);
  }

  lemma ObjectTwoParts(ka: string, a: Json, kb: string, b: Json, depth: nat)
    ensures var e := [(ka, a), (kb, b)];
            FlatJson(JObj(e), depth) == EntryPart(e, 0, depth) + "\n" + EntryPart(e, 1, depth)
  {
    var e := [(ka, a), (kb, b)];
    ObjectRendering(e, depth);
    assert seq(|e|, i requires 0 <= i < |e| => EntryPart(e, i, depth)) == [EntryPart(e, 0, depth), EntryPart(e, 1, depth)];
    Join2(EntryPart(e, 0, depth), EntryPart(e, 1, depth), "\n");
  }

  lemma ObjectTwo(ka: string, a: Json, kb: string, b: Json, depth: nat)
    ensures FlatJson(JObj([(ka, a), (kb, b)]), depth)
         == EntryText(ka, a, depth) + "\n" + (Tabs(depth) + EntryText(kb, b, depth))
  {
    var e := [(ka, a), (kb, b)];
    ObjectTwoParts(ka, a, kb, b, depth);
    EntryPartForm(e, 0, depth);
    EntryPartForm(e, 1, depth);
  }

  lemma ObjectThreeParts(ka: string, a: Json, kb: string, b: Json, kc: string, c: Json, depth: nat)
    ensures var e := [(ka, a), (kb, b), (kc, c)];
            FlatJson(JObj(e), depth) == EntryPart(e, 0, depth) + "\n" + EntryPart(e, 1, depth) + "\n" + EntryPart(e, 2, depth)
  {
    var e := [(ka, a), (kb, b), (kc, c)];
    ObjectRendering(e, depth);
    assert seq(|e|, i requires 0 <= i < |e| => EntryPart(e, i, depth)) == [EntryPart(e, 0, depth), EntryPart(e, 1, depth), EntryPart(e, 2, depth)];
    Join3(EntryPart(e, 0, depth), EntryPart(e, 1, depth), EntryPart(e, 2, depth), "\n");
  }

  lemma ObjectThree(ka: string, a: Json, kb: string, b: Json, kc: string, c: Json, depth: nat)
    ensures FlatJson(JObj([(ka, a), (kb, b), (kc, c)]), depth)
         == EntryText(ka, a, depth) + "\n" + (Tabs(depth) + EntryText(kb, b, depth)) + "\n" + (Tabs(depth) + EntryText(kc, c, depth))
  {
    var e := [(ka, a), (kb, b), (kc, c)];
    ObjectThreeParts(ka, a, kb, b, kc, c, depth);
    EntryPartForm(e, 0, depth);
    EntryPartForm(e, 1, depth);
    EntryPartForm(e, 2, depth);
  }

  lemma TabsSmall()
    ensures Tabs(1) == "\t" && Tabs(2) == "\t\t" && Tabs(3) == "\t\t\t"
  {
  }
}
