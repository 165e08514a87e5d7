/** The receipt record schema (src/lib/db/schema/receipts.ts:19-44) and what
    zod's `ReceiptRecord.parse` makes of an answer. A `z.object` rebuilds the
    object from the schema's own keys, in the schema's order, and checks each
    value against its field's type. Keys outside the schema are dropped; an
    absent optional or `unknown` field stays absent. */
module ReceiptSchema {
  import opened Common
  import opened Flat

  /** The field types the two object schemas use. */
  datatype Kind =
    | StringKind          // z.string()
    | NumberKind          // z.number()
    | OptionalStringKind  // z.string().optional()
    | UnknownKind         // z.unknown()
    | StringRecordKind    // z.record(z.string())
    | ItemsKind           // ReceiptItem.array()

  /** An object schema: its keys in declaration order, with their types. */
  type Shape = seq<(string, Kind)>

  /** `ReceiptItem`. */
  const ItemShape: Shape := [
    ("id", StringKind), ("name", StringKind), ("desc", StringKind), ("qty", NumberKind),
    ("unitPrice", NumberKind), ("totalPrice", NumberKind), ("metadata", UnknownKind)]

  /** `ReceiptRecord`. */
  const RecordShape: Shape := [
    ("id", StringKind), ("date", StringKind), ("storeName", StringKind), ("storeAddress", StringKind),
    ("cashierName", OptionalStringKind), ("items", ItemsKind), ("subtotal", NumberKind), ("tax", NumberKind),
    ("total", NumberKind), ("paymentMethod", StringKind), ("paymentDetails", StringRecordKind),
    ("metadata", UnknownKind)]

  /** The keys of a schema, in order. */
  function ShapeKeys(shape: Shape): (r: seq<string>)
    ensures |r| == |shape|
    ensures forall i :: 0 <= i < |shape| ==> r[i] == shape[i].0
  {
    seq(|shape|, i requires 0 <= i < |shape| => shape[i].0)
  }

  predicate DistinctShape(shape: Shape)
  {
    forall i, j :: 0 <= i < j < |shape| ==> shape[i].0 != shape[j].0
  }

  /** The place of key `k` in the schema (`|shape|` when it has none). */
  function Position(shape: Shape, k: string): (r: nat)
    ensures r <= |shape|
    ensures r < |shape| <==> k in ShapeKeys(shape)
    ensures r < |shape| ==> shape[r].0 == k
  {
    if |shape| == 0 then 0
    else if shape[0].0 == k then 0
    else
      assert forall i :: 0 <= i < |shape| - 1 ==> ShapeKeys(shape[1..])[i] == ShapeKeys(shape)[i + 1];
      assert k in ShapeKeys(shape) <==> k in ShapeKeys(shape[1..]) by {
        if k in ShapeKeys(shape) {
          var i :| 0 <= i < |shape| && ShapeKeys(shape)[i] == k;
          assert ShapeKeys(shape[1..])[i - 1] == k;
        }
      }
      1 + Position(shape[1..], k)
  }

  /** How one field is checked. The argument is the input's value under the
      field's key (`None` when the input lacks it); `Success(None)` leaves the
      key out of the output, `Success(Some(v))` sets it to `v`. */
  type FieldParse = (Kind, Option<Json>) -> Result<Option<Json>>

  /** The message of a failed check (zod's own `ZodError` text lists every
      issue; only its kind is kept here). */
  const InvalidType := "ZodError: invalid_type"

  /** The fields of a `ReceiptItem`: every accepted value is kept as it is.
      An item has no nested items, so `ItemsKind` is refused here. */
  function ScalarField(kind: Kind, v: Option<Json>): (r: Result<Option<Json>>)
  {
    match kind
    case StringKind => if v.Some? && v.value.JStr? then Success(v) else Failure(InvalidType)
    case NumberKind => if v.Some? && v.value.JNum? then Success(v) else Failure(InvalidType)
    case OptionalStringKind =>
      if v.None? || v.value.JUndefined? || v.value.JStr? then Success(v) else Failure(InvalidType)
    case UnknownKind => Success(v)
    case StringRecordKind =>
      if v.Some? && v.value.JObj? && forall i :: 0 <= i < |v.value.entries| ==> v.value.entries[i].1.JStr?
      then Success(v) else Failure(InvalidType)
    case ItemsKind => Failure(InvalidType)
  }

  /** The entries `z.object(shape).parse` builds from an object's entries:
      the schema's fields in order, each checked, the first failing check's
      error otherwise. */
  function ParseEntries(shape: Shape, entries: seq<(string, Json)>, field: FieldParse): (r: Result<seq<(string, Json)>>)
    ensures r.Success? <==> forall i :: 0 <= i < |shape| ==> field(shape[i].1, Field(entries, shape[i].0)).Success?
    ensures r.Success? ==> |r.value| <= |shape|
    ensures r.Success? ==> forall p :: 0 <= p < |r.value| ==> r.value[p].0 in ShapeKeys(shape)
  {
    if |shape| == 0 then Success([])
    else
      assert forall i :: 1 <= i < |shape| ==> shape[1..][i - 1] == shape[i];
      assert forall i :: 0 <= i < |shape| - 1 ==> ShapeKeys(shape)[i + 1] == ShapeKeys(shape[1..])[i];
      match field(shape[0].1, Field(entries, shape[0].0))
      case Failure(e) => Failure(e)
      case Success(v) =>
        match ParseEntries(shape[1..], entries, field)
        case Failure(e) => Failure(e)
        case Success(rest) =>
          var head := if v.Some? then [(shape[0].0, v.value)] else [];
          assert forall p :: 0 <= p < |rest| ==> (head + rest)[|head| + p] == rest[p];
          Success(head + rest)
  }

  /** `z.object(shape).parse(j)`: only an object is accepted. */
  function ParseObject(shape: Shape, j: Json, field: FieldParse): (r: Result<Json>)
    ensures r.Success? <==> j.JObj? && forall i :: 0 <= i < |shape| ==> field(shape[i].1, Field(j.entries, shape[i].0)).Success?
    ensures r.Success? ==> r.value.JObj? && |r.value.entries| <= |shape|
  {
    if !j.JObj? then Failure(InvalidType)
    else
      match ParseEntries(shape, j.entries, field)
      case Success(entries) => Success(JObj(entries))
      case Failure(e) => Failure(e)
  }

  /** `ReceiptItem.array().parse` on an array's elements. */
  function ParseItems(items: seq<Json>): (r: Result<seq<Json>>)
    ensures r.Success? ==> |r.value| == |items|
    ensures r.Success? <==> forall i :: 0 <= i < |items| ==> ParseObject(ItemShape, items[i], ScalarField).Success?
  {
    if |items| == 0 then Success([])
    else
      assert forall i :: 1 <= i < |items| ==> items[1..][i - 1] == items[i];
      match ParseObject(ItemShape, items[0], ScalarField)
      case Failure(e) => Failure(e)
      case Success(item) =>
        match ParseItems(items[1..])
        case Failure(e) => Failure(e)
        case Success(rest) => Success([item] + rest)
  }

  /** The fields of a `ReceiptRecord`: the items array element by element,
      the rest as scalars. */
  function RecordField(kind: Kind, v: Option<Json>): (r: Result<Option<Json>>)
  {
    if !kind.ItemsKind? then ScalarField(kind, v)
    else if v.Some? && v.value.JArr? then
      match ParseItems(v.value.items)
      case Success(items) => Success(Some(JArr(items)))
      case Failure(e) => Failure(e)
    else Failure(InvalidType)
  }

  /** `ReceiptRecord.parse(j)`. */
  function ParseRecord(j: Json): (r: Result<Json>)
  {
    ParseObject(RecordShape, j, RecordField)
  }

  // ---------------------------------------------------------------------------
  // What the parse keeps

  /** On entries after a list, a key present among them wins. */
  lemma {:induction false} FieldAppend(a: seq<(string, Json)>, b: seq<(string, Json)>, k: string)
    ensures Field(a + b, k) == if Field(b, k).Some? then Field(b, k) else Field(a, k)
    decreases |b|
  {
    if |b| == 0 {
      assert a + b == a;
    } else {
      assert (a + b)[..|a + b| - 1] == a + b[..|b| - 1];
      FieldAppend(a, b[..|b| - 1], k);
    }
  }

  /** A key none of the entries has is absent. */
  lemma {:induction false} FieldAbsent(entries: seq<(string, Json)>, k: string)
    requires forall p :: 0 <= p < |entries| ==> entries[p].0 != k
    ensures Field(entries, k) == None
    decreases |entries|
  {
    if |entries| > 0 {
      FieldAbsent(entries[..|entries| - 1], k);
    }
  }

  /** The output keys follow the schema's order, so no key occurs twice. */
  lemma {:induction false} ParseEntriesOrder(shape: Shape, entries: seq<(string, Json)>, field: FieldParse)
    requires DistinctShape(shape)
    requires ParseEntries(shape, entries, field).Success?
    ensures var out := ParseEntries(shape, entries, field).value;
            forall p, q :: 0 <= p < q < |out| ==> Position(shape, out[p].0) < Position(shape, out[q].0)
    decreases |shape|
  {
    var out := ParseEntries(shape, entries, field).value;
    if |shape| > 0 {
      var v := field(shape[0].1, Field(entries, shape[0].0)).value;
      var rest := ParseEntries(shape[1..], entries, field).value;
      ParseEntriesOrder(shape[1..], entries, field);
      TailKeys(shape, rest);
      if v.Some? {
        assert out == [(shape[0].0, v.value)] + rest;
      } else {
        assert out == rest;
      }
    }
  }

  /** Entries keyed by the schema's later keys: none has the first key, and
      each sits one place further on in the whole schema. */
  lemma TailKeys(shape: Shape, rest: seq<(string, Json)>)
    requires DistinctShape(shape) && |shape| > 0
    requires forall p :: 0 <= p < |rest| ==> rest[p].0 in ShapeKeys(shape[1..])
    ensures forall p :: 0 <= p < |rest| ==>
              rest[p].0 != shape[0].0 && Position(shape, rest[p].0) == 1 + Position(shape[1..], rest[p].0)
  {
    forall p | 0 <= p < |rest|
      ensures rest[p].0 != shape[0].0
    {
      var i :| 0 <= i < |shape| - 1 && ShapeKeys(shape[1..])[i] == rest[p].0;
      assert shape[i + 1].0 == rest[p].0;
    }
  }

  /** The output holds under each schema key exactly what that key's check
      produced, and nothing where the check left the key out. */
  lemma {:induction false} ParseEntriesValues(shape: Shape, entries: seq<(string, Json)>, field: FieldParse)
    requires DistinctShape(shape)
    requires ParseEntries(shape, entries, field).Success?
    ensures var out := ParseEntries(shape, entries, field).value;
            forall i :: 0 <= i < |shape| ==>
              Field(out, shape[i].0) == field(shape[i].1, Field(entries, shape[i].0)).value
    decreases |shape|
  {
    var out := ParseEntries(shape, entries, field).value;
    if |shape| > 0 {
      var k := shape[0].0;
      var v := field(shape[0].1, Field(entries, k)).value;
      var rest := ParseEntries(shape[1..], entries, field).value;
      var head: seq<(string, Json)> := if v.Some? then [(k, v.value)] else [];
      assert out == head + rest;
      ParseEntriesValues(shape[1..], entries, field);
      TailKeys(shape, rest);
      forall i | 0 <= i < |shape|
        ensures Field(out, shape[i].0) == field(shape[i].1, Field(entries, shape[i].0)).value
      {
        FieldAppend(head, rest, shape[i].0);
        if i == 0 {
          FieldAbsent(rest, k);
          assert head == [] || head[..0] + [head[0]] == head;
        } else {
          assert shape[1..][i - 1] == shape[i];
          assert shape[i].0 != k;
          assert Field(head, shape[i].0) == None by {
            if v.Some? { assert head[..0] == []; }
          }
        }
      }
    }
  }

  /** The parse reads the entries only through the schema's keys. */
  lemma {:induction false} ParseEntriesPointwise(shape: Shape, a: seq<(string, Json)>, b: seq<(string, Json)>, field: FieldParse)
    requires forall i :: 0 <= i < |shape| ==>
               field(shape[i].1, Field(a, shape[i].0)) == field(shape[i].1, Field(b, shape[i].0))
    ensures ParseEntries(shape, a, field) == ParseEntries(shape, b, field)
    decreases |shape|
  {
    if |shape| > 0 {
      assert forall i :: 1 <= i < |shape| ==> shape[1..][i - 1] == shape[i];
      ParseEntriesPointwise(shape[1..], a, b, field);
    }
  }

  /** A field check whose accepted output it accepts again unchanged. */
  ghost predicate Stable(field: FieldParse)
  {
    forall kind, v :: field(kind, v).Success? ==> field(kind, field(kind, v).value) == field(kind, v)
  }

  /** Parsing a parsed object again changes nothing. */
  lemma ParseObjectStable(shape: Shape, j: Json, field: FieldParse)
    requires DistinctShape(shape) && Stable(field)
    requires ParseObject(shape, j, field).Success?
    ensures ParseObject(shape, ParseObject(shape, j, field).value, field) == ParseObject(shape, j, field)
  {
    var out := ParseEntries(shape, j.entries, field).value;
    ParseEntriesValues(shape, j.entries, field);
    ParseEntriesPointwise(shape, out, j.entries, field);
  }

  lemma ScalarFieldStable()
    ensures Stable(ScalarField)
  {
  }

  lemma ItemShapeDistinct()
    ensures DistinctShape(ItemShape)
  {
  }

  lemma RecordShapeDistinct()
    ensures DistinctShape(RecordShape)
  {
  }

  /** Parsed items parse again to themselves. */
  lemma {:induction false} ParseItemsStable(items: seq<Json>)
    requires ParseItems(items).Success?
    ensures ParseItems(ParseItems(items).value) == ParseItems(items)
    decreases |items|
  {
    if |items| > 0 {
      var item := ParseObject(ItemShape, items[0], ScalarField).value;
      var rest := ParseItems(items[1..]).value;
      ItemShapeDistinct();
      ScalarFieldStable();
      ParseObjectStable(ItemShape, items[0], ScalarField);
      ParseItemsStable(items[1..]);
      var again := [item] + rest;
      assert again[0] == item && again[1..] == rest;
    }
  }

  lemma RecordFieldStable()
    ensures Stable(RecordField)
  {
    forall kind, v | RecordField(kind, v).Success?
      ensures RecordField(kind, RecordField(kind, v).value) == RecordField(kind, v)
    {
      if kind.ItemsKind? {
        ParseItemsStable(v.value.items);
      }
    }
  }

  /** `ReceiptRecord.parse` is idempotent: a parsed record is a fixed point. */
  lemma ParseRecordStable(j: Json)
    requires ParseRecord(j).Success?
    ensures ParseRecord(ParseRecord(j).value) == ParseRecord(j)
  {
    RecordShapeDistinct();
    RecordFieldStable();
    ParseObjectStable(RecordShape, j, RecordField);
  }

  /** A parsed record holds only schema keys, each once, in the schema's
      order, with the checked value of the input's key; a key outside the
      schema, such as an answer's `currencyCode`, is dropped. */
  lemma ParseRecordShape(j: Json, extra: string)
    requires ParseRecord(j).Success?
    requires extra !in ShapeKeys(RecordShape)
    ensures ParseRecord(j).value.JObj?
    ensures var out := ParseRecord(j).value.entries;
            && (forall p :: 0 <= p < |out| ==> out[p].0 in ShapeKeys(RecordShape))
            && (forall p, q :: 0 <= p < q < |out| ==> Position(RecordShape, out[p].0) < Position(RecordShape, out[q].0))
            && (forall i :: 0 <= i < |RecordShape| ==>
                  Field(out, RecordShape[i].0) == RecordField(RecordShape[i].1, Field(j.entries, RecordShape[i].0)).value)
            && Field(out, extra) == None
  {
    RecordShapeDistinct();
    ParseEntriesOrder(RecordShape, j.entries, RecordField);
    ParseEntriesValues(RecordShape, j.entries, RecordField);
    FieldAbsent(ParseRecord(j).value.entries, extra);
  }

  /** The two keys the answer in the receipt snapshot carries beyond the
      schema. */
  lemma SnapshotExtrasDropped()
    ensures "currencyCode" !in ShapeKeys(RecordShape) && "classification" !in ShapeKeys(RecordShape)
  {
    assert forall i :: 0 <= i < |RecordShape| ==> ShapeKeys(RecordShape)[i] == RecordShape[i].0;
  }
}
