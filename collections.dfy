/** The four MongoDB collections of the `receipt-scanner` database
    (src/lib/db/schema/index.ts) and the keyed upsert every store function
    performs on them: `updateOne(filter, { $set: row }, { upsert: true })`.

    Each collection is a map from the row's natural key (the fields of the
    upsert filter) to the row. Because every write is an upsert on that key, a
    collection never holds two rows for one key; the map states that by
    construction, and `Keyed` states that a row sits under its own key. */
module Collections {
  import opened Common
  import opened Flat

  /** An embedding vector, as the embeddings service returns it. */
  type Vector = seq<real>

  /** One element of `response.data` of the embeddings endpoint. */
  datatype EmbeddingItem = EmbeddingItem(embedding: Vector, index: nat)

  /** `Schema.Receipt.Entry`: a receipt summary under its document hash. The
      receipt record is held as the value `flatJson` renders. */
  datatype ReceiptEntry = ReceiptEntry(documentHash: string, languageCodes: seq<string>, receipt: Json)

  /** A row of `receiptEmbedding`. `DocumentRow` is the row the engine
      pipeline builds (src/lib/engine/process.ts:83-89, with `type:
      "document"`); `LegacyRow` is the row of the older pipeline
      (src/lib/doc/process.ts:152-164), whose text is the list of block texts
      and whose embeddings are the whole list of items the service
      returned. */
  datatype EmbeddingRow =
    | DocumentRow(documentHash: string, languageCode: string, text: string, embedding: Vector)
    | LegacyRow(documentHash: string, languageCode: string, lines: seq<string>, embeddings: seq<EmbeddingItem>)

  /** The `type` field of an engine row. */
  const DocumentType := "document"

  datatype ScannedDocument = ScannedDocument(documentHash: string, text: string)

  datatype DocumentName = DocumentName(documentHash: string, name: string)

  /** What `updateOne` reports. */
  datatype UpdateResult = UpdateResult(matchedCount: nat, modifiedCount: nat, upsertedCount: nat)

  /** A unique index declared with `createIndex(fields, { unique: true })`. */
  datatype UniqueIndex = UniqueIndex(collection: string, fields: seq<string>)

  /** The database; its fields are the collections the store functions update
      in place. */
  class Db {
    var receipts: map<string, ReceiptEntry>
    var receiptEmbedding: map<(string, string), EmbeddingRow>
    var scannedDocuments: map<string, ScannedDocument>
    var documentNames: map<string, DocumentName>
    var uniqueIndexes: set<UniqueIndex>

    /** Every row sits under the key its own fields give. */
    ghost predicate Valid()
      reads this
    {
      Keyed(receipts, (e: ReceiptEntry) => e.documentHash)
      && Keyed(receiptEmbedding, (r: EmbeddingRow) => (r.documentHash, r.languageCode))
      && Keyed(scannedDocuments, (d: ScannedDocument) => d.documentHash)
      && Keyed(documentNames, (d: DocumentName) => d.documentHash)
    }

    /** An empty database. */
    constructor()
      ensures Valid()
      ensures receipts == map[] && receiptEmbedding == map[]
      ensures scannedDocuments == map[] && documentNames == map[]
      ensures uniqueIndexes == {}
    {
      receipts := map[];
      receiptEmbedding := map[];
      scannedDocuments := map[];
      documentNames := map[];
      uniqueIndexes := {};
    }
  }

  /** Every row of `m` is stored under `key` of itself. */
  ghost predicate Keyed<K, V>(m: map<K, V>, key: V -> K)
  {
    forall k :: k in m ==> key(m[k]) == k
  }

  /** The collection after `updateOne({key}, {$set: row}, {upsert: true})`:
      the row replaces the one under its key, or is inserted when there is
      none. `$set` merges the row's fields into the stored document; that is
      replacement wherever the stored row has no field the new one lacks,
      which the two row shapes of `receiptEmbedding` do not guarantee. */
  function Upsert<K, V>(m: map<K, V>, k: K, row: V): (r: map<K, V>)
    ensures k in r && r[k] == row
    ensures r.Keys == m.Keys + {k}
    ensures forall k' :: k' in m && k' != k ==> r[k'] == m[k']
  {
    m[k := row]
  }

  /** The counts `updateOne` reports for that upsert: one row matched (and
      modified unless it already held the same fields) or one row inserted. */
  function UpsertResult<K, V(==)>(m: map<K, V>, k: K, row: V): (r: UpdateResult)
    ensures r.matchedCount + r.upsertedCount == 1
    ensures r.upsertedCount == 1 <==> k !in m
    ensures r.modifiedCount == 1 <==> k in m && m[k] != row
  {
    if k !in m then UpdateResult(0, 0, 1)
    else UpdateResult(1, if m[k] == row then 0 else 1, 0)
  }

  /** `find({key: k}).toArray()`. */
  function Find<K, V>(m: map<K, V>, k: K): seq<V>
  {
    if k in m then [m[k]] else []
  }

  /** On a collection whose rows sit under their keys, `Find` returns exactly
      the rows whose key field equals `k`, and at most one. */
  lemma FindIsFilter<K, V>(m: map<K, V>, key: V -> K, k: K)
    requires Keyed(m, key)
    ensures |Find(m, k)| <= 1
    ensures forall v :: v in Find(m, k) <==> v in m.Values && key(v) == k
  {
    forall v | v in m.Values && key(v) == k
      ensures v in Find(m, k)
    {
      var k' :| k' in m && m[k'] == v;
      assert k' == k;
    }
  }

  /** Upserting a row under its own key keeps the collection keyed. */
  lemma UpsertKeyed<K, V>(m: map<K, V>, key: V -> K, row: V)
    requires Keyed(m, key)
    ensures Keyed(Upsert(m, key(row), row), key)
  {
  }

  /** Storing the same row twice leaves the collection as storing it once, and
      the second write reports no modification. */
  lemma UpsertIdempotent<K, V>(m: map<K, V>, k: K, row: V)
    ensures Upsert(Upsert(m, k, row), k, row) == Upsert(m, k, row)
    ensures UpsertResult(Upsert(m, k, row), k, row) == UpdateResult(1, 0, 0)
  {
  }

  /** Upserts under different keys commute; under one key the later wins. */
  lemma UpsertOrder<K, V>(m: map<K, V>, k1: K, v1: V, k2: K, v2: V)
    ensures k1 != k2 ==> Upsert(Upsert(m, k1, v1), k2, v2) == Upsert(Upsert(m, k2, v2), k1, v1)
    ensures k1 == k2 ==> Upsert(Upsert(m, k1, v1), k2, v2) == Upsert(m, k2, v2)
  {
  }

  /** After storing a row, finding its key returns that row alone. */
  lemma StoredThenFound<K, V>(m: map<K, V>, k: K, row: V)
    ensures Find(Upsert(m, k, row), k) == [row]
  {
  }
}
