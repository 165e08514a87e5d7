/** src/lib/db/store/receipts.ts: the two upserts of the engine pipeline. */
module ReceiptsStore {
  import opened Collections

  /** `storeReceipt`: upsert into `receipts` keyed on `documentHash`. Inserts
      when the hash is absent, otherwise replaces that row; other rows and
      collections are untouched. */
  method StoreReceipt(db: Db, receipt: ReceiptEntry) returns (result: UpdateResult)
    requires db.Valid()
    modifies db`receipts
    ensures db.Valid()
    ensures db.receipts == Upsert(old(db.receipts), receipt.documentHash, receipt)
    ensures result == UpsertResult(old(db.receipts), receipt.documentHash, receipt)
  {
    result := UpsertResult(db.receipts, receipt.documentHash, receipt);
    db.receipts := Upsert(db.receipts, receipt.documentHash, receipt);
  }

  /** `storeReceiptEmbedding`: upsert into `receiptEmbedding` keyed on
      (`documentHash`, `languageCode`). The same pair overwrites; another
      language code for the same hash is another row. */
  method StoreReceiptEmbedding(db: Db, row: EmbeddingRow) returns (result: UpdateResult)
    requires db.Valid()
    modifies db`receiptEmbedding
    ensures db.Valid()
    ensures db.receiptEmbedding == Upsert(old(db.receiptEmbedding), (row.documentHash, row.languageCode), row)
    ensures result == UpsertResult(old(db.receiptEmbedding), (row.documentHash, row.languageCode), row)
  {
    result := UpsertResult(db.receiptEmbedding, (row.documentHash, row.languageCode), row);
    db.receiptEmbedding := Upsert(db.receiptEmbedding, (row.documentHash, row.languageCode), row);
  }
}
