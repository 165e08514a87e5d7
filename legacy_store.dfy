/** src/lib/store.ts: the older store functions, which declare a unique index
    on the upsert key before each write. */
module LegacyStore {
  import opened Collections

  const ReceiptsIndex := UniqueIndex("receipts", ["documentHash"])
  const EmbeddingIndex := UniqueIndex("receiptEmbedding", ["documentHash", "languageCode"])

  /** `storeReceipt`: declares the unique index on `documentHash`, then upserts
      keyed on `documentHash` and returns the upsert's result. */
  method StoreReceipt(db: Db, receipt: ReceiptEntry) returns (result: UpdateResult)
    requires db.Valid()
    modifies db`uniqueIndexes, db`receipts
    ensures db.Valid()
    ensures db.uniqueIndexes == old(db.uniqueIndexes) + {ReceiptsIndex}
    ensures db.receipts == Upsert(old(db.receipts), receipt.documentHash, receipt)
    ensures result == UpsertResult(old(db.receipts), receipt.documentHash, receipt)
  {
    db.uniqueIndexes := db.uniqueIndexes + {ReceiptsIndex};
    result := UpsertResult(db.receipts, receipt.documentHash, receipt);
    db.receipts := Upsert(db.receipts, receipt.documentHash, receipt);
  }

  /** `storeReceiptEmbedding`: declares the unique composite index on
      (`documentHash`, `languageCode`), then upserts keyed on that pair and
      returns the upsert's result. */
  method StoreReceiptEmbedding(db: Db, row: EmbeddingRow) returns (result: UpdateResult)
    requires db.Valid()
    modifies db`uniqueIndexes, db`receiptEmbedding
    ensures db.Valid()
    ensures db.uniqueIndexes == old(db.uniqueIndexes) + {EmbeddingIndex}
    ensures db.receiptEmbedding == Upsert(old(db.receiptEmbedding), (row.documentHash, row.languageCode), row)
    ensures result == UpsertResult(old(db.receiptEmbedding), (row.documentHash, row.languageCode), row)
  {
    db.uniqueIndexes := db.uniqueIndexes + {EmbeddingIndex};
    result := UpsertResult(db.receiptEmbedding, (row.documentHash, row.languageCode), row);
    db.receiptEmbedding := Upsert(db.receiptEmbedding, (row.documentHash, row.languageCode), row);
  }
}
