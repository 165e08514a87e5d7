/** src/lib/db/store/scanned-document.ts: the OCR text cache. */
module ScannedDocumentStore {
  import opened Collections

  /** `storeScannedDocument`: upsert into `scannedDocuments` keyed on
      `documentHash`. */
  method StoreScannedDocument(db: Db, doc: ScannedDocument) returns (result: UpdateResult)
    requires db.Valid()
    modifies db`scannedDocuments
    ensures db.Valid()
    ensures db.scannedDocuments == Upsert(old(db.scannedDocuments), doc.documentHash, doc)
    ensures result == UpsertResult(old(db.scannedDocuments), doc.documentHash, doc)
  {
    result := UpsertResult(db.scannedDocuments, doc.documentHash, doc);
    db.scannedDocuments := Upsert(db.scannedDocuments, doc.documentHash, doc);
  }

  /** `getScannedDocuments`: `find({ documentHash: hash })`, read-only. The
      result is exactly the stored rows with that hash, of which there is at
      most one. */
  method GetScannedDocuments(db: Db, hash: string) returns (docs: seq<ScannedDocument>)
    requires db.Valid()
    ensures |docs| <= 1
    ensures forall d :: d in docs <==> d in db.scannedDocuments.Values && d.documentHash == hash
    ensures |docs| == 1 <==> hash in db.scannedDocuments
  {
    docs := Find(db.scannedDocuments, hash);
    FindIsFilter(db.scannedDocuments, (d: ScannedDocument) => d.documentHash, hash);
  }
}
