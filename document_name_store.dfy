/** src/lib/db/store/document-name.ts: the display names of uploads. */
module DocumentNameStore {
  import opened Collections

  /** `storeDocumentName`: upsert into `documentNames` keyed on
      `documentHash`. */
  method StoreDocumentName(db: Db, doc: DocumentName) returns (result: UpdateResult)
    requires db.Valid()
    modifies db`documentNames
    ensures db.Valid()
    ensures db.documentNames == Upsert(old(db.documentNames), doc.documentHash, doc)
    ensures result == UpsertResult(old(db.documentNames), doc.documentHash, doc)
  {
    result := UpsertResult(db.documentNames, doc.documentHash, doc);
    db.documentNames := Upsert(db.documentNames, doc.documentHash, doc);
  }

  /** `getDocumentName`: `find({ documentHash: hash })`, read-only. The result
      is exactly the stored rows with that hash, of which there is at most
      one. */
  method GetDocumentName(db: Db, hash: string) returns (docs: seq<DocumentName>)
    requires db.Valid()
    ensures |docs| <= 1
    ensures forall d :: d in docs <==> d in db.documentNames.Values && d.documentHash == hash
    ensures |docs| == 1 <==> hash in db.documentNames
  {
    docs := Find(db.documentNames, hash);
    FindIsFilter(db.documentNames, (d: DocumentName) => d.documentHash, hash);
  }
}
