/** src/lib/engine/process.ts: the engine pipeline, one document from its
    bytes to a stored receipt. Each stage is announced by a `processing`
    event before it runs; the last event carries the stored entry. */
module EngineProcess {
  import opened Common
  import opened PRetry
  import opened Flat
  import opened Collections
  import opened Platform
  import opened Text
  import OpenAi
  import Translate
  import ReceiptsStore

  /** `ProcessDocumentState`. */
  datatype ProcessEvent = Progress(message: string) | Data(entry: ReceiptEntry)

  /** The progress messages, in the order the stages run. */
  const Stages: seq<string> := ["Analyzing...", "Translating...", "Summarizing...", "Generating embeddings...", "Storing..."]

  /** The progress events of the first `n` stages. */
  function Progressed(stages: seq<string>, n: nat): (r: seq<ProcessEvent>)
    requires n <= |stages|
    ensures |r| == n
    ensures forall i :: 0 <= i < n ==> r[i] == Progress(stages[i])
  {
    seq(n, i requires 0 <= i < n => Progress(stages[i]))
  }

  /** Announcing the next stage extends the progress events by its message. */
  lemma ProgressedSnoc(stages: seq<string>, n: nat)
    requires n < |stages|
    ensures Progressed(stages, n + 1) == Progressed(stages, n) + [Progress(stages[n])]
  {
    assert forall i :: 0 <= i < n ==> Progressed(stages, n + 1)[i] == Progressed(stages, n)[i];
  }

  /** `{ embeddings: [{ embedding }] }`: the first vector of a result; an
      empty list cannot be destructured. */
  function FirstVector(e: OpenAi.Embeddings): (r: Result<Vector>)
    ensures r.Success? <==> |e.embeddings| > 0
    ensures r.Success? ==> r.value == e.embeddings[0].embedding
  {
    if |e.embeddings| == 0 then Failure("Cannot destructure property 'embedding' of undefined")
    else Success(e.embeddings[0].embedding)
  }

  /** The three engine rows: the OCR text under the source language, the
      translation and the flattened receipt under the target language. */
  function Rows(hash: string, sourceLanguage: string, targetLanguage: string,
                texts: seq<string>, vectors: seq<Vector>): (r: seq<EmbeddingRow>)
    requires |texts| == 3 && |vectors| == 3
  {
    [DocumentRow(hash, sourceLanguage, texts[0], vectors[0]),
     DocumentRow(hash, targetLanguage, texts[1], vectors[1]),
     DocumentRow(hash, targetLanguage, texts[2], vectors[2])]
  }

  /** How a run ends: with the error of stage `stage` (1 to 4; the writes of
      stage 5 do not fail in this model), or with the entry and rows it
      stored. */
  datatype PipelineRun = Failed(stage: nat, error: string) | Completed(entry: ReceiptEntry, rows: seq<EmbeddingRow>)

  /** Stage 4 and the entry: the embeddings of the three sources, the first
      vector of each (source first), and the entry and rows built from
      them. */
  function Embedded(client: OpenAi.Client, hash: string, text: string, t: Translate.Translation, receipt: Json): (r: PipelineRun)
  {
    var receiptText := FlatJson(receipt, 0);
    var results := GenerateEmbeddings(client, [text, t.translated, receiptText]);
    if results.Failure? then Failed(4, results.error)
    else
      var v0 := FirstVector(results.value[0]);
      var v1 := FirstVector(results.value[1]);
      var v2 := FirstVector(results.value[2]);
      if v0.Failure? then Failed(4, v0.error)
      else if v1.Failure? then Failed(4, v1.error)
      else if v2.Failure? then Failed(4, v2.error)
      else
        Completed(ReceiptEntry(hash, [t.sourceLanguage, t.targetLanguage], receipt),
                  Rows(hash, t.sourceLanguage, t.targetLanguage, [text, t.translated, receiptText],
                       [v0.value, v1.value, v2.value]))
  }

  /** The run on `buffer`, given the scanned documents before it. */
  function Pipeline(scanned: map<string, ScannedDocument>, svc: Services, buffer: seq<byte>): (r: PipelineRun)
  {
    var hash := svc.sha256(buffer);
    var text := CachedText(scanned, svc, hash, buffer);
    if text.Failure? then Failed(1, text.error)
    else Translated(svc, hash, text.value)
  }

  /** Stages 2 to 4 on the document text. */
  function Translated(svc: Services, hash: string, text: string): (r: PipelineRun)
  {
    var translation := TranslationResult(svc, text);
    if translation.Failure? then Failed(2, translation.error)
    else Summarized(svc.openai, hash, text, translation.value)
  }

  /** Stages 3 and 4 on the document text and its translation. */
  function Summarized(client: OpenAi.Client, hash: string, text: string, t: Translate.Translation): (r: PipelineRun)
  {
    var summary := Outcome(SummaryRun(client, t.translated), SummaryRetries);
    if summary.Failure? then Failed(3, summary.error)
    else Embedded(client, hash, text, t, summary.value)
  }

  /** The embedding collection after upserting `rows` in order. */
  function StoreRows(m: map<(string, string), EmbeddingRow>, rows: seq<EmbeddingRow>): (r: map<(string, string), EmbeddingRow>)
    decreases |rows|
  {
    if |rows| == 0 then m
    else StoreRows(Upsert(m, (rows[0].documentHash, rows[0].languageCode), rows[0]), rows[1..])
  }

  /** Stages 1 to 4 of `processDocumentIterator`: the run up to the writes,
      with the progress events yielded so far. */
  method RunStages(db: Db, svc: Services, buffer: seq<byte>)
    returns (events: seq<ProcessEvent>, run: PipelineRun)
    requires db.Valid()
    modifies db`scannedDocuments
    ensures db.Valid()
    ensures db.scannedDocuments == ScannedAfter(old(db.scannedDocuments), svc, svc.sha256(buffer), buffer)
    ensures run == Pipeline(old(db.scannedDocuments), svc, buffer)
    ensures run.Failed? ==> 1 <= run.stage <= 4 && events == Progressed(Stages, run.stage)
    ensures run.Completed? ==> events == Progressed(Stages, 4)
  {
    var hash := svc.sha256(buffer);

    events := [Progress("Analyzing...")];
    assert events == Progressed(Stages, 1);
    var documentText, _ := GetDocumentText(db, svc, hash, buffer);
    if documentText.Failure? {
      return events, Failed(1, documentText.error);
    }
    events, run := TranslateStages(svc, hash, documentText.value, events);
  }

  /** Stages 2 to 4, after the first progress event. */
  method TranslateStages(svc: Services, hash: string, documentText: string, before: seq<ProcessEvent>)
    returns (events: seq<ProcessEvent>, run: PipelineRun)
    requires before == Progressed(Stages, 1)
    ensures run == Translated(svc, hash, documentText)
    ensures run.Failed? ==> 2 <= run.stage <= 4 && events == Progressed(Stages, run.stage)
    ensures run.Completed? ==> events == Progressed(Stages, 4)
  {
    events := before + [Progress("Translating...")];
    ProgressedSnoc(Stages, 1);
    var translations := GetDocumentTranslations(svc, hash, documentText);
    if translations.Failure? {
      return events, Failed(2, translations.error);
    }
    ghost var t := TranslationResult(svc, documentText).value;
    var translation := Translate.Translation(translations.value.sourceLanguage, translations.value.targetLanguage,
                                             translations.value.translatedText);
    assert translation == t;

    events := events + [Progress("Summarizing...")];
    ProgressedSnoc(Stages, 2);
    var receipt, _, _ := SummarizeDocument(svc, hash, translation.translated);
    if receipt.Failure? {
      return events, Failed(3, receipt.error);
    }

    events := events + [Progress("Generating embeddings...")];
    ProgressedSnoc(Stages, 3);
    run := Embedded(svc.openai, hash, documentText, translation, receipt.value);
  }

  /** Stage 5: the receipt upsert, then one upsert per row, in order. */
  method StoreRun(db: Db, entry: ReceiptEntry, rows: seq<EmbeddingRow>) returns (writes: seq<UpdateResult>)
    requires db.Valid()
    modifies db`receipts, db`receiptEmbedding
    ensures db.Valid()
    ensures |writes| == 1 + |rows|
    ensures writes[0] == UpsertResult(old(db.receipts), entry.documentHash, entry)
    ensures db.receipts == Upsert(old(db.receipts), entry.documentHash, entry)
    ensures db.receiptEmbedding == StoreRows(old(db.receiptEmbedding), rows)
  {
    var w := ReceiptsStore.StoreReceipt(db, entry);
    writes := [w];
    var i := 0;
    while i < |rows|
      invariant i <= |rows|
      invariant db.Valid()
      invariant db.receipts == Upsert(old(db.receipts), entry.documentHash, entry)
      invariant StoreRows(db.receiptEmbedding, rows[i..]) == StoreRows(old(db.receiptEmbedding), rows)
      invariant |writes| == 1 + i && writes[0] == UpsertResult(old(db.receipts), entry.documentHash, entry)
    {
      assert rows[i..][1..] == rows[i + 1..];
      w := ReceiptsStore.StoreReceiptEmbedding(db, rows[i]);
      writes := writes + [w];
      i := i + 1;
    }
  }

  /** `processDocumentIterator(buffer)`. `events` are the yielded events;
      `writes` the results of the four upserts, the receipt first. */
  method ProcessDocumentIterator(db: Db, svc: Services, buffer: seq<byte>)
    returns (events: seq<ProcessEvent>, res: Result<ReceiptEntry>, writes: seq<UpdateResult>)
    requires db.Valid()
    modifies db`receipts, db`receiptEmbedding, db`scannedDocuments
    ensures db.Valid()
    ensures db.scannedDocuments == ScannedAfter(old(db.scannedDocuments), svc, svc.sha256(buffer), buffer)
    ensures var run := Pipeline(old(db.scannedDocuments), svc, buffer);
            && (run.Failed? ==>
                  && 1 <= run.stage <= 4
                  && events == Progressed(Stages, run.stage) && res == Failure(run.error) && writes == []
                  && db.receipts == old(db.receipts) && db.receiptEmbedding == old(db.receiptEmbedding))
            && (run.Completed? ==>
                  && events == Progressed(Stages, 5) + [Data(run.entry)] && res == Success(run.entry)
                  && |writes| == 4
                  && writes[0] == UpsertResult(old(db.receipts), run.entry.documentHash, run.entry)
                  && db.receipts == Upsert(old(db.receipts), run.entry.documentHash, run.entry)
                  && db.receiptEmbedding == StoreRows(old(db.receiptEmbedding), run.rows))
  {
    var run;
    events, run := RunStages(db, svc, buffer);
    if run.Failed? {
      return events, Failure(run.error), [];
    }
    assert |run.rows| == 3;
    events := events + [Progress("Storing...")];
    ProgressedSnoc(Stages, 4);
    writes := StoreRun(db, run.entry, run.rows);
    events := events + [Data(run.entry)];
    res := Success(run.entry);
  }

  /** The data flow of a completed run: the hash of the bytes keys
      everything; translation reads the OCR text, the summary reads the
      translation, the third source is the flattened summary; each row holds
      the first vector of its source, in the order OCR text, translation,
      summary, under the languages source, target, target. */
  lemma CompletedRun(scanned: map<string, ScannedDocument>, svc: Services, buffer: seq<byte>)
    requires Pipeline(scanned, svc, buffer).Completed?
    ensures var run := Pipeline(scanned, svc, buffer);
            var hash := svc.sha256(buffer);
            var text := CachedText(scanned, svc, hash, buffer).value;
            var t := TranslationResult(svc, text).value;
            var receipt := Outcome(SummaryRun(svc.openai, t.translated), SummaryRetries).value;
            var sources := [text, t.translated, FlatJson(receipt, 0)];
            && run.entry == ReceiptEntry(hash, [t.sourceLanguage, t.targetLanguage], receipt)
            && |run.rows| == 3
            && (forall k :: 0 <= k < 3 ==>
                  && run.rows[k].DocumentRow?
                  && run.rows[k].documentHash == hash
                  && run.rows[k].text == sources[k]
                  && |svc.openai.embed(sources[k]).value| > 0
                  && run.rows[k].embedding == svc.openai.embed(sources[k]).value[0].embedding)
            && run.rows[0].languageCode == t.sourceLanguage
            && run.rows[1].languageCode == t.targetLanguage
            && run.rows[2].languageCode == t.targetLanguage
  {
    var hash := svc.sha256(buffer);
    var text := CachedText(scanned, svc, hash, buffer).value;
    var t := TranslationResult(svc, text).value;
    var receipt := Outcome(SummaryRun(svc.openai, t.translated), SummaryRetries).value;
    var sources := [text, t.translated, FlatJson(receipt, 0)];
    var results := GenerateEmbeddings(svc.openai, sources);
    assert forall k :: 0 <= k < 3 ==> OpenAi.CreateEmbeddings(svc.openai, sources[k]) == Success(results.value[k]);
  }

  /** When the OCR text comes back with no embedding item, the run fails, so
      nothing is stored: at the summary stage when the summary fails, and
      otherwise at the embedding stage, where the destructuring throws. */
  lemma EmptyEmbeddingFails(scanned: map<string, ScannedDocument>, svc: Services, buffer: seq<byte>, source: string)
    requires svc.openai.embed(source) == Success([])
    requires var hash := svc.sha256(buffer);
             var text := CachedText(scanned, svc, hash, buffer);
             && text.Success? && TranslationResult(svc, text.value).Success?
             && source == text.value
    ensures Pipeline(scanned, svc, buffer).Failed?
    ensures Pipeline(scanned, svc, buffer).stage >= 3
    ensures var text := CachedText(scanned, svc, svc.sha256(buffer), buffer);
            var t := TranslationResult(svc, text.value).value;
            Pipeline(scanned, svc, buffer).stage
            == if Outcome(SummaryRun(svc.openai, t.translated), SummaryRetries).Success? then 4 else 3
  {
  }

  lemma StoreThreeRows(m: map<(string, string), EmbeddingRow>, rows: seq<EmbeddingRow>)
    requires |rows| == 3
    ensures StoreRows(m, rows)
         == Upsert(Upsert(Upsert(m, (rows[0].documentHash, rows[0].languageCode), rows[0]),
                          (rows[1].documentHash, rows[1].languageCode), rows[1]),
                   (rows[2].documentHash, rows[2].languageCode), rows[2])
  {
    var m1 := Upsert(m, (rows[0].documentHash, rows[0].languageCode), rows[0]);
    var m2 := Upsert(m1, (rows[1].documentHash, rows[1].languageCode), rows[1]);
    var m3 := Upsert(m2, (rows[2].documentHash, rows[2].languageCode), rows[2]);
    assert rows[1..][0] == rows[1] && rows[1..][1..] == rows[2..];
    assert rows[2..][0] == rows[2] && rows[2..][1..] == [];
    calc {
      StoreRows(m, rows);
      StoreRows(m1, rows[1..]);
      StoreRows(m2, rows[2..]);
      StoreRows(m3, []);
    }
  }

  /** The three rows leave two rows for the document, one per language, and
      only one when source and target languages agree; the later write under
      the target language, the summary, is the one kept. Every row under
      another key, this document's rows in other languages included, is
      untouched. */
  lemma StoredRowsSurvive(m: map<(string, string), EmbeddingRow>, hash: string, sourceLanguage: string,
                          targetLanguage: string, texts: seq<string>, vectors: seq<Vector>)
    requires |texts| == 3 && |vectors| == 3
    ensures var rows := Rows(hash, sourceLanguage, targetLanguage, texts, vectors);
            var r := StoreRows(m, rows);
            && r.Keys == m.Keys + {(hash, sourceLanguage), (hash, targetLanguage)}
            && r[(hash, targetLanguage)] == rows[2]
            && (sourceLanguage != targetLanguage ==> r[(hash, sourceLanguage)] == rows[0])
            && (forall k :: k in m && k != (hash, sourceLanguage) && k != (hash, targetLanguage) ==> r[k] == m[k])
  {
    var rows := Rows(hash, sourceLanguage, targetLanguage, texts, vectors);
    StoreThreeRows(m, rows);
  }

  /** What one run adds to the embedding collection: at most two new rows,
      one when source and target languages agree, and no row changes but
      the document's rows under those two languages. */
  lemma SurvivingRowCount(m: map<(string, string), EmbeddingRow>, hash: string, sourceLanguage: string,
                          targetLanguage: string, texts: seq<string>, vectors: seq<Vector>)
    requires |texts| == 3 && |vectors| == 3
    ensures var r := StoreRows(m, Rows(hash, sourceLanguage, targetLanguage, texts, vectors));
            && |r.Keys - m.Keys| <= (if sourceLanguage == targetLanguage then 1 else 2)
            && (forall k :: k in r && (k !in m || r[k] != m[k]) ==> k == (hash, sourceLanguage) || k == (hash, targetLanguage))
  {
    var r := StoreRows(m, Rows(hash, sourceLanguage, targetLanguage, texts, vectors));
    StoredRowsSurvive(m, hash, sourceLanguage, targetLanguage, texts, vectors);
    DocumentFrame(m, r, hash, sourceLanguage, targetLanguage);
  }

  lemma DocumentFrame<H, V>(m: map<(H, H), V>, r: map<(H, H), V>, hash: H, sourceLanguage: H, targetLanguage: H)
    requires r.Keys == m.Keys + {(hash, sourceLanguage), (hash, targetLanguage)}
    requires forall k :: k in m && k != (hash, sourceLanguage) && k != (hash, targetLanguage) ==> r[k] == m[k]
    ensures |r.Keys - m.Keys| <= (if sourceLanguage == targetLanguage then 1 else 2)
    ensures forall k :: k in r && (k !in m || r[k] != m[k]) ==> k == (hash, sourceLanguage) || k == (hash, targetLanguage)
  {
    var a, b := (hash, sourceLanguage), (hash, targetLanguage);
    if sourceLanguage == targetLanguage {
      assert a == b;
    } else {
      assert a.1 != b.1;
    }
    PairFrame(m, r, a, b);
  }

  /** A collection that grew by the keys `a` and `b` and kept every other row
      gained at most those two rows and changed no other. */
  lemma PairFrame<K, V>(m: map<K, V>, r: map<K, V>, a: K, b: K)
    requires r.Keys == m.Keys + {a, b}
    requires forall k :: k in m && k != a && k != b ==> r[k] == m[k]
    ensures |r.Keys - m.Keys| <= (if a == b then 1 else 2)
    ensures forall k :: k in r && (k !in m || r[k] != m[k]) ==> k == a || k == b
  {
    assert r.Keys - m.Keys <= {a, b};
    SubsetCard(r.Keys - m.Keys, {a, b});
    PairSize(a, b);
  }

  lemma PairSize<K>(a: K, b: K)
    ensures |{a, b}| == if a == b then 1 else 2
  {
    if a == b {
      assert {a, b} == {a};
    }
  }

  lemma SubsetCard<T>(a: set<T>, b: set<T>)
    requires a <= b
    ensures |a| <= |b|
  {
    assert b == a + (b - a);
  }

  /** On success there is exactly one `data` event, the last, after the five
      progress messages. */
  lemma EventsOrder(entry: ReceiptEntry)
    ensures var ev := Progressed(Stages, 5) + [Data(entry)];
            && |ev| == 6
            && ev[0] == Progress("Analyzing...") && ev[1] == Progress("Translating...")
            && ev[2] == Progress("Summarizing...") && ev[3] == Progress("Generating embeddings...")
            && ev[4] == Progress("Storing...")
            && (forall k :: 0 <= k < |ev| ==> (ev[k].Data? <==> k == 5))
  {
  }
}
