/** src/lib/doc/process.ts: the older pipeline. It reads the document with
    the synchronous analysis only, translates the list of block texts as a
    list, and stores the row of block texts and the row of their
    translations. */
module LegacyProcess {
  import opened Common
  import opened PRetry
  import opened Flat
  import opened Collections
  import opened Text
  import opened EngineProcess
  import Textract
  import OpenAi
  import LegacyStore

  /** The response to translating a list of texts, as this pipeline reads
      it: `TranslatedText` is taken to be a list like its input. */
  datatype LinesResponse = LinesResponse(translated: Option<seq<string>>, sourceLanguageCode: Option<string>,
                                         targetLanguageCode: Option<string>)

  datatype LinesTranslation = LinesTranslation(sourceLanguage: string, targetLanguage: string, translated: seq<string>)

  /** The services this pipeline reaches. */
  datatype Services = Services(
    textract: Textract.Service,
    translateLines: seq<string> -> Result<LinesResponse>,
    openai: OpenAi.Client,
    sha256: seq<byte> -> string)

  /** `translateText(translate, document_text)` on the list of block texts,
      with the defaults of `translateText`: the input itself, `"unknown"`,
      `"en"`. */
  function TranslateLines(svc: Services, lines: seq<string>): (r: Result<LinesTranslation>)
    ensures svc.translateLines(lines).Failure? <==> r.Failure?
    ensures r.Success? ==>
              var response := svc.translateLines(lines).value;
              && r.value.translated == (if response.translated.Some? then response.translated.value else lines)
              && r.value.sourceLanguage == (if response.sourceLanguageCode.Some? then response.sourceLanguageCode.value else "unknown")
              && r.value.targetLanguage == (if response.targetLanguageCode.Some? then response.targetLanguageCode.value else "en")
  {
    match svc.translateLines(lines)
    case Failure(e) => Failure(e)
    case Success(response) =>
      Success(LinesTranslation(
        if response.sourceLanguageCode.Some? then response.sourceLanguageCode.value else "unknown",
        if response.targetLanguageCode.Some? then response.targetLanguageCode.value else "en",
        if response.translated.Some? then response.translated.value else lines))
  }

  /** The summary of the translated lines, joined by newlines, under three
      retries. */
  function Summary(svc: Services, translated: seq<string>): (r: Result<Json>)
  {
    Outcome(SummaryRun(svc.openai, Join(translated, "\n")), SummaryRetries)
  }

  /** `processDocument(buffer)`: the entry and the source-language row, or the
      first error. Nothing is stored. */
  function ProcessDocument(svc: Services, buffer: seq<byte>): (r: Result<(ReceiptEntry, EmbeddingRow)>)
  {
    var hash := svc.sha256(buffer);
    var document := Textract.AnalyzeDocument(svc.textract, buffer);
    if document.Failure? then Failure(document.error)
    else
      var documentText := BlockTexts(document.value);
      var translation := TranslateLines(svc, documentText);
      if translation.Failure? then Failure(translation.error)
      else
        var t := translation.value;
        var source := svc.openai.embedLines(documentText);
        var target := svc.openai.embedLines(t.translated);
        if source.Failure? then Failure(source.error)
        else if target.Failure? then Failure(target.error)
        else
          var record := Summary(svc, t.translated);
          if record.Failure? then Failure(record.error)
          else
            Success((ReceiptEntry(hash, [t.sourceLanguage, t.targetLanguage], record.value),
                     LegacyRow(hash, t.sourceLanguage, documentText, source.value)))
  }

  /** The progress messages of this pipeline: embeddings before the
      summary. */
  const LegacyStages: seq<string> := ["Analyzing...", "Translating...", "Generating embeddings...", "Summarizing...", "Storing..."]

  /** The run of `processDocumentIterator(buffer)`: the error of stage 1 to 4,
      or the entry and the two rows. */
  function Pipeline(svc: Services, buffer: seq<byte>): (r: PipelineRun)
  {
    var hash := svc.sha256(buffer);
    var document := Textract.AnalyzeDocument(svc.textract, buffer);
    if document.Failure? then Failed(1, document.error)
    else
      var documentText := BlockTexts(document.value);
      var translation := TranslateLines(svc, documentText);
      if translation.Failure? then Failed(2, translation.error)
      else
        var t := translation.value;
        var source := svc.openai.embedLines(documentText);
        var target := svc.openai.embedLines(t.translated);
        if source.Failure? then Failed(3, source.error)
        else if target.Failure? then Failed(3, target.error)
        else
          var receipt := Summary(svc, t.translated);
          if receipt.Failure? then Failed(4, receipt.error)
          else
            Completed(ReceiptEntry(hash, [t.sourceLanguage, t.targetLanguage], receipt.value),
                      [LegacyRow(hash, t.sourceLanguage, documentText, source.value),
                       LegacyRow(hash, t.targetLanguage, t.translated, target.value)])
  }

  /** Both functions compute the same entry: `processDocument` succeeds
      exactly when the iterator reaches its writes, and returns the entry and
      the first of the iterator's two rows. */
  lemma ProcessDocumentAgrees(svc: Services, buffer: seq<byte>)
    ensures ProcessDocument(svc, buffer).Success? <==> Pipeline(svc, buffer).Completed?
    ensures Pipeline(svc, buffer).Completed? ==>
              && ProcessDocument(svc, buffer).value.0 == Pipeline(svc, buffer).entry
              && ProcessDocument(svc, buffer).value.1 == Pipeline(svc, buffer).rows[0]
    ensures Pipeline(svc, buffer).Failed? ==> ProcessDocument(svc, buffer).error == Pipeline(svc, buffer).error
  {
  }

  /** The data flow of a completed run: the block texts (none without
      Blocks) go to the translation and the source row; the translated lines,
      joined by newlines, to the summary and the target row; the entry has
      the hash of the bytes and both languages. */
  lemma CompletedRun(svc: Services, buffer: seq<byte>)
    requires Pipeline(svc, buffer).Completed?
    ensures var run := Pipeline(svc, buffer);
            var hash := svc.sha256(buffer);
            var document := Textract.AnalyzeDocument(svc.textract, buffer).value;
            var lines := BlockTexts(document);
            var t := TranslateLines(svc, lines).value;
            && (document.blocks.None? ==> lines == [])
            && run.entry == ReceiptEntry(hash, [t.sourceLanguage, t.targetLanguage], Summary(svc, t.translated).value)
            && Summary(svc, t.translated) == Outcome(SummaryRun(svc.openai, Join(t.translated, "\n")), SummaryRetries)
            && run.rows == [LegacyRow(hash, t.sourceLanguage, lines, svc.openai.embedLines(lines).value),
                            LegacyRow(hash, t.targetLanguage, t.translated, svc.openai.embedLines(t.translated).value)]
  {
  }

  /** Stages 1 to 4 of `processDocumentIterator`, with the progress events
      yielded so far. */
  method RunStages(svc: Services, buffer: seq<byte>) returns (events: seq<ProcessEvent>, run: PipelineRun)
    ensures run == Pipeline(svc, buffer)
    ensures run.Failed? ==> 1 <= run.stage <= 4 && events == Progressed(LegacyStages, run.stage)
    ensures run.Completed? ==> events == Progressed(LegacyStages, 4)
  {
    var hash := svc.sha256(buffer);

    events := [Progress("Analyzing...")];
    assert events == Progressed(LegacyStages, 1);
    var document := Textract.AnalyzeDocument(svc.textract, buffer);
    if document.Failure? {
      return events, Failed(1, document.error);
    }
    var documentText := BlockTexts(document.value);

    events := events + [Progress("Translating...")];
    ProgressedSnoc(LegacyStages, 1);
    var translation := TranslateLines(svc, documentText);
    if translation.Failure? {
      return events, Failed(2, translation.error);
    }
    var translated := translation.value.translated;

    events := events + [Progress("Generating embeddings...")];
    ProgressedSnoc(LegacyStages, 2);
    var source := svc.openai.embedLines(documentText);
    var target := svc.openai.embedLines(translated);
    if source.Failure? {
      return events, Failed(3, source.error);
    }
    if target.Failure? {
      return events, Failed(3, target.error);
    }

    events := events + [Progress("Summarizing...")];
    ProgressedSnoc(LegacyStages, 3);
    var receipt, _, _ := Retry(SummaryRun(svc.openai, Join(translated, "\n")), SummaryRetries);
    if receipt.Failure? {
      return events, Failed(4, receipt.error);
    }

    var entry := ReceiptEntry(hash, [translation.value.sourceLanguage, translation.value.targetLanguage], receipt.value);
    var sourceEmbeddings := LegacyRow(hash, translation.value.sourceLanguage, documentText, source.value);
    var targetEmbeddings := LegacyRow(hash, translation.value.targetLanguage, translated, target.value);
    run := Completed(entry, [sourceEmbeddings, targetEmbeddings]);
  }

  /** `processDocumentIterator(buffer)` of this pipeline: three writes through
      the older store functions, each declaring its unique index first. */
  method ProcessDocumentIterator(db: Db, svc: Services, buffer: seq<byte>)
    returns (events: seq<ProcessEvent>, res: Result<ReceiptEntry>, writes: seq<UpdateResult>)
    requires db.Valid()
    modifies db`receipts, db`receiptEmbedding, db`uniqueIndexes
    ensures db.Valid()
    ensures var run := Pipeline(svc, buffer);
            && (run.Failed? ==>
                  && events == Progressed(LegacyStages, run.stage) && res == Failure(run.error) && writes == []
                  && db.receipts == old(db.receipts) && db.receiptEmbedding == old(db.receiptEmbedding)
                  && db.uniqueIndexes == old(db.uniqueIndexes))
            && (run.Completed? ==>
                  && events == Progressed(LegacyStages, 5) + [Data(run.entry)] && res == Success(run.entry)
                  && |writes| == 3
                  && db.uniqueIndexes == old(db.uniqueIndexes) + {LegacyStore.ReceiptsIndex, LegacyStore.EmbeddingIndex}
                  && db.receipts == Upsert(old(db.receipts), run.entry.documentHash, run.entry)
                  && db.receiptEmbedding == StoreRows(old(db.receiptEmbedding), run.rows))
  {
    var run;
    events, run := RunStages(svc, buffer);
    if run.Failed? {
      return events, Failure(run.error), [];
    }
    events := events + [Progress("Storing...")];
    ProgressedSnoc(LegacyStages, 4);
    ghost var embeddingsBefore := db.receiptEmbedding;
    var w0 := LegacyStore.StoreReceipt(db, run.entry);
    var w1 := LegacyStore.StoreReceiptEmbedding(db, run.rows[0]);
    var w2 := LegacyStore.StoreReceiptEmbedding(db, run.rows[1]);
    writes := [w0, w1, w2];
    assert run.rows[1..][1..] == [];
    assert StoreRows(embeddingsBefore, run.rows) == StoreRows(db.receiptEmbedding, run.rows[2..]);
    events := events + [Data(run.entry)];
    res := Success(run.entry);
  }

  /** The two rows are kept apart exactly when the languages differ; with
      equal languages the translated row, written last, replaces the block
      text row. Every row under another key is untouched. */
  lemma LegacyRowsSurvive(m: map<(string, string), EmbeddingRow>, rows: seq<EmbeddingRow>)
    requires |rows| == 2 && rows[0].documentHash == rows[1].documentHash
    ensures var r := StoreRows(m, rows);
            var h := rows[0].documentHash;
            && r.Keys == m.Keys + {(h, rows[0].languageCode), (h, rows[1].languageCode)}
            && r[(h, rows[1].languageCode)] == rows[1]
            && (rows[0].languageCode != rows[1].languageCode ==> r[(h, rows[0].languageCode)] == rows[0])
            && (forall k :: k in m && k != (h, rows[0].languageCode) && k != (h, rows[1].languageCode) ==> r[k] == m[k])
  {
    var h := rows[0].documentHash;
    var m1 := Upsert(m, (h, rows[0].languageCode), rows[0]);
    var m2 := Upsert(m1, (h, rows[1].languageCode), rows[1]);
    assert rows[1..][0] == rows[1] && rows[1..][1..] == [];
    calc {
      StoreRows(m, rows);
      StoreRows(m1, rows[1..]);
      StoreRows(m2, []);
    }
  }

  /** On success the progress events run in this pipeline's order, the
      embeddings before the summary, and the `data` event is the only one
      after them. */
  lemma EventsOrder(entry: ReceiptEntry)
    ensures var ev := Progressed(LegacyStages, 5) + [Data(entry)];
            && |ev| == 6
            && ev[0] == Progress("Analyzing...") && ev[1] == Progress("Translating...")
            && ev[2] == Progress("Generating embeddings...") && ev[3] == Progress("Summarizing...")
            && ev[4] == Progress("Storing...")
            && (forall k :: 0 <= k < |ev| ==> (ev[k].Data? <==> k == 5))
  {
  }
}
