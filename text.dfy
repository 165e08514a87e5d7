/** src/lib/engine/text.ts: the stages of the engine pipeline that turn a
    document into text, an English translation, a receipt summary and
    embeddings. */
module Text {
  import opened Common
  import opened PRetry
  import opened Flat
  import opened Collections
  import opened Platform
  import Textract
  import Translate
  import OpenAi
  import ReceiptSchema
  import ScannedDocumentStore

  // ---------------------------------------------------------------------------
  // OCR text

  /** `blocks.map(b => b.Text).filter(x => typeof x === "string")`: the texts
      of the blocks that have one, in block order. */
  function StringTexts(blocks: seq<Textract.Block>): (r: seq<string>)
    ensures |r| <= |blocks|
    ensures forall t :: t in r <==> exists i :: 0 <= i < |blocks| && blocks[i].text == Some(t)
  {
    if |blocks| == 0 then []
    else
      var rest := StringTexts(blocks[1..]);
      assert forall t :: (exists i :: 0 <= i < |blocks| - 1 && blocks[1..][i].text == Some(t))
                     <==> (exists i :: 1 <= i < |blocks| && blocks[i].text == Some(t)) by {
        forall t | exists i :: 1 <= i < |blocks| && blocks[i].text == Some(t)
          ensures exists i :: 0 <= i < |blocks| - 1 && blocks[1..][i].text == Some(t)
        {
          var i :| 1 <= i < |blocks| && blocks[i].text == Some(t);
          assert blocks[1..][i - 1] == blocks[i];
        }
      }
      match blocks[0].text
      case Some(t) => [t] + rest
      case None => rest
  }

  /** The filter keeps block order: filtering a concatenation concatenates the
      filtered parts. */
  lemma {:induction false} StringTextsAppend(a: seq<Textract.Block>, b: seq<Textract.Block>)
    ensures StringTexts(a + b) == StringTexts(a) + StringTexts(b)
  {
    if |a| > 0 {
      assert (a + b)[0] == a[0];
      assert (a + b)[1..] == a[1..] + b;
      StringTextsAppend(a[1..], b);
    } else {
      assert a + b == b;
    }
  }

  /** The block texts of an analysis, or none when it has no `Blocks`. */
  function BlockTexts(analysis: Textract.Analysis): (r: seq<string>)
  {
    match analysis.blocks
    case None => []
    case Some(blocks) => StringTexts(blocks)
  }

  /** The document text: the block texts joined by newlines. */
  function DocumentText(analysis: Textract.Analysis): (r: string)
    ensures analysis.blocks.None? ==> r == ""
  {
    Join(BlockTexts(analysis), "\n")
  }

  function TextOf(analysis: Result<Textract.Analysis>): Result<string>
  {
    match analysis
    case Success(a) => Success(DocumentText(a))
    case Failure(e) => Failure(e)
  }

  /** What `resolveDocumentText` returns or throws: the text of the
      synchronous analysis, or, only when that call throws, of the
      asynchronous job. */
  function ResolvedText(svc: Services, buffer: seq<byte>): Result<string>
  {
    var sync := Textract.AnalyzeDocument(svc.textract, buffer);
    if sync.Success? then Success(DocumentText(sync.value))
    else TextOf(Textract.AnalysisJobResult(svc.textract, svc.s3, svc.env.bucketName, svc.sha256, buffer))
  }

  /** `resolveDocumentText`. `asyncCalls` are the calls of the asynchronous
      wrapper, which runs only when the synchronous call throws. */
  method ResolveDocumentText(svc: Services, buffer: seq<byte>)
    returns (res: Result<string>, asyncCalls: seq<Textract.Call>)
    ensures res == ResolvedText(svc, buffer)
    ensures Textract.AnalyzeDocument(svc.textract, buffer).Success? <==> asyncCalls == []
  {
    var document := Textract.AnalyzeDocument(svc.textract, buffer);
    asyncCalls := [];
    if document.Failure? {
      var failed;
      document, asyncCalls, failed :=
        Textract.DocumentAnalysisWrapper(svc.textract, svc.s3, svc.env.bucketName, svc.sha256, buffer);
    }
    res := TextOf(document);
  }

  /** What `getDocumentText` returns or throws, given the scanned documents
      before the call. */
  function CachedText(scanned: map<string, ScannedDocument>, svc: Services, hash: string, buffer: seq<byte>): Result<string>
  {
    if hash in scanned then Success(scanned[hash].text) else ResolvedText(svc, buffer)
  }

  /** The scanned documents after `getDocumentText`. */
  function ScannedAfter(scanned: map<string, ScannedDocument>, svc: Services, hash: string, buffer: seq<byte>): (r: map<string, ScannedDocument>)
  {
    if hash in scanned || ResolvedText(svc, buffer).Failure? then scanned
    else scanned[hash := ScannedDocument(hash, ResolvedText(svc, buffer).value)]
  }

  /** `getDocumentText`: cache-aside over `scannedDocuments`. On a hit the
      cached text is returned and nothing runs or changes; on a miss the text
      is resolved and, if that succeeds, stored under the hash. `scanned`
      says whether OCR ran. */
  method GetDocumentText(db: Db, svc: Services, hash: string, buffer: seq<byte>)
    returns (res: Result<string>, scanned: bool)
    requires db.Valid()
    modifies db`scannedDocuments
    ensures db.Valid()
    ensures hash in old(db.scannedDocuments) ==>
              && !scanned
              && res == Success(old(db.scannedDocuments)[hash].text)
              && db.scannedDocuments == old(db.scannedDocuments)
    ensures hash !in old(db.scannedDocuments) ==>
              && scanned
              && res == ResolvedText(svc, buffer)
              && (res.Success? ==>
                    db.scannedDocuments == old(db.scannedDocuments)[hash := ScannedDocument(hash, res.value)])
              && (res.Failure? ==> db.scannedDocuments == old(db.scannedDocuments))
    ensures res.Success? ==> hash in db.scannedDocuments && db.scannedDocuments[hash].text == res.value
    ensures res == CachedText(old(db.scannedDocuments), svc, hash, buffer)
    ensures db.scannedDocuments == ScannedAfter(old(db.scannedDocuments), svc, hash, buffer)
  {
    var documents := ScannedDocumentStore.GetScannedDocuments(db, hash);
    if |documents| > 0 {
      assert documents[0] in documents;
      return Success(documents[0].text), false;
    }
    var text, _ := ResolveDocumentText(svc, buffer);
    scanned := true;
    if text.Failure? {
      return text, scanned;
    }
    var _ := ScannedDocumentStore.StoreScannedDocument(db, ScannedDocument(hash, text.value));
    res := text;
  }

  // ---------------------------------------------------------------------------
  // Translation

  /** The byte limit of the second translation tier. */
  const TruncatedTextBytes: nat := 10_000

  /** `limitText(text, bytes)`: the text itself when its UTF-8 encoding fits in
      `bytes` bytes, otherwise the decoding of exactly the first `bytes`
      bytes. */
  function LimitText(text: string, bytes: nat, utf8: string -> seq<byte>, decode: seq<byte> -> string): (r: string)
    ensures |utf8(text)| <= bytes ==> r == text
    ensures |utf8(text)| > bytes ==> exists prefix :: r == decode(prefix) && |prefix| == bytes && prefix == utf8(text)[..bytes]
  {
    var buffer := utf8(text);
    if |buffer| > bytes then decode(buffer[..bytes]) else text
  }

  /** The translation tiers, in the order they are tried. */
  datatype Tier = Direct(input: string) | Batch(input: string)

  function Truncated(svc: Services, text: string): string
  {
    LimitText(text, TruncatedTextBytes, svc.utf8, svc.decodeUtf8)
  }

  function BatchTranslation(svc: Services, text: string): Result<Translate.Translation>
  {
    Translate.BatchResult(svc.translate, svc.s3, svc.env.bucketName, svc.env.translateRoleArn,
                          svc.utf8, svc.sha256, text)
  }

  /** What `resovleDocumentTranslations` returns or throws. */
  function TranslationResult(svc: Services, text: string): Result<Translate.Translation>
  {
    var first := Translate.TranslateText(svc.translate, text);
    if first.Success? then first
    else
      var second := Translate.TranslateText(svc.translate, Truncated(svc, text));
      if second.Success? then second else BatchTranslation(svc, text)
  }

  /** `resovleDocumentTranslations`: the synchronous call on the text; only if
      it throws, the synchronous call on the text cut to 10 000 bytes; only if
      that throws too, the batch job on the original, uncut text, whose error
      propagates. `tiers` lists what was tried. */
  method ResolveDocumentTranslations(svc: Services, text: string)
    returns (res: Result<Translate.Translation>, tiers: seq<Tier>)
    ensures res == TranslationResult(svc, text)
    ensures Translate.TranslateText(svc.translate, text).Success? ==> tiers == [Direct(text)]
    ensures Translate.TranslateText(svc.translate, text).Failure?
            && Translate.TranslateText(svc.translate, Truncated(svc, text)).Success?
            ==> tiers == [Direct(text), Direct(Truncated(svc, text))]
    ensures Translate.TranslateText(svc.translate, text).Failure?
            && Translate.TranslateText(svc.translate, Truncated(svc, text)).Failure?
            ==> tiers == [Direct(text), Direct(Truncated(svc, text)), Batch(text)]
  {
    tiers := [Direct(text)];
    res := Translate.TranslateText(svc.translate, text);
    if res.Failure? {
      var limited := LimitText(text, 10_000, svc.utf8, svc.decodeUtf8);
      tiers := tiers + [Direct(limited)];
      res := Translate.TranslateText(svc.translate, limited);
      if res.Failure? {
        tiers := tiers + [Batch(text)];
        var calls, failed;
        res, calls, failed := Translate.TranslateTextWrapper(svc.translate, svc.s3, svc.env.bucketName,
                                                    svc.env.translateRoleArn, svc.utf8, svc.sha256, text);
      }
    }
  }

  /** What `getDocumentTranslations` returns: the field `translated` renamed. */
  datatype DocumentTranslations = DocumentTranslations(translatedText: string, sourceLanguage: string, targetLanguage: string)

  /** `getDocumentTranslations(hash, text)`: the translation of `text`, whose
      result does not depend on `hash`. */
  method GetDocumentTranslations(svc: Services, hash: string, text: string)
    returns (res: Result<DocumentTranslations>)
    ensures res.Success? <==> TranslationResult(svc, text).Success?
    ensures res.Failure? ==> res.error == TranslationResult(svc, text).error
    ensures res.Success? ==>
              var t := TranslationResult(svc, text).value;
              res.value == DocumentTranslations(t.translated, t.sourceLanguage, t.targetLanguage)
  {
    var translation, _ := ResolveDocumentTranslations(svc, text);
    match translation
    case Failure(e) => res := Failure(e);
    case Success(t) => res := Success(DocumentTranslations(t.translated, t.sourceLanguage, t.targetLanguage));
  }

  // ---------------------------------------------------------------------------
  // Summary

  const SummaryInstruction := "Summarize the receipt document and humanize the data (eg. remove + from text)."

  const SummaryRetries: nat := 3

  /** Attempt `n` of the summary completion: the parsed answer checked
      against the receipt record schema, a request, parse or schema error
      failing the attempt. */
  function SummaryRun(client: OpenAi.Client, text: string): nat -> Attempt<Json>
  {
    (attempt: nat) =>
      match client.jsonCompletion(SummaryInstruction, text, attempt)
      case Failure(e) => Fail(e)
      case Success(j) => OpenAi.AsAttempt(ReceiptSchema.ParseRecord(j))
  }

  /** `summarizeDocument(hash, text)`: the receipt-record completion on the
      text under three retries, each failed attempt logged. */
  method SummarizeDocument(svc: Services, hash: string, text: string)
    returns (res: Result<Json>, attempts: nat, failedAttempts: seq<nat>)
    ensures Settles(SummaryRun(svc.openai, text), SummaryRetries, res, attempts, failedAttempts)
    ensures res == Outcome(SummaryRun(svc.openai, text), SummaryRetries)
  {
    res, attempts, failedAttempts := Retry(SummaryRun(svc.openai, text), SummaryRetries);
  }

  /** A summary that settles is the settling attempt's completion as the
      receipt record schema parses it; it is an object holding schema keys
      only (no `currencyCode`), so a second parse leaves it as it is. */
  lemma SummaryRecord(client: OpenAi.Client, text: string)
    ensures var res := Outcome(SummaryRun(client, text), SummaryRetries);
            var completion := client.jsonCompletion(SummaryInstruction, text, SettlingAttempt(SummaryRun(client, text), SummaryRetries));
            res.Success? ==>
              && completion.Success?
              && ReceiptSchema.ParseRecord(completion.value) == Success(res.value)
              && res.value.JObj?
              && (forall p :: 0 <= p < |res.value.entries| ==> res.value.entries[p].0 in ReceiptSchema.ShapeKeys(ReceiptSchema.RecordShape))
              && Field(res.value.entries, "currencyCode") == None
              && ReceiptSchema.ParseRecord(res.value) == Success(res.value)
  {
    var res := Outcome(SummaryRun(client, text), SummaryRetries);
    var completion := client.jsonCompletion(SummaryInstruction, text, SettlingAttempt(SummaryRun(client, text), SummaryRetries));
    if res.Success? {
      assert completion.Success? && ReceiptSchema.ParseRecord(completion.value) == Success(res.value);
      ReceiptSchema.SnapshotExtrasDropped();
      ReceiptSchema.ParseRecordShape(completion.value, "currencyCode");
      ReceiptSchema.ParseRecordStable(completion.value);
    }
  }

  // ---------------------------------------------------------------------------
  // Embeddings

  /** `results.map(r => fulfilled ? value : throw reason)` over settled
      results: every value, in order, when all succeeded; otherwise the error
      of the lowest-index failure. */
  function AllFulfilled<T>(results: seq<Result<T>>): (r: Result<seq<T>>)
    ensures r.Success? <==> forall i :: 0 <= i < |results| ==> results[i].Success?
    ensures r.Success? ==> |r.value| == |results| && forall i :: 0 <= i < |results| ==> results[i] == Success(r.value[i])
    ensures r.Failure? ==>
              exists i :: 0 <= i < |results| && results[i] == Failure(r.error)
                       && forall j :: 0 <= j < i ==> results[j].Success?
  {
    if |results| == 0 then Success([])
    else
      match results[0]
      case Failure(e) => Failure(e)
      case Success(v) =>
        var rest := AllFulfilled(results[1..]);
        match rest
        case Failure(e) =>
          assert exists i :: 0 <= i < |results| - 1 && results[1..][i] == Failure(e)
                           && forall j :: 0 <= j < i ==> results[1..][j].Success?;
          var i :| 0 <= i < |results| - 1 && results[1..][i] == Failure(e)
                   && forall j :: 0 <= j < i ==> results[1..][j].Success?;
          assert results[i + 1] == Failure(e);
          assert forall j :: 1 <= j < i + 1 ==> results[j] == results[1..][j - 1];
          Failure(e)
        case Success(vs) =>
          assert forall i :: 1 <= i < |results| ==> results[i] == results[1..][i - 1];
          Success([v] + vs)
  }

  /** `generateEmbeddings(sources)`: one embeddings call per source, all of
      them made, then joined all-or-nothing. */
  function GenerateEmbeddings(client: OpenAi.Client, sources: seq<string>): (r: Result<seq<OpenAi.Embeddings>>)
    ensures r.Success? ==>
              && |r.value| == |sources|
              && forall i :: 0 <= i < |sources| ==> OpenAi.CreateEmbeddings(client, sources[i]) == Success(r.value[i])
    ensures r.Failure? ==>
              exists i :: 0 <= i < |sources| && OpenAi.CreateEmbeddings(client, sources[i]) == Failure(r.error)
                       && forall j :: 0 <= j < i ==> OpenAi.CreateEmbeddings(client, sources[j]).Success?
  {
    var results := seq(|sources|, i requires 0 <= i < |sources| => OpenAi.CreateEmbeddings(client, sources[i]));
    var r := AllFulfilled(results);
    if r.Failure? then
      var i :| 0 <= i < |results| && results[i] == Failure(r.error)
               && forall j :: 0 <= j < i ==> results[j].Success?;
      assert results[i] == OpenAi.CreateEmbeddings(client, sources[i]);
      assert forall j :: 0 <= j < i ==> results[j] == OpenAi.CreateEmbeddings(client, sources[j]);
      r
    else r
  }
}
