# receipt-scanner, modelled in Dafny

`receipt-scanner` takes an uploaded receipt and runs it through a pipeline:

1. OCR with AWS Textract, cached by document hash.
2. Translation to English with AWS Translate, with a three-tier fallback.
3. A structured summary produced by an OpenAI completion.
4. Embeddings of the text, the translation and the flattened summary.
5. The entry and the embedding rows upserted into MongoDB.

Queries are answered from ranked receipts. Each receipt is flattened to tab-indented text with `flatJson` and packed into a prompt until a token budget is reached. The answer streams back as `processing`, `delta` and `done` events. In the browser, an upload list tracks each file's status from the stream of progress chunks.

This project models those deterministic rules. Every external service is a parameter: Textract, Translate, OpenAI, S3, SHA-256, UTF-8 and the tokenizer are function-typed fields of datatypes. Calls that p-retry repeats are scripted per attempt number as `Ok`, `Fail` or `Abort`.

## Modules

| Module | Models |
|---|---|
| `Common` | Options, results and attempts, `join("")` / `join(sep)`, and integer-to-decimal conversion. |
| `PRetry` | The retry loop of `pRetry(fn, {retries, onFailedAttempt})`. |
| `Flat` | `flatJson`. |
| `FlatSnapshots` | The inline snapshots of its tests, proved for the model. |
| `Collections` | The four collections as maps from natural key to row, inside a `Db` class; the keyed upsert and `find`. |
| `ReceiptsStore`, `ScannedDocumentStore`, `DocumentNameStore` | src/lib/db/store. |
| `LegacyStore` | src/lib/store.ts. |
| `Storage` | The bucket name and the S3 service. |
| `Textract` | src/lib/ocr/textract.ts. |
| `Translate` | src/lib/language/translate.ts. |
| `OpenAi` | The OpenAI service shapes. |
| `ReceiptSchema` | src/lib/db/schema/receipts.ts: the receipt record schema and what zod's `ReceiptRecord.parse` keeps of an answer. |
| `Platform` | All services plus the environment. |
| `Text` | src/lib/engine/text.ts. |
| `EngineProcess` | src/lib/engine/process.ts. |
| `Query` | src/lib/engine/query.ts. |
| `Uploader` | src/providers/uploader.tsx. |
| `LegacyProcess` | src/lib/doc/process.ts. |

Generator functions become methods that return the sequence of events they yield. An upload list that React state holds becomes the `itemList` field of `Uploader.UploadProvider`, and `setItemList` becomes an assignment to it. The collections are fields of `Collections.Db`, and the store functions update them in place.

Where one method does the work, it is proved against a specification function: `Pipeline`, `QueryMessage`, `StreamEvents`, `StatusTrace`, `AnalysisJobResult` or `BatchResult`. The properties of that function are lemmas.

## Model

| member | source | states |
|---|---|---|
| PRetry.Outcome | src/lib/ocr/textract.ts:60-88 | What `pRetry` resolves to or throws: the settling attempt's value or `AbortError` reason, or `mainError()` of all failures when the budget runs out. `Retry` is proved to return it, and `SettlesOutcome` and `SettlesUnique` show that every settlement agrees with it. |
| PRetry.Retry | src/lib/ocr/textract.ts:60-88 | Attempts run 1, 2, … until one returns, one throws `AbortError`, or `retries + 1` attempts have failed. Every earlier attempt failed. The failures logged are the attempt numbers of the ordinary failures, the last one included. On exhaustion the error thrown is `mainError()` of the collected messages. The result is `Outcome`. |
| PRetry.SettlesOutcome | src/lib/ocr/textract.ts:60-88 | Any settlement p-retry allows is the one `Outcome` and `SettlingAttempt` describe. |
| PRetry.SettlesUnique | src/lib/ocr/textract.ts:60-88 | Two settlements of the same run and budget agree on the result, the attempt count and the logged failures. |
| PRetry.FirstNonFailureSettles | src/lib/ocr/textract.ts:72-78 | The first attempt within budget that does not fail ordinarily settles the operation. A value is returned. An `AbortError` stops the retries however much budget is left. |
| PRetry.BudgetExhausted | src/lib/ocr/textract.ts:80-87 | When every attempt fails ordinarily, all `retries + 1` attempts run and each is logged. The error thrown is the most frequent of their messages, not necessarily the last. |
| PRetry.MainError | src/lib/ocr/textract.ts:60-88 | p-retry's `mainError()`: none without failures; otherwise the message whose running count last reached the running maximum, which is `MostFrequent`. |
| PRetry.MostFrequent | src/lib/ocr/textract.ts:60-88 | The message `mainError()` picks. `MainError` computes it with p-retry's counting loop. `MostFrequentIsMost`, `MostFrequentLatest` and `MostFrequentUniform` state that it occurs most often, that the latest wins ties, and that a lone message is kept. |
| PRetry.MostFrequentIsMost | src/lib/ocr/textract.ts:60-88 | The main error is one of the messages, and no message occurs more often. |
| PRetry.MostFrequentLatest | src/lib/ocr/textract.ts:60-88 | On a tie the later message wins: the last message is the main error when its count equals the maximum. |
| PRetry.MostFrequentUniform | src/lib/ocr/textract.ts:60-88 | When every attempt fails with one message, that message is thrown. |
| PRetry.MostFrequentExamples | src/lib/ocr/textract.ts:60-88 | `A, A, B` throws `A`; `A, B` throws `B`; `A, B, B, A` throws `A`. |
| PRetry.MaxCountBounds | src/lib/ocr/textract.ts:60-88 | No message occurs more often than the running maximum count. |
| PRetry.Settle | src/lib/ocr/textract.ts:72-80 | The settling attempt succeeds exactly when it returned a value. |
| PRetry.Range | src/lib/ocr/textract.ts:84-86 | The logged attempt numbers `lo..hi-1`, with their length. |
| PRetry.SettleFrom | src/lib/ocr/textract.ts:60-88 | The settling attempt lies within the budget. |
| Common.Join | src/lib/json/flat.ts:22-26 | `parts.join(sep)`. `JoinAsConcat` states it as the first part followed by each later part with the separator before it. |
| Common.Concat | src/lib/engine/query.ts:34-42 | `parts.join("")`. `ConcatAppend` and `ConcatSplit` state that it distributes over concatenation. |
| Common.IntToString | src/lib/json/flat.ts:45-49 | `${n}` for an integer: a non-empty decimal string, starting with `-` exactly when the number is negative. |
| Flat.FlatJson | src/lib/json/flat.ts:10-51 | `flatJson(src, depth)`. `ScalarRendering`, `ArrayRendering`, `ObjectRendering` and `EntrySeparator` state its cases. `FlatItemsFrom` and `FlatEntriesFrom` equate it with the source's `map`/`join` form, and the snapshot lemmas pin it to the tests. |
| Flat.Tabs | src/lib/json/flat.ts:13 | `"\t".repeat(n)`: n characters, all tabs. |
| Flat.ScalarRendering | src/lib/json/flat.ts:11-17 | These values render as follows: <br>• null as `null`<br>• an ObjectId as its hex string<br>• a Date as its ISO string<br>• a string as itself<br>• an integer in decimal<br>• a boolean as `true`/`false` |
| Flat.ArrayRendering | src/lib/json/flat.ts:19-28 | An array at depth d renders as its elements joined by `"\n"`. Each element is d tabs, its index, a space, then the element at depth d+1. The empty array renders as just d tabs. |
| Flat.ObjectRendering | src/lib/json/flat.ts:34-43 | An object renders as its entries in order, joined by `"\n"`. Each entry is key, separator, then value at depth d+1. Entries after the first are prefixed with d tabs. |
| Flat.EntrySeparator | src/lib/json/flat.ts:3-8 | A Date field renders as `key=ISO` because `isPrimitiveType` counts Date. A field holding null, an ObjectId, an array or an object puts its value on the next line. |
| Flat.FlatItemsFrom | src/lib/json/flat.ts:22-26 | The recursive rendering of the elements from k on equals the source's `map(...).join("\n")` from k on. |
| Flat.FlatEntriesFrom | src/lib/json/flat.ts:36-43 | The same for object entries. |
| Flat.SmallArray | src/lib/json/flat.ts:19-28 | A two-element array renders as `d tabs 0 a` and `d tabs 1 b` on two lines. |
| Flat.ObjectOne | src/lib/json/flat.ts:36-43 | A one-entry object renders as the entry's text. |
| Flat.ObjectTwo | src/lib/json/flat.ts:36-43 | A two-entry object renders as two lines; the second is indented by d tabs. |
| Flat.ObjectThree | src/lib/json/flat.ts:36-43 | A three-entry object renders as three lines; all but the first are indented by d tabs. |
| Flat.EntryPartForm | src/lib/json/flat.ts:42 | An entry's part is its text, preceded by d tabs unless it is the first. |
| FlatSnapshots.SimpleSnapshot | src/__tests__/lib/json/flat.test.ts:3-9 | `{a: 1}` renders as `a=1`. |
| FlatSnapshots.NestedSnapshot | src/__tests__/lib/json/flat.test.ts:11-22 | `{a: {b: 2}}` renders as `a\nb=2`. |
| FlatSnapshots.DatesSnapshot | src/__tests__/lib/json/flat.test.ts:133-161 | The dates payload renders exactly as the snapshot, for any two ISO strings. |
| FlatSnapshots.DeeplySnapshot | src/__tests__/lib/json/flat.test.ts:156-160 | The `deeply` object at depth 2 renders as the snapshot's last five lines. |
| FlatSnapshots.ReceiptSnapshotExcerpt | src/__tests__/lib/json/flat.test.ts:24-130 | The receipt snapshot's rules, on an excerpt:<br>• `{$date}` renders as a nested object.<br>• An array of records puts each record after its index.<br>• Nested entries after the first are indented. |
| FlatSnapshots.ItemsArray | src/__tests__/lib/json/flat.test.ts:90-108 | An array of two item records at depth 1 puts each record on its index's line, with its later fields indented by two tabs. |
| FlatSnapshots.ItemObject | src/__tests__/lib/json/flat.test.ts:91-96 | An item record at depth 2 is `id=…` followed by `\t\tqty=1`. |
| FlatSnapshots.DatePair | src/__tests__/lib/json/flat.test.ts:151-153 | An array of two dates renders as two indexed lines. |
| Collections.Db.constructor | src/lib/db/schema/index.ts:13-18 | A new database is empty and keyed. |
| Collections.Upsert | src/lib/db/store/receipts.ts:8-14 | After an upsert, the row sits under its key, the key set grows by at most that key, and every other row is unchanged. |
| Collections.UpsertResult | src/lib/db/store/receipts.ts:8-14 | Either one row was matched or one was inserted. It was inserted exactly when the key was absent, and modified exactly when the old row differed. |
| Collections.Find | src/lib/db/store/scanned-document.ts:25 | `find({key}).toArray()` on a keyed collection. `FindIsFilter` states that it returns exactly the rows whose key field matches, at most one. `StoredThenFound` states that a stored row is found. |
| Collections.FindIsFilter | src/lib/db/store/scanned-document.ts:25 | `find({documentHash: h})` returns exactly the stored rows whose key field is h, and at most one. |
| Collections.UpsertKeyed | src/lib/db/store/receipts.ts:8-14 | An upsert under the row's own key keeps every row under its own key, so there is never a second row for a key. |
| Collections.UpsertIdempotent | src/lib/db/store/receipts.ts:8-14 | Storing the same row twice gives the state of storing it once; the second write matches and modifies nothing. |
| Collections.UpsertOrder | src/lib/db/store/receipts.ts:25-35 | Upserts under different keys commute; under the same key the later one wins. |
| Collections.StoredThenFound | src/lib/db/store/document-name.ts:11-25 | After storing a row, finding its key returns that row alone. |
| ReceiptsStore.StoreReceipt | src/lib/db/store/receipts.ts:5-17 | Upserts `receipts` keyed on `documentHash` and returns the update counts. The collection stays keyed. |
| ReceiptsStore.StoreReceiptEmbedding | src/lib/db/store/receipts.ts:19-35 | Upserts `receiptEmbedding` keyed on (documentHash, languageCode) and returns the counts. |
| ScannedDocumentStore.StoreScannedDocument | src/lib/db/store/scanned-document.ts:5-20 | Upserts `scannedDocuments` keyed on `documentHash`. |
| ScannedDocumentStore.GetScannedDocuments | src/lib/db/store/scanned-document.ts:22-28 | Read-only. Returns exactly the rows with the hash, at most one, and one exactly when the hash is stored. |
| DocumentNameStore.StoreDocumentName | src/lib/db/store/document-name.ts:5-20 | Upserts `documentNames` keyed on `documentHash`. |
| DocumentNameStore.GetDocumentName | src/lib/db/store/document-name.ts:22-28 | Read-only. Returns exactly the rows with the hash, at most one, and one exactly when the hash is stored. |
| LegacyStore.StoreReceipt | src/lib/store.ts:5-43 | Declares the unique index on `documentHash`, then upserts keyed on it and returns the upsert's result. |
| LegacyStore.StoreReceiptEmbedding | src/lib/store.ts:45-98 | Declares the unique index on (documentHash, languageCode), then upserts keyed on the pair and returns the result. |
| Storage.BucketName | src/lib/storage.ts:12-14 | Uses `BUCKET_NAME` when set, otherwise `receipt-scanner-analysis-bucket`. |
| Textract.AnalyzeDocumentRequest | src/lib/ocr/textract.ts:21-27 | The request carries the bytes inline and exactly the features `TABLES`, `FORMS`. |
| Textract.AnalyzeDocument | src/lib/ocr/textract.ts:17-28 | One synchronous call with that request. |
| Textract.KeysDetermineHash | src/lib/ocr/textract.ts:34-36 | The upload key and the output prefix are functions of the hash and determine it. Equal keys mean equal hashes. |
| Textract.StartRequestFor | src/lib/ocr/textract.ts:40-52 | The job reads the uploaded key and writes under the output prefix, in the configured bucket, with the same two features. |
| Textract.JobIdOf | src/lib/ocr/textract.ts:54-57 | A missing or empty `JobId` counts as no job. |
| Textract.PollOutcome | src/lib/ocr/textract.ts:64-80 | A missing status is a retryable error. `SUCCEEDED` returns the response without its status. `FAILED` throws `AbortError`. Any other status is retryable. |
| Textract.Polls | src/lib/ocr/textract.ts:64-66 | Attempt i issues the status request numbered i. |
| Textract.AnalysisJobResult | src/lib/ocr/textract.ts:30-89 | What `documentAnalysisWrapper` returns or throws: the upload's error, the start's error, the missing-job error, or the retried poll's `Outcome`. `DocumentAnalysisWrapper` is proved to return it. |
| Textract.DocumentAnalysisWrapper | src/lib/ocr/textract.ts:30-89 | Upload comes first, then job start. An upload error, a start error or a missing `JobId` ends the call before any poll. Otherwise attempt i polls the job, under p-retry with ten retries. The result equals `AnalysisJobResult`. |
| Translate.TextRequestFor | src/lib/language/translate.ts:23-27 | Requests use source `auto` and target `en`. |
| Translate.WithDefaults | src/lib/language/translate.ts:29-34 | Each missing field takes its default: the translation becomes the input text, the source language `unknown`, the target language `en`. |
| Translate.TranslateText | src/lib/language/translate.ts:22-35 | One synchronous call. A thrown error propagates; a response gets the defaults. |
| Translate.KeysFromHash | src/lib/language/translate.ts:43-45 | The uploaded key lies in the input folder, which differs from the output folder. All names determine the hash. |
| Translate.JobRequestFor | src/lib/language/translate.ts:56-67 | The batch job has source `auto`, target `["en"]` and the role ARN. It reads `s3://bucket/<input folder>` as `text/plain` and writes to `s3://bucket/<output folder>`. |
| Translate.JobOutcome | src/lib/language/translate.ts:85-96 | `COMPLETED` reads the output folder, afresh on each attempt, and reports it as `en` from `unknown`. `FAILED` throws `AbortError`. Any other status is retryable. |
| Translate.Describes | src/lib/language/translate.ts:82-84 | Attempt i issues the describe request numbered i. |
| Translate.BatchResult | src/lib/language/translate.ts:37-105 | What `translateTextWrapper` returns or throws: the upload's error, the missing-role error, the start's error, the missing-job error, or the retried poll's `Outcome`. `TranslateTextWrapper` is proved to return it. |
| Translate.TranslateTextWrapper | src/lib/language/translate.ts:37-105 | Upload comes first. A missing role ARN errors after the upload and before any job. A missing `JobId` errors before polling. Attempt i polls the job under five retries. The result equals `BatchResult`. |
| OpenAi.CreateEmbeddings | src/lib/ai/openai.ts:25-32 | Returns the input and the service's items, or its error. |
| OpenAi.AsAttempt | src/lib/ai/openai.ts:34-60 | A failed completion or a failed schema parse is an ordinary, retryable error, never an abort. |
| Text.StringTexts | src/lib/engine/text.ts:35-37 | The string-valued block texts: a text is kept exactly when some block has it, and never more texts than blocks. |
| Text.StringTextsAppend | src/lib/engine/text.ts:35-37 | The filter keeps block order: it distributes over concatenation. |
| Text.BlockTexts | src/lib/engine/text.ts:34-37 | The block texts of an analysis, none without `Blocks`. `StringTexts` and `StringTextsAppend` state which texts are kept, and in what order. |
| Text.DocumentText | src/lib/engine/text.ts:34-38 | The block texts joined by `"\n"`; `""` without `Blocks`. |
| Text.ResolvedText | src/lib/engine/text.ts:23-39 | What `resolveDocumentText` returns or throws: the synchronous analysis's text, or, only when that call throws, the job's text or error. `ResolveDocumentText` is proved to return it. |
| Text.ResolveDocumentText | src/lib/engine/text.ts:23-39 | The synchronous call comes first. The asynchronous job runs exactly when that call throws. The result is `ResolvedText`. |
| Text.CachedText | src/lib/engine/text.ts:41-60 | What `getDocumentText` returns: the cached text on a hit, otherwise `ResolvedText`. `GetDocumentText` is proved to return it. |
| Text.GetDocumentText | src/lib/engine/text.ts:41-60 | On a hit it returns the cached text without OCR or writes. On a miss it resolves the text and stores `{hash, text}`, so the next call hits. On an OCR error nothing is stored. |
| Text.LimitText | src/lib/engine/text.ts:62-68 | The text itself when its UTF-8 length is within the limit. Otherwise the decoding of exactly the first `bytes` bytes. |
| Text.TranslationResult | src/lib/engine/text.ts:70-86 | What `resovleDocumentTranslations` returns or throws: the first tier that succeeds, or the batch job's error. `ResolveDocumentTranslations` is proved to return it, trying the tiers in order. |
| Text.ResolveDocumentTranslations | src/lib/engine/text.ts:70-86 | Tier 2 runs only after tier 1 fails, on the text cut to 10 000 bytes. Tier 3 runs only after tier 2 fails, on the original text. Its error propagates. The result is `TranslationResult`. |
| Text.GetDocumentTranslations | src/lib/engine/text.ts:89-97 | The translation with `translated` renamed to `translatedText`. The hash plays no part. |
| Text.SummaryRun | src/lib/engine/text.ts:99-105 | Attempt n of the receipt-record completion: the parsed answer put through `ReceiptSchema.ParseRecord`. A failed request and a rejected record are both ordinary, retryable failures (`OpenAi.AsAttempt`). `SummaryRecord` states what a settled summary is. |
| Text.SummaryRecord | src/lib/ai/openai.ts:58-59 | A summary that settles is `ParseRecord` of the settling attempt's completion. It is an object holding only schema keys, with no `currencyCode`, and parsing it again gives it back unchanged. |
| Text.SummarizeDocument | src/lib/engine/text.ts:99-116 | The receipt-record completion under three retries, each failure logged. |
| Text.AllFulfilled | src/lib/engine/text.ts:125-135 | Every value in order when all results are fulfilled. Otherwise the reason of the lowest-index rejection. |
| Text.GenerateEmbeddings | src/lib/engine/text.ts:118-136 | One embeddings call per source. All results come back in source order, or the error of the first failing source. |
| EngineProcess.Progressed | src/lib/engine/process.ts:30-91 | The first n progress events, one per stage, in order. |
| EngineProcess.FirstVector | src/lib/engine/process.ts:65-75 | The destructuring takes the first item's vector, and fails on an empty list. |
| EngineProcess.Pipeline | src/lib/engine/process.ts:23-105 | The run of `processDocumentIterator`: the failed stage with its error, or the entry and the three rows. `RunStages` and `ProcessDocumentIterator` are proved to follow it. `CompletedRun` and `EmptyEmbeddingFails` state its data flow and its failure stages. |
| EngineProcess.RunStages | src/lib/engine/process.ts:26-89 | Stages 1-4 in order. The event before each stage is yielded before it runs. The run equals `Pipeline`. A failure at stage k leaves exactly the first k events. |
| EngineProcess.TranslateStages | src/lib/engine/process.ts:35-75 | Stages 2-4 after the first event: translation, summary, embeddings, each preceded by its progress event. A failure at stage k leaves the first k events. |
| EngineProcess.StoreRun | src/lib/engine/process.ts:92-97 | One receipt upsert, then one upsert per row, in order. |
| EngineProcess.ProcessDocumentIterator | src/lib/engine/process.ts:23-105 | A failure at stage k yields the first k progress events and writes nothing. On success it yields the five progress events and then one `data` event with the entry. It makes four writes and leaves the receipt upserted and the rows stored. |
| EngineProcess.CompletedRun | src/lib/engine/process.ts:26-89 | Translation reads the OCR text and summarisation reads the translation. The sources are text, translation and `flatJson(receipt)`. The entry is (hash, [source, target], receipt). The three rows carry the hash, their text and their source's first vector, under languages source, target, target. |
| EngineProcess.EmptyEmbeddingFails | src/lib/engine/process.ts:65-75 | An empty embeddings list fails the run before the writes. |
| EngineProcess.StoreThreeRows | src/lib/engine/process.ts:92-97 | Storing three rows is three upserts in order. |
| EngineProcess.StoredRowsSurvive | src/lib/engine/process.ts:77-97 | Rows 2 and 3 share (hash, target). The document keeps the source row unless the languages agree, and the summary row under the target. Every other stored row, of this document or another, is unchanged. |
| EngineProcess.SurvivingRowCount | src/lib/engine/process.ts:77-97 | Storing a document's three rows adds at most two keys, or one when source equals target, and changes no row except those under (hash, source) and (hash, target). |
| EngineProcess.EventsOrder | src/lib/engine/process.ts:30-104 | On success the events are Analyzing, Translating, Summarizing, Generating embeddings, Storing, then exactly one `data` event, last. |
| Query.Assign | src/lib/engine/query.ts:30-33 | Property assignment keeps an existing key's place and appends a new key last. |
| Query.AssignPresent | src/lib/engine/query.ts:30-33 | With distinct keys, assigning a present key gives it the new value in its old place and leaves every other entry as it was. |
| Query.SpreadAppend | src/lib/engine/query.ts:30-33 | Spreading a concatenation spreads the parts in order. |
| Query.SpreadFresh | src/lib/engine/query.ts:30-33 | Spreading entries with new keys appends them. |
| Query.NamesJson | src/lib/engine/query.ts:31 | `documentNames.map(doc => doc.name)`. |
| Query.PageObjectNames | src/lib/engine/query.ts:30-33 | Without its own `documentNames`, the page object is the names followed by the receipt's fields. |
| Query.PageObjectOverride | src/lib/engine/query.ts:30-33 | The receipt's own `documentNames` overrides the names, in first place. |
| Query.Page | src/lib/engine/query.ts:30-33 | Each page is `\n\n` + the flattened object + `\n\n`. |
| Query.Pages | src/lib/engine/query.ts:29-33 | One page per result, in ranked order. |
| Query.Header | src/lib/engine/query.ts:25-28 | The prompt starts with the fixed instruction and `\n\nQuestion: <query>`. |
| Query.SearchFor | src/lib/engine/query.ts:18-23 | The query's embedding, then the search on its first vector. An embeddings error, or an empty list, which the destructuring cannot take apart, fails; otherwise the result is the search's. |
| Query.MessageFor | src/lib/engine/query.ts:14-43 | What `generateQueryMessage` resolves to: `SearchFor`'s error, or `QueryMessage` of its results. `GenerateQueryMessage` is proved to return it. |
| Query.GenerateQueryMessage | src/lib/engine/query.ts:14-43 | Fails exactly when the search fails, with its error. Otherwise the message is `QueryMessage`: the header plus the kept pages. |
| Query.AssemblePrompt | src/lib/engine/query.ts:25-42 | The loop returns `QueryMessage`: the header plus the pages kept before the first one over the budget. |
| Query.KeptWithinBudget | src/lib/engine/query.ts:34-39 | Every kept page passed: the prompt up to and including it is within the budget. |
| Query.KeptStops | src/lib/engine/query.ts:35-37 | The loop stops at the first page that would exceed the budget; no later page is tried. |
| Query.KeptUnique | src/lib/engine/query.ts:29-40 | Those two facts determine how many pages are kept. |
| Query.QueryMessage | src/lib/engine/query.ts:25-42 | The message built from the ranked results. `QueryMessageShape`, `QueryMessageWithinBudget` and `NoResultsMessage` state its form and its bound. `KeptWithinBudget`, `KeptStops` and `KeptUnique` state which pages it keeps. |
| Query.QueryMessageShape | src/lib/engine/query.ts:25-42 | The message is the instruction, the question and the kept pages in order. |
| Query.QueryMessageWithinBudget | src/lib/engine/query.ts:29-42 | When at least one page is kept, the message is within the token budget. |
| Query.NoResultsMessage | src/lib/engine/query.ts:29-42 | Without results the message is the header alone. |
| Query.ChoiceEvents | src/lib/engine/query.ts:107-117 | Every event is a non-empty `text/markdown` delta, at most one per choice. |
| Query.ChunkEvents | src/lib/engine/query.ts:98-118 | Every event of the chunks is a non-empty markdown delta. |
| Query.EmitChoices | src/lib/engine/query.ts:107-117 | The events so far, then one markdown delta per choice that has content, in order. |
| Query.EmitChunks | src/lib/engine/query.ts:96-120 | A blank `processing` event before the first chunk only, then every chunk's deltas, then `done`. |
| Query.ExecuteQueryIterator | src/lib/engine/query.ts:83-121 | When the message cannot be generated, only the first opening event is yielded and the error follows. Otherwise the events are `StreamEvents` of the chunks; when the request fails, the two opening events are yielded and then the error. |
| Query.StreamEvents | src/lib/engine/query.ts:83-121 | The events of a query whose stream yields the chunks: the two opening events, then `Streamed`. `StreamEventsShape` and `StreamDeltaText` state its order and its text. |
| Query.StreamEventsShape | src/lib/engine/query.ts:86-120 | The first two events are the fixed messages. A blank `processing` event is third exactly when there is a chunk. No other `processing` event occurs. `done` is last and only last. |
| Query.StreamDeltaText | src/lib/engine/query.ts:107-117 | Skipping empty contents loses nothing: the deltas concatenate to the whole streamed text. |
| Query.ChoiceDeltaText | src/lib/engine/query.ts:107-117 | A chunk's deltas concatenate to its choices' contents. |
| Query.DeltaTextAppend | src/lib/engine/query.ts:107-117 | The delta text of a concatenation of event lists is the concatenation of their delta texts. |
| Query.ChoiceEventsCount | src/lib/engine/query.ts:107-117 | Exactly one delta per choice with content. |
| Query.ParseContentType | src/lib/engine/query.ts:47 | Accepts exactly `text/plain`, `text/markdown` and `text/html`. |
| ReceiptSchema.ShapeKeys | src/lib/db/schema/receipts.ts:31-44 | The schema's keys, one per field, in declaration order. |
| ReceiptSchema.Position | src/lib/db/schema/receipts.ts:31-44 | The index of a key in the schema. It is below the schema's length exactly when the key is one of its keys, and the field there has that key. |
| ReceiptSchema.ParseEntries | src/lib/db/schema/receipts.ts:31-44 | `z.object` on an object's entries. It succeeds exactly when every field's check passes on the input's value under that key. The output has at most one entry per field, under schema keys only. |
| ReceiptSchema.ParseObject | src/lib/db/schema/receipts.ts:19-44 | Only objects are accepted, and only when every field's check passes. The result is an object with at most one entry per field. |
| ReceiptSchema.ParseItems | src/lib/db/schema/receipts.ts:19-27 | `ReceiptItem.array()`: it succeeds exactly when every element parses as a `ReceiptItem`, and keeps one item per element. |
| ReceiptSchema.ParseEntriesOrder | src/lib/db/schema/receipts.ts:31-44 | For a schema whose keys are distinct, the output's keys are in strictly increasing schema order, so each key appears once. |
| ReceiptSchema.ParseEntriesValues | src/lib/db/schema/receipts.ts:31-44 | Under each schema key the output holds the checked value of the input's value under that key. An absent optional or `unknown` field stays absent. |
| ReceiptSchema.ParseObjectStable | src/lib/db/schema/receipts.ts:19-44 | For distinct keys and a field check that is stable, parsing the output again gives it back. |
| ReceiptSchema.ParseItemsStable | src/lib/db/schema/receipts.ts:19-27 | Parsing the parsed items again gives them back. |
| ReceiptSchema.ParseRecordStable | src/lib/db/schema/receipts.ts:31-44 | `ReceiptRecord.parse` is idempotent on what it accepts. |
| ReceiptSchema.ParseRecordShape | src/lib/db/schema/receipts.ts:31-44 | An accepted record is an object that holds only schema keys, each once, in the schema's order, each with the checked input value. Any key outside the schema is dropped. |
| ReceiptSchema.SnapshotExtrasDropped | src/__tests__/lib/json/flat.test.ts:63-74 | `currencyCode` and `classification`, which the test's receipt carries, are not record schema keys, so `ParseRecord` drops them. |
| Query.ParseQueryResponse | src/lib/engine/query.ts:45-48 | Accepts exactly objects with a string `response` and an accepted `contentType`. |
| Query.AnswerRun | src/lib/engine/query.ts:55-73 | Attempt n of the answer. A failed completion and a parse that `ParseQueryResponse` rejects are both ordinary failures. `AnswerContentType` states what a settled answer is. |
| Query.ExecuteQuery | src/lib/engine/query.ts:50-76 | When the message cannot be generated, its error, before any attempt. Otherwise the validated answer to the prompt under three retries. |
| Query.AnswerContentType | src/lib/engine/query.ts:45-73 | A settled answer is the settling attempt's completion parsed by `QueryResponseShape`, so its content type is one of the three. |
| Uploader.FindByFile | src/providers/uploader.tsx:36-38 | Returns the index of the first item with an equal file name, or -1 when there is none. |
| Uploader.Upserted | src/providers/uploader.tsx:40-51 | The updater passed to `setItemList`. `UpsertAbsent`, `UpsertPresent`, `UpsertKeepsDistinct` and `UpsertSameName` state its effect. |
| Uploader.UpsertAbsent | src/providers/uploader.tsx:42-45 | An absent name is appended at the end. |
| Uploader.UpsertPresent | src/providers/uploader.tsx:47-49 | A present name's item is replaced at its index. The length and every other position are unchanged. |
| Uploader.UpsertKeepsDistinct | src/providers/uploader.tsx:36-50 | Pairwise distinct names stay distinct. |
| Uploader.UpsertSameName | src/providers/uploader.tsx:40-51 | Of two upserts under one name, the later wins. |
| Uploader.FindByName | src/providers/uploader.tsx:36-38 | The lookup depends only on the file's name. |
| Uploader.ChunkStatus | src/providers/uploader.tsx:72-83 | A chunk sets at most one status, and only `processing`. |
| Uploader.PumpTrace | src/providers/uploader.tsx:71-89 | The statuses the pump sets over a stream. `PumpStep` states one step and `PumpTraceShape` its shape. `Pump` is proved to apply it. |
| Uploader.PumpStep | src/providers/uploader.tsx:71-88 | The trace of a stream is the chunk's statuses, then `done` or the rest's trace. |
| Uploader.PumpTraceShape | src/providers/uploader.tsx:71-88 | Every status is `processing` or `done`, and `done` is last exactly when the reader reported done. |
| Uploader.StatusTrace | src/providers/uploader.tsx:53-91 | Every status an upload goes through. `StatusTraceShape` states its shape, and `UploadFile` is proved to apply it. |
| Uploader.StatusTraceShape | src/providers/uploader.tsx:53-91 | `uploading` comes first. `failed` and `waiting` never occur. The trace ends in `done` exactly when the body's reader reports done. |
| Uploader.SetStatusesAppend | src/providers/uploader.tsx:40-51 | Successive status updates compose. |
| Uploader.SetStatusesLast | src/providers/uploader.tsx:40-51 | After a series of status updates to one file, the list is as if only the last were applied. |
| Uploader.UploadProvider.constructor | src/providers/uploader.tsx:34 | The list starts empty. |
| Uploader.UploadProvider.UpsertItem | src/providers/uploader.tsx:40-51 | The list becomes `Upserted` of the old list. |
| Uploader.UploadProvider.PumpRead | src/providers/uploader.tsx:72-87 | One read applies its chunk's status and then `done` if the reader is done. |
| Uploader.UploadProvider.Pump | src/providers/uploader.tsx:71-89 | The recursive pump applies `PumpTrace` of the stream. |
| Uploader.UploadProvider.UploadFile | src/providers/uploader.tsx:53-91 | Applies `StatusTrace`: `uploading`, then the pump's statuses. The file's item ends with the last. |
| LegacyProcess.TranslateLines | src/lib/doc/process.ts:31-34 | The list translation with the defaults of `translateText`. |
| LegacyProcess.ProcessDocument | src/lib/doc/process.ts:15-79 | `processDocument`: the entry and the source-language row, or the first error, with nothing stored. `ProcessDocumentAgrees` relates it to `Pipeline`. |
| LegacyProcess.ProcessDocumentAgrees | src/lib/doc/process.ts:15-79 | `processDocument` succeeds exactly when the iterator reaches its writes. It returns the same entry and the source-language row, and stores nothing. |
| LegacyProcess.CompletedRun | src/lib/doc/process.ts:93-164 | The block texts (none without `Blocks`) go to translation and the source row. The summary reads `translated.join("\n")` under three retries. The entry has the hash and [source, target]. The two rows are (source, block texts) and (target, translated). |
| LegacyProcess.Pipeline | src/lib/doc/process.ts:90-181 | The older pipeline's run: the failed stage with its error, or the entry and the two rows. `RunStages` and `ProcessDocumentIterator` are proved to follow it, and `CompletedRun` states its data flow. |
| LegacyProcess.RunStages | src/lib/doc/process.ts:93-164 | Stages in this pipeline's order; the run equals `Pipeline`. |
| LegacyProcess.ProcessDocumentIterator | src/lib/doc/process.ts:90-181 | A failure at stage k yields k progress events and writes nothing. On success it yields the five events, then `data`. It makes three writes through the older store functions. Both unique indexes are declared, the receipt is upserted and both rows are stored. |
| LegacyProcess.LegacyRowsSurvive | src/lib/doc/process.ts:152-173 | Both rows are kept when the languages differ. With equal languages the translated row, written last, wins. Every other stored row is unchanged. |
| LegacyProcess.EventsOrder | src/lib/doc/process.ts:97-180 | Analyzing, Translating, Generating embeddings, Summarizing, Storing, then one `data` event, last. |

## Left out

- The network calls themselves are modelled only as parameters, each returning a result or an error. This covers I/O to Textract, Translate, OpenAI, S3 and MongoDB, together with logging and the 2-second sleep before each Textract poll.
- SHA-256, UTF-8 encoding and decoding, and the GPT token counter are also parameters.
- Concurrency: `Promise.all` and `Promise.allSettled` are evaluated in array order.
  - Consequence for the engine: the summary row is written after the translated row, so it wins the shared key (hash, target).
  - Consequence for the older pipeline: the translated row wins when the languages agree.
  - In the source the order of these writes is not fixed.
- Transactions (`receiptScannerTransaction`) are left out, and so are write failures. The model's writes always succeed.
- MongoDB details left out of the collections: `$set` merging and `_id`. The upsert replaces the stored row. `createSearchIndex` and the index administration are also left out.
- ReceiptsStore.StoreReceiptEmbedding: the `$set` merge of an engine row over an older-pipeline row under the same (hash, language) is not modelled; in MongoDB the old row's `embeddings` stays, while the model replaces the row.
- LegacyStore.StoreReceiptEmbedding: likewise, an older-pipeline row written over an engine row keeps `type` and `embedding` in MongoDB; the model replaces the row.
- `queryReceiptEmbeddings` (vector search) and its transaction are the `search` parameter of `Query.GenerateQueryMessage`, returning the ranked results or an error.
- Numbers are integers. JavaScript float formatting (`26.46` in the snapshot) is not modelled.
- Objects are given as their entries in `Object.entries` order. The reordering of integer-like keys is not modelled.
- Flat.FlatJson: of the values JavaScript coerces to text, only `undefined` is modelled. Functions, symbols and bigints are not.
- The p-retry library and the `retry` package under it are not part of this model's sources. Their loop and `mainError()` are modelled from their documented behaviour as `PRetry.Retry` and `PRetry.MainError`. Their immediate stop on a non-`Error` `TypeError` is left out. Attempts are Ok, Fail or Abort by assumption.
- `OpenAi.Client.jsonCompletion` returns the `JSON.parse` result of the answer, or an error for a failed request or content that does not parse. The zod check of `QueryResponseShape` is modelled on top of it, as `Query.ParseQueryResponse` inside `Query.AnswerRun`. The zod check of the receipt record schema (`Schema.Receipt.Record`) is `ReceiptSchema.ParseRecord`, inside `Text.SummaryRun`.
- ReceiptSchema.ParseRecord: a rejected record fails with the message `ZodError: invalid_type` from the first field in schema order whose check fails. zod collects every issue into one `ZodError` message text, which is not modelled. Whether an answer is accepted, and what it becomes, is modelled.
- Query.ParseQueryResponse: it models the shape check only. Other fields are ignored, as `z.object` does.
- Mid-stream errors of the streamed completion, and reader errors in the uploader, are left out. A stream either fails to start or yields all its chunks.
- Uploader: the HTTP request and `JSON.parse` are the `body` and `parse` parameters. React's batching of `setItemList` is treated as immediate updates.

The following inconsistencies exist in the source. The model follows the engine files, not the callers:

- src/app/api/upload/route.ts:10 calls `processDocumentIterator(name, buffer)`, which takes one argument.
- src/lib/engine/text.ts:19 and src/lib/engine/query.ts:3 import `getOpenAIClient` and `createCompletion`, which src/lib/ai/openai.ts does not export in that form.
  - `OpenAi.Client.embed` models `createEmbeddings` on one text.
  - `OpenAi.Client.stream` models the streamed completion.
- The embedding schema in src/lib/db/schema/receipts.ts:4-15 does not match the rows built at src/lib/engine/process.ts:77-89. `Collections.EmbeddingRow` gives each pipeline its own row shape.
- src/lib/doc/process.ts passes the list of block texts to `translateText`, which takes a string, and then calls `.join` on the result.
  - `LegacyProcess.TranslateLines` therefore models a translation service over lists: `translated` is a list like its input.
  - `createEmbeddings` on a list is `OpenAi.Client.embedLines`.
