/** src/lib/language/translate.ts: translation to English through AWS
    Translate, synchronously or as an asynchronous batch job over a copy of the
    text in S3. */
module Translate {
  import opened Common
  import opened PRetry
  import Storage

  /** `TranslateTextRequest`. */
  datatype TextRequest = TextRequest(sourceLanguageCode: string, targetLanguageCode: string, text: string)

  /** The optional fields of a `TranslateText` response. */
  datatype TextResponse = TextResponse(translatedText: Option<string>, sourceLanguageCode: Option<string>,
                                       targetLanguageCode: Option<string>)

  /** What both translation functions return. */
  datatype Translation = Translation(sourceLanguage: string, targetLanguage: string, translated: string)

  /** `StartTextTranslationJobRequest`. */
  datatype JobRequest = JobRequest(sourceLanguageCode: string, targetLanguageCodes: seq<string>,
                                   dataAccessRoleArn: string, inputUri: string, contentType: string,
                                   outputUri: string)

  /** The Translate client. `start` yields the optional `JobId`; `describe` is
      the optional `JobStatus` of the given job on the given attempt. */
  datatype Service = Service(
    translate: TextRequest -> Result<TextResponse>,
    start: JobRequest -> Result<Option<string>>,
    describe: (string, nat) -> Result<Option<string>>)

  /** The external calls `translateTextWrapper` makes, in order. */
  datatype Call = Upload(key: string) | StartJob(request: JobRequest) | DescribeJob(jobId: string, attempt: nat)

  const Retries: nat := 5

  /** The request `translateText` sends: detect the source, translate to
      English. */
  function TextRequestFor(text: string): (r: TextRequest)
    ensures r.sourceLanguageCode == "auto" && r.targetLanguageCode == "en" && r.text == text
  {
    TextRequest("auto", "en", text)
  }

  /** The response with its defaults filled in: the input text when no
      translation came back, `"unknown"` for a missing source language and
      `"en"` for a missing target language. */
  function WithDefaults(text: string, response: TextResponse): (r: Translation)
    ensures response.translatedText.None? ==> r.translated == text
    ensures response.translatedText.Some? ==> r.translated == response.translatedText.value
    ensures response.sourceLanguageCode.None? ==> r.sourceLanguage == "unknown"
    ensures response.sourceLanguageCode.Some? ==> r.sourceLanguage == response.sourceLanguageCode.value
    ensures response.targetLanguageCode.None? ==> r.targetLanguage == "en"
    ensures response.targetLanguageCode.Some? ==> r.targetLanguage == response.targetLanguageCode.value
  {
    Translation(
      OrElse(response.sourceLanguageCode, "unknown"),
      OrElse(response.targetLanguageCode, "en"),
      OrElse(response.translatedText, text))
  }

  /** `x ?? fallback`. */
  function OrElse(x: Option<string>, fallback: string): string
  {
    if x.Some? then x.value else fallback
  }

  /** `translateText`: one synchronous call; a thrown error propagates. */
  function TranslateText(client: Service, text: string): (r: Result<Translation>)
    ensures var response := client.translate(TextRequest("auto", "en", text));
            && (response.Failure? ==> r == Failure(response.error))
            && (response.Success? ==> r == Success(WithDefaults(text, response.value)))
  {
    match client.translate(TextRequestFor(text))
    case Failure(e) => Failure(e)
    case Success(response) => Success(WithDefaults(text, response))
  }

  /** `translations/text-<hash>/raw`, the folder the job reads. */
  function SourceFolder(hash: string): string
  {
    "translations/text-" + hash + "/raw"
  }

  /** `<source folder>/text.txt`, where the text is uploaded. */
  function SourceKey(hash: string): string
  {
    SourceFolder(hash) + "/text.txt"
  }

  /** `translations/text-<hash>/output`, where the job writes and whose
      contents are read back. */
  function DestFolder(hash: string): string
  {
    "translations/text-" + hash + "/output"
  }

  /** The uploaded object lies inside the folder the job reads, the output
      folder is a different one, and all three names determine the hash. */
  lemma KeysFromHash(h1: string, h2: string)
    ensures SourceKey(h1)[..|SourceFolder(h1)| + 1] == SourceFolder(h1) + "/"
    ensures SourceFolder(h1) != DestFolder(h2)
    ensures SourceKey(h1) == SourceKey(h2) ==> h1 == h2
    ensures DestFolder(h1) == DestFolder(h2) ==> h1 == h2
  {
    assert SourceFolder(h1)[|SourceFolder(h1)| - 1] == 'w';
    assert DestFolder(h2)[|DestFolder(h2)| - 1] == 't';
    if SourceKey(h1) == SourceKey(h2) {
      assert h1 == SourceKey(h1)[18..|SourceKey(h1)| - 13];
      assert h2 == SourceKey(h2)[18..|SourceKey(h2)| - 13];
    }
    if DestFolder(h1) == DestFolder(h2) {
      assert h1 == DestFolder(h1)[18..|DestFolder(h1)| - 7];
      assert h2 == DestFolder(h2)[18..|DestFolder(h2)| - 7];
    }
  }

  /** The batch job request for the text under `hash`. */
  function JobRequestFor(bucket: string, roleArn: string, hash: string): (r: JobRequest)
    ensures r.sourceLanguageCode == "auto" && r.targetLanguageCodes == ["en"]
    ensures r.dataAccessRoleArn == roleArn && r.contentType == "text/plain"
    ensures r.inputUri == "s3://" + bucket + "/" + SourceFolder(hash)
    ensures r.outputUri == "s3://" + bucket + "/" + DestFolder(hash)
  {
    JobRequest("auto", ["en"], roleArn, "s3://" + bucket + "/" + SourceFolder(hash), "text/plain",
               "s3://" + bucket + "/" + DestFolder(hash))
  }

  /** `!x` on an optional string: missing or empty. */
  predicate Missing(x: Option<string>)
  {
    x.None? || x.value == ""
  }

  /** One attempt of the job-status poll: `COMPLETED` reads the output folder
      and reports it as English from an unknown source (a failed read is an
      ordinary error), `FAILED` ends the retries with an `AbortError`, and a
      failed request or any other status, a missing one included, is an
      ordinary error. */
  function JobOutcome(status: Result<Option<string>>, output: Result<string>): (r: Attempt<Translation>)
    ensures r.Ok? <==> status == Success(Some("COMPLETED")) && output.Success?
    ensures r.Ok? ==> r.value == Translation("unknown", "en", output.value)
    ensures r.Abort? <==> status == Success(Some("FAILED"))
    ensures r.Abort? ==> r.reason == "Text translation failed"
    ensures status.Success? && status.value !in {Some("COMPLETED"), Some("FAILED")}
            ==> r == Fail("Text translation not completed")
  {
    match status
    case Failure(e) => Fail(e)
    case Success(s) =>
      if s == Some("COMPLETED") then
        match output
        case Success(contents) => Ok(Translation("unknown", "en", contents))
        case Failure(e) => Fail(e)
      else if s == Some("FAILED") then Abort("Text translation failed")
      else Fail("Text translation not completed")
  }

  /** Attempt `n` of the poll of job `jobId`, whose output is in `destFolder`;
      each completed attempt reads the folder afresh. */
  function JobRun(client: Service, s3: Storage.S3, jobId: string, destFolder: string): nat -> Attempt<Translation>
  {
    (attempt: nat) => JobOutcome(client.describe(jobId, attempt), s3.read(destFolder, attempt))
  }

  /** The status requests of attempts `1..n`. */
  function Describes(jobId: string, n: nat): (r: seq<Call>)
    ensures |r| == n
    ensures forall i :: 0 <= i < n ==> r[i] == DescribeJob(jobId, i + 1)
  {
    seq(n, i requires 0 <= i < n => DescribeJob(jobId, i + 1))
  }

  /** What `translateTextWrapper` returns or throws: the upload's error, the
      missing-role error, the job start's error, the missing-job-id error, or
      the outcome of the retried poll. */
  function BatchResult(client: Service, s3: Storage.S3, bucketEnv: Option<string>, roleArnEnv: Option<string>,
                       utf8: string -> seq<byte>, hashBuffer: seq<byte> -> string, text: string): Result<Translation>
  {
    var hash := hashBuffer(utf8(text));
    var uploaded := s3.upload(SourceKey(hash), utf8(text));
    if uploaded.Failure? then Failure(uploaded.error)
    else if Missing(roleArnEnv) then Failure("TRANSLATE_ROLE_ARN environment variable not set")
    else
      var started := client.start(JobRequestFor(Storage.BucketName(bucketEnv), roleArnEnv.value, hash));
      if started.Failure? then Failure(started.error)
      else if Missing(started.value) then Failure("Failed to start text translation")
      else Outcome(JobRun(client, s3, started.value.value, DestFolder(hash)), Retries)
  }

  /** `translateTextWrapper`: uploads the UTF-8 bytes of the text under their
      hash, then (only if `TRANSLATE_ROLE_ARN` is set) starts the batch job and
      polls its status under a budget of five retries. `calls` records the
      external calls, `failedAttempts` the attempts logged by
      `onFailedAttempt`. */
  method TranslateTextWrapper(client: Service, s3: Storage.S3, bucketEnv: Option<string>,
                              roleArnEnv: Option<string>, utf8: string -> seq<byte>,
                              hashBuffer: seq<byte> -> string, text: string)
    returns (res: Result<Translation>, calls: seq<Call>, failedAttempts: seq<nat>)
    ensures res == BatchResult(client, s3, bucketEnv, roleArnEnv, utf8, hashBuffer, text)
    ensures var hash := hashBuffer(utf8(text));
            |calls| >= 1 && calls[0] == Upload(SourceKey(hash))
    ensures var hash := hashBuffer(utf8(text));
            var uploaded := s3.upload(SourceKey(hash), utf8(text));
            && (uploaded.Failure? ==> calls == [calls[0]] && res == Failure(uploaded.error) && failedAttempts == [])
            && (uploaded.Success? && Missing(roleArnEnv) ==>
                  calls == [calls[0]] && res == Failure("TRANSLATE_ROLE_ARN environment variable not set")
                  && failedAttempts == [])
    ensures var hash := hashBuffer(utf8(text));
            s3.upload(SourceKey(hash), utf8(text)).Success? && !Missing(roleArnEnv) ==>
              var request := JobRequestFor(Storage.BucketName(bucketEnv), roleArnEnv.value, hash);
              var started := client.start(request);
              && |calls| >= 2 && calls[1] == StartJob(request)
              && (started.Failure? ==> |calls| == 2 && res == Failure(started.error) && failedAttempts == [])
              && (started.Success? && Missing(started.value) ==>
                    |calls| == 2 && res == Failure("Failed to start text translation") && failedAttempts == [])
              && (started.Success? && !Missing(started.value) ==>
                    var jobId := started.value.value;
                    && |calls| >= 3
                    && calls[2..] == Describes(jobId, |calls| - 2)
                    && Settles(JobRun(client, s3, jobId, DestFolder(hash)), Retries, res, |calls| - 2, failedAttempts))
  {
    var buffer := utf8(text);
    var hash := hashBuffer(buffer);
    var sourceFolder := SourceFolder(hash);
    var sourceKey := sourceFolder + "/text.txt";
    var destFolder := DestFolder(hash);
    calls := [Upload(sourceKey)];
    failedAttempts := [];
    var uploaded := s3.upload(sourceKey, buffer);
    if uploaded.Failure? {
      res := Failure(uploaded.error);
      return;
    }
    if Missing(roleArnEnv) {
      res := Failure("TRANSLATE_ROLE_ARN environment variable not set");
      return;
    }
    var bucket := Storage.BucketName(bucketEnv);
    var input := JobRequest("auto", ["en"], roleArnEnv.value, "s3://" + bucket + "/" + sourceFolder, "text/plain",
                            "s3://" + bucket + "/" + destFolder);
    calls := calls + [StartJob(input)];
    var started := client.start(input);
    if started.Failure? {
      res := Failure(started.error);
      return;
    }
    if Missing(started.value) {
      res := Failure("Failed to start text translation");
      return;
    }
    var attempts;
    res, attempts, failedAttempts := Retry(JobRun(client, s3, started.value.value, destFolder), Retries);
    calls := calls + Describes(started.value.value, attempts);
  }
}
