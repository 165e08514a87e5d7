/** src/lib/ocr/textract.ts: OCR through AWS Textract, synchronously or as an
    asynchronous job over a copy of the document in S3. */
module Textract {
  import opened Common
  import opened PRetry
  import Storage

  /** A Textract block; only its optional `Text` matters here. */
  datatype Block = Block(text: Option<string>)

  /** An analysis result: the optional `Blocks` list. */
  datatype Analysis = Analysis(blocks: Option<seq<Block>>)

  /** `AnalyzeDocumentRequest`: the bytes inline and the requested features. */
  datatype AnalyzeRequest = AnalyzeRequest(bytes: seq<byte>, featureTypes: seq<string>)

  /** `StartDocumentAnalysisRequest`: where the document is, the features, and
      where the job writes its output. */
  datatype StartRequest = StartRequest(bucket: string, name: string, featureTypes: seq<string>,
                                       outputBucket: string, outputPrefix: string)

  /** One `GetDocumentAnalysis` response: the optional `JobStatus` and the
      rest of the response. */
  datatype JobPoll = JobPoll(jobStatus: Option<string>, result: Analysis)

  /** The Textract client. `start` yields the optional `JobId`; `poll` is the
      response to the status request of the given job on the given attempt. */
  datatype Service = Service(
    analyze: AnalyzeRequest -> Result<Analysis>,
    start: StartRequest -> Result<Option<string>>,
    poll: (string, nat) -> Result<JobPoll>)

  /** The external calls `documentAnalysisWrapper` makes, in order. */
  datatype Call = Upload(key: string) | StartAnalysis(request: StartRequest) | GetAnalysis(jobId: string, attempt: nat)

  const Features: seq<string> := ["TABLES", "FORMS"]

  const Retries: nat := 10

  /** The request `analyzeDocument` sends. */
  function AnalyzeDocumentRequest(document: seq<byte>): (r: AnalyzeRequest)
    ensures r.bytes == document
    ensures r.featureTypes == ["TABLES", "FORMS"]
  {
    AnalyzeRequest(document, Features)
  }

  /** `analyzeDocument`: one synchronous call with the document inline. */
  function AnalyzeDocument(client: Service, document: seq<byte>): (r: Result<Analysis>)
    ensures r == client.analyze(AnalyzeRequest(document, ["TABLES", "FORMS"]))
  {
    client.analyze(AnalyzeDocumentRequest(document))
  }

  /** `raw/document-<hash>.pdf`. */
  function SourceKey(hash: string): string
  {
    "raw/document-" + hash + ".pdf"
  }

  /** `analysis/document-<hash>/analysis.json`. */
  function DestKey(hash: string): string
  {
    "analysis/document-" + hash + "/analysis.json"
  }

  /** The keys determine the hash: different documents (by hash) never share
      an upload key or an output prefix. */
  lemma KeysDetermineHash(h1: string, h2: string)
    ensures SourceKey(h1) == SourceKey(h2) ==> h1 == h2
    ensures DestKey(h1) == DestKey(h2) ==> h1 == h2
  {
    if SourceKey(h1) == SourceKey(h2) {
      assert h1 == SourceKey(h1)[13..|SourceKey(h1)| - 4];
      assert h2 == SourceKey(h2)[13..|SourceKey(h2)| - 4];
    }
    if DestKey(h1) == DestKey(h2) {
      assert h1 == DestKey(h1)[18..|DestKey(h1)| - 14];
      assert h2 == DestKey(h2)[18..|DestKey(h2)| - 14];
    }
  }

  /** The job request for the document copy under `hash` in `bucket`. */
  function StartRequestFor(bucket: string, hash: string): (r: StartRequest)
    ensures r.bucket == bucket && r.outputBucket == bucket
    ensures r.name == SourceKey(hash) && r.outputPrefix == DestKey(hash)
    ensures r.featureTypes == ["TABLES", "FORMS"]
  {
    StartRequest(bucket, SourceKey(hash), Features, bucket, DestKey(hash))
  }

  /** `!JobId`: a missing or empty job id. */
  function JobIdOf(started: Option<string>): (r: Option<string>)
    ensures r.Some? <==> started.Some? && started.value != ""
    ensures r.Some? ==> r == started
  {
    if started.Some? && started.value != "" then started else None
  }

  /** One attempt of the status poll: a failed request or a missing status is
      an ordinary (retryable) error, `SUCCEEDED` yields the response without
      its status, `FAILED` ends the retries with an `AbortError`, and any other
      status is an ordinary error. */
  function PollOutcome(response: Result<JobPoll>): (r: Attempt<Analysis>)
    ensures r.Ok? <==> response.Success? && response.value.jobStatus == Some("SUCCEEDED")
    ensures r.Ok? ==> r.value == response.value.result
    ensures r.Abort? <==> response.Success? && response.value.jobStatus == Some("FAILED")
    ensures r.Abort? ==> r.reason == "Job failed"
    ensures response.Success? && (response.value.jobStatus.None? || response.value.jobStatus == Some(""))
            ==> r == Fail("Failed to get job status")
    ensures response.Success? && response.value.jobStatus.Some?
            && response.value.jobStatus.value !in {"", "SUCCEEDED", "FAILED"}
            ==> r == Fail("Job not yet complete")
  {
    match response
    case Failure(e) => Fail(e)
    case Success(JobPoll(status, result)) =>
      if status.None? || status.value == "" then Fail("Failed to get job status")
      else if status.value == "SUCCEEDED" then Ok(result)
      else if status.value == "FAILED" then Abort("Job failed")
      else Fail("Job not yet complete")
  }

  /** Attempt `n` of the poll of job `jobId`. */
  function PollRun(client: Service, jobId: string): nat -> Attempt<Analysis>
  {
    (attempt: nat) => PollOutcome(client.poll(jobId, attempt))
  }

  /** The status requests of attempts `1..n`. */
  function Polls(jobId: string, n: nat): (r: seq<Call>)
    ensures |r| == n
    ensures forall i :: 0 <= i < n ==> r[i] == GetAnalysis(jobId, i + 1)
  {
    seq(n, i requires 0 <= i < n => GetAnalysis(jobId, i + 1))
  }

  /** What `documentAnalysisWrapper` returns or throws: the upload's or the
      job start's error, the missing-job-id error, or the outcome of the
      retried poll. */
  function AnalysisJobResult(client: Service, s3: Storage.S3, bucketEnv: Option<string>,
                             hashBuffer: seq<byte> -> string, document: seq<byte>): Result<Analysis>
  {
    var hash := hashBuffer(document);
    var uploaded := s3.upload(SourceKey(hash), document);
    if uploaded.Failure? then Failure(uploaded.error)
    else
      var started := client.start(StartRequestFor(Storage.BucketName(bucketEnv), hash));
      if started.Failure? then Failure(started.error)
      else if JobIdOf(started.value).None? then Failure("Failed to start document analysis")
      else Outcome(PollRun(client, started.value.value), Retries)
  }

  /** `documentAnalysisWrapper`: uploads the document under its hash, starts
      the analysis job on that copy, then polls its status under a budget of
      ten retries. `calls` records the external calls, `failedAttempts` the
      attempts logged by `onFailedAttempt`. */
  method DocumentAnalysisWrapper(client: Service, s3: Storage.S3, bucketEnv: Option<string>,
                                 hashBuffer: seq<byte> -> string, document: seq<byte>)
    returns (res: Result<Analysis>, calls: seq<Call>, failedAttempts: seq<nat>)
    ensures res == AnalysisJobResult(client, s3, bucketEnv, hashBuffer, document)
    ensures var hash := hashBuffer(document);
            |calls| >= 1 && calls[0] == Upload(SourceKey(hash))
    ensures var uploaded := s3.upload(SourceKey(hashBuffer(document)), document);
            uploaded.Failure? ==> calls == [calls[0]] && res == Failure(uploaded.error) && failedAttempts == []
    ensures var hash := hashBuffer(document);
            var request := StartRequestFor(Storage.BucketName(bucketEnv), hash);
            var started := client.start(request);
            s3.upload(SourceKey(hash), document).Success? ==>
              && |calls| >= 2 && calls[1] == StartAnalysis(request)
              && (started.Failure? ==> |calls| == 2 && res == Failure(started.error) && failedAttempts == [])
              && (started.Success? && JobIdOf(started.value).None? ==>
                    |calls| == 2 && res == Failure("Failed to start document analysis") && failedAttempts == [])
              && (started.Success? && JobIdOf(started.value).Some? ==>
                    var jobId := started.value.value;
                    && |calls| >= 3
                    && calls[2..] == Polls(jobId, |calls| - 2)
                    && Settles(PollRun(client, jobId), Retries, res, |calls| - 2, failedAttempts))
  {
    var hash := hashBuffer(document);
    var sourceKey := SourceKey(hash);
    var destKey := DestKey(hash);
    calls := [Upload(sourceKey)];
    failedAttempts := [];
    var uploaded := s3.upload(sourceKey, document);
    if uploaded.Failure? {
      res := Failure(uploaded.error);
      return;
    }
    var bucket := Storage.BucketName(bucketEnv);
    var input := StartRequest(bucket, sourceKey, Features, bucket, destKey);
    calls := calls + [StartAnalysis(input)];
    var started := client.start(input);
    if started.Failure? {
      res := Failure(started.error);
      return;
    }
    var jobId := JobIdOf(started.value);
    if jobId.None? {
      res := Failure("Failed to start document analysis");
      return;
    }
    var attempts;
    res, attempts, failedAttempts := Retry(PollRun(client, jobId.value), Retries);
    calls := calls + Polls(jobId.value, attempts);
  }
}
