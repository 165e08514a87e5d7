/** src/lib/storage.ts: the S3 bucket and its two operations, which the
    asynchronous Textract and Translate wrappers use. */
module Storage {
  import opened Common

  const DefaultBucket := "receipt-scanner-analysis-bucket"

  /** `getBucketName()`: `BUCKET_NAME ?? DefaultBucket`. `??` only replaces a
      missing variable, so a set but empty `BUCKET_NAME` is used as it is. */
  function BucketName(env: Option<string>): (r: string)
    ensures env.Some? ==> r == env.value
    ensures env.None? ==> r == DefaultBucket
  {
    match env
    case Some(name) => name
    case None => DefaultBucket
  }

  /** The S3 service: `uploadFile(client, key, bytes)` and
      `getFileContents(client, key)`, each of which may throw. `read(key, n)`
      is the `n`-th read of `key`, so a read that fails once may succeed when
      it is issued again. */
  datatype S3 = S3(upload: (string, seq<byte>) -> Result<()>, read: (string, nat) -> Result<string>)
}
