/** Everything the pipelines reach outside themselves: the service clients,
    the environment variables they read, and the primitives modelled as
    parameters (SHA-256 hashing, UTF-8 encoding and decoding, GPT-2 token
    counting). */
module Platform {
  import opened Common
  import Textract
  import Translate
  import Storage
  import OpenAi

  /** `BUCKET_NAME` and `TRANSLATE_ROLE_ARN`. */
  datatype Env = Env(bucketName: Option<string>, translateRoleArn: Option<string>)

  datatype Services = Services(
    textract: Textract.Service,
    translate: Translate.Service,
    openai: OpenAi.Client,
    s3: Storage.S3,
    env: Env,
    sha256: seq<byte> -> string,
    utf8: string -> seq<byte>,
    decodeUtf8: seq<byte> -> string,
    tokens: string -> nat)
}
