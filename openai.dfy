/** The OpenAI calls of src/lib/ai/openai.ts, as services: their network
    behaviour is a parameter; only the shapes the pipelines rely on are
    modelled. */
module OpenAi {
  import opened Common
  import opened Flat
  import opened Collections

  /** What `createEmbeddings` returns: the input and the returned items. */
  datatype Embeddings = Embeddings(text: string, embeddings: seq<EmbeddingItem>)

  /** One streamed choice; `content` is `choice.delta.content`. */
  datatype Choice = Choice(content: Option<string>)

  /** One streamed completion chunk. */
  datatype Chunk = Chunk(choices: seq<Choice>)

  /** The client.
      - `embed`: the embeddings of one input text;
      - `embedLines`: the embeddings of a list of texts, one item per text;
      - `jsonCompletion`: the `JSON.parse` of the content the model answers
        to a system prompt and a user prompt, on the given attempt (a failed
        request or content that does not parse is an error). The schema
        check `desiredSchema.parse` follows it: for `QueryResponseShape` it
        is `Query.ParseQueryResponse`, for the receipt record
        `ReceiptSchema.ParseRecord`;
      - `stream`: the chunks of a streamed completion. */
  datatype Client = Client(
    embed: string -> Result<seq<EmbeddingItem>>,
    embedLines: seq<string> -> Result<seq<EmbeddingItem>>,
    jsonCompletion: (string, string, nat) -> Result<Json>,
    stream: (string, string) -> Result<seq<Chunk>>)

  /** `createEmbeddings(client, text)` for one input text. */
  function CreateEmbeddings(client: Client, text: string): (r: Result<Embeddings>)
    ensures r.Success? <==> client.embed(text).Success?
    ensures r.Success? ==> r.value == Embeddings(text, client.embed(text).value)
  {
    match client.embed(text)
    case Success(items) => Success(Embeddings(text, items))
    case Failure(e) => Failure(e)
  }

  /** A completion attempt as p-retry sees it: every error is an ordinary,
      retryable one. */
  function AsAttempt<T>(r: Result<T>): (a: Attempt<T>)
    ensures a.Ok? <==> r.Success?
    ensures a.Ok? ==> a.value == r.value
    ensures !a.Abort?
  {
    match r
    case Success(v) => Ok(v)
    case Failure(e) => Fail(e)
  }
}
