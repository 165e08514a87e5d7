/** src/lib/engine/query.ts: the prompt built from ranked receipts under a
    token budget, the stream of events that answers a query, and the
    single-shot retried answer. */
module Query {
  import opened Common
  import opened PRetry
  import opened Flat
  import opened Collections
  import OpenAi

  // ---------------------------------------------------------------------------
  // The page of one receipt: `{documentNames: names, ...result.receipt}`

  /** A search hit: the document names recorded for it and its receipt
      record, an object given as its entries. */
  datatype SearchResult = SearchResult(documentNames: seq<DocumentName>, receipt: seq<(string, Json)>)

  predicate HasKey(entries: seq<(string, Json)>, k: string)
  {
    exists i :: 0 <= i < |entries| && entries[i].0 == k
  }

  /** The keys of an object are pairwise distinct. */
  predicate DistinctKeys(entries: seq<(string, Json)>)
  {
    forall i, j :: 0 <= i < j < |entries| ==> entries[i].0 != entries[j].0
  }

  /** Property assignment `obj[k] = v`: an existing key keeps its position and
      takes the new value; a new key goes last. */
  function Assign(entries: seq<(string, Json)>, k: string, v: Json): (r: seq<(string, Json)>)
    ensures HasKey(entries, k) ==> |r| == |entries|
    ensures !HasKey(entries, k) ==> r == entries + [(k, v)]
  {
    if |entries| == 0 then [(k, v)]
    else if entries[0].0 == k then [(k, v)] + entries[1..]
    else
      assert HasKey(entries, k) <==> HasKey(entries[1..], k) by {
        if HasKey(entries, k) {
          var i :| 0 <= i < |entries| && entries[i].0 == k;
          assert entries[1..][i - 1] == entries[i];
        }
        if HasKey(entries[1..], k) {
          var i :| 0 <= i < |entries| - 1 && entries[1..][i].0 == k;
          assert entries[i + 1] == entries[1..][i];
        }
      }
      [entries[0]] + Assign(entries[1..], k, v)
  }

  /** Assigning to a present key replaces its value where it stands and
      leaves every other entry as it was. */
  lemma {:induction false} AssignPresent(entries: seq<(string, Json)>, k: string, v: Json)
    requires DistinctKeys(entries) && HasKey(entries, k)
    ensures |Assign(entries, k, v)| == |entries|
    ensures forall i :: 0 <= i < |entries| ==>
              Assign(entries, k, v)[i] == (if entries[i].0 == k then (k, v) else entries[i])
  {
    if entries[0].0 == k {
      assert Assign(entries, k, v) == [(k, v)] + entries[1..];
      forall i | 1 <= i < |entries|
        ensures entries[i].0 != k
      {
        assert entries[0].0 != entries[i].0;
      }
    } else {
      var tail := entries[1..];
      var j :| 0 <= j < |entries| && entries[j].0 == k;
      assert tail[j - 1] == entries[j];
      DistinctSlice(entries, 1, |entries|);
      AssignPresent(tail, k, v);
      assert Assign(entries, k, v) == [entries[0]] + Assign(tail, k, v);
      ConsPointwise(entries, Assign(tail, k, v), Assign(entries, k, v), k, v);
    }
  }

  /** What assignment does to each entry of the tail it also does past a
      first entry of another key, which stays in place. */
  lemma ConsPointwise<K, V>(entries: seq<(K, V)>, rest: seq<(K, V)>, r: seq<(K, V)>, k: K, v: V)
    requires |entries| > 0 && entries[0].0 != k && r == [entries[0]] + rest
    requires |rest| == |entries| - 1
    requires forall i :: 0 <= i < |rest| ==>
              rest[i] == (if entries[1..][i].0 == k then (k, v) else entries[1..][i])
    ensures |r| == |entries|
    ensures forall i :: 0 <= i < |entries| ==>
              r[i] == (if entries[i].0 == k then (k, v) else entries[i])
  {
    forall i | 1 <= i < |entries|
      ensures r[i] == (if entries[i].0 == k then (k, v) else entries[i])
    {
      assert entries[i] == entries[1..][i - 1];
    }
  }

  /** Object spread `{...target, ...source}`: the entries of `source`
      assigned in order onto `target`. */
  function Spread(target: seq<(string, Json)>, source: seq<(string, Json)>): seq<(string, Json)>
    decreases |source|
  {
    if |source| == 0 then target
    else Spread(Assign(target, source[0].0, source[0].1), source[1..])
  }

  lemma {:induction false} SpreadAppend(target: seq<(string, Json)>, a: seq<(string, Json)>, b: seq<(string, Json)>)
    ensures Spread(target, a + b) == Spread(Spread(target, a), b)
    decreases |a|
  {
    if |a| == 0 {
      assert a + b == b;
    } else {
      assert (a + b)[0] == a[0];
      assert (a + b)[1..] == a[1..] + b;
      SpreadAppend(Assign(target, a[0].0, a[0].1), a[1..], b);
    }
  }

  /** Spreading entries whose keys are new appends them. */
  lemma {:induction false} SpreadFresh(target: seq<(string, Json)>, source: seq<(string, Json)>)
    requires DistinctKeys(source)
    requires forall i :: 0 <= i < |source| ==> !HasKey(target, source[i].0)
    ensures Spread(target, source) == target + source
    decreases |source|
  {
    if |source| > 0 {
      var next := target + [source[0]];
      assert Assign(target, source[0].0, source[0].1) == next;
      forall i | 0 <= i < |source| - 1
        ensures !HasKey(next, source[1..][i].0)
      {
        assert source[1..][i] == source[i + 1];
        assert forall m :: 0 <= m < |target| ==> next[m] == target[m];
        assert next[|target|] == source[0];
      }
      SpreadFresh(next, source[1..]);
      assert target + [source[0]] + source[1..] == target + source;
    }
  }

  function NamesJson(names: seq<DocumentName>): (r: Json)
    ensures r.JArr? && |r.items| == |names|
    ensures forall i :: 0 <= i < |names| ==> r.items[i] == JStr(names[i].name)
  {
    JArr(seq(|names|, i requires 0 <= i < |names| => JStr(names[i].name)))
  }

  /** The object a page renders. */
  function PageObject(result: SearchResult): seq<(string, Json)>
  {
    Spread([("documentNames", NamesJson(result.documentNames))], result.receipt)
  }

  /** A receipt without a `documentNames` field follows the names entry,
      field for field. */
  lemma PageObjectNames(result: SearchResult)
    requires DistinctKeys(result.receipt) && !HasKey(result.receipt, "documentNames")
    ensures PageObject(result) == [("documentNames", NamesJson(result.documentNames))] + result.receipt
  {
    var head := [("documentNames", NamesJson(result.documentNames))];
    forall i | 0 <= i < |result.receipt|
      ensures !HasKey(head, result.receipt[i].0)
    {
    }
    SpreadFresh(head, result.receipt);
  }

  lemma DistinctSlice(entries: seq<(string, Json)>, lo: nat, hi: nat)
    requires DistinctKeys(entries) && lo <= hi <= |entries|
    ensures DistinctKeys(entries[lo..hi])
  {
    forall a, b | 0 <= a < b < hi - lo
      ensures entries[lo..hi][a].0 != entries[lo..hi][b].0
    {
      assert entries[lo..hi][a] == entries[lo + a];
      assert entries[lo..hi][b] == entries[lo + b];
    }
  }

  /** The names entry, then the fields before the receipt's own
      `documentNames`. */
  lemma PageObjectBefore(result: SearchResult, j: nat)
    requires DistinctKeys(result.receipt)
    requires j < |result.receipt| && result.receipt[j].0 == "documentNames"
    ensures Spread([("documentNames", NamesJson(result.documentNames))], result.receipt[..j])
         == [("documentNames", NamesJson(result.documentNames))] + result.receipt[..j]
  {
    var receipt := result.receipt;
    var head := [("documentNames", NamesJson(result.documentNames))];
    var pre := receipt[..j];
    forall i | 0 <= i < |pre|
      ensures !HasKey(head, pre[i].0)
    {
      assert pre[i] == receipt[i];
    }
    DistinctSlice(receipt, 0, j);
    SpreadFresh(head, pre);
  }

  /** The receipt's own `documentNames` in first place, then the fields after
      it. */
  lemma PageObjectAfter(receipt: seq<(string, Json)>, j: nat)
    requires DistinctKeys(receipt)
    requires j < |receipt|
    ensures Spread([receipt[j]] + receipt[..j], receipt[j + 1..]) == [receipt[j]] + receipt[..j] + receipt[j + 1..]
  {
    var moved := [receipt[j]] + receipt[..j];
    var post := receipt[j + 1..];
    assert forall m :: 0 < m < |moved| ==> moved[m] == receipt[m - 1];
    forall i | 0 <= i < |post|
      ensures !HasKey(moved, post[i].0)
    {
      assert post[i] == receipt[j + 1 + i];
    }
    DistinctSlice(receipt, j + 1, |receipt|);
    SpreadFresh(moved, post);
  }

  /** A receipt's own `documentNames` field overrides the names, in the first
      position; its other fields follow in their order. */
  lemma PageObjectOverride(result: SearchResult, j: nat)
    requires DistinctKeys(result.receipt)
    requires j < |result.receipt| && result.receipt[j].0 == "documentNames"
    ensures PageObject(result) == [result.receipt[j]] + result.receipt[..j] + result.receipt[j + 1..]
  {
    var receipt := result.receipt;
    var head := [("documentNames", NamesJson(result.documentNames))];
    var rest := [receipt[j]] + receipt[j + 1..];
    assert receipt == receipt[..j] + rest;
    SpreadAppend(head, receipt[..j], rest);
    PageObjectBefore(result, j);
    var before := head + receipt[..j];
    assert Assign(before, receipt[j].0, receipt[j].1) == [receipt[j]] + receipt[..j];
    assert rest[0] == receipt[j] && rest[1..] == receipt[j + 1..];
    PageObjectAfter(receipt, j);
  }

  /** The page of one search result. */
  function Page(result: SearchResult): (r: string)
    ensures |r| >= 4 && r[..2] == "\n\n" && r[|r| - 2..] == "\n\n"
  {
    "\n\n" + FlatJson(JObj(PageObject(result)), 0) + "\n\n"
  }

  function Pages(results: seq<SearchResult>): (r: seq<string>)
    ensures |r| == |results|
    ensures forall i :: 0 <= i < |results| ==> r[i] == Page(results[i])
  {
    seq(|results|, i requires 0 <= i < |results| => Page(results[i]))
  }

  // ---------------------------------------------------------------------------
  // The prompt under a token budget

  const Instruction := "Use the below receipts to answer the subsequent question. If the answer cannot be found in the receipts, please respond with 'I cannot find the answer'."

  /** The default token budget of `generateQueryMessage`. */
  const DefaultTokenBudget: nat := 128_000

  /** The first two parts of every prompt. */
  function Header(query: string): (r: seq<string>)
    ensures |r| == 2 && r[0] == Instruction
  {
    [Instruction, "\n\nQuestion: " + query]
  }

  /** The number of pages kept when pages from `k` on are still to try: the
      first page that would take the prompt over the budget stops the loop. */
  function KeptFrom(header: seq<string>, pages: seq<string>, tokens: string -> nat, budget: nat, k: nat): (r: nat)
    requires k <= |pages|
    ensures k <= r <= |pages|
    decreases |pages| - k
  {
    if k == |pages| || tokens(Concat(header + pages[..k + 1])) > budget then k
    else KeptFrom(header, pages, tokens, budget, k + 1)
  }

  /** The number of ranked pages the prompt keeps. */
  function Kept(header: seq<string>, pages: seq<string>, tokens: string -> nat, budget: nat): nat
  {
    KeptFrom(header, pages, tokens, budget, 0)
  }

  /** The message `generateQueryMessage` returns. */
  function QueryMessage(query: string, results: Option<seq<SearchResult>>, tokens: string -> nat, budget: nat): string
  {
    var pages := Pages(if results.Some? then results.value else []);
    Concat(Header(query) + pages[..Kept(Header(query), pages, tokens, budget)])
  }

  /** The ranked results `generateQueryMessage` searches for: the query's
      embedding, the first vector of the list (`const [{ embedding }] =
      embeddings`), then the vector search; `search` stands for
      `queryReceiptEmbeddings` inside `receiptScannerTransaction`. A failure
      of the embeddings call, an empty list or a failed search rejects. */
  function SearchFor(client: OpenAi.Client, query: string, search: Vector -> Result<Option<seq<SearchResult>>>)
    : (r: Result<Option<seq<SearchResult>>>)
    ensures r.Success? <==> client.embed(query).Success? && |client.embed(query).value| > 0
                            && search(client.embed(query).value[0].embedding).Success?
    ensures client.embed(query).Failure? ==> r == Failure(client.embed(query).error)
    ensures client.embed(query).Success? && |client.embed(query).value| > 0 ==>
              r == search(client.embed(query).value[0].embedding)
  {
    match OpenAi.CreateEmbeddings(client, query)
    case Failure(e) => Failure(e)
    case Success(e) =>
      if |e.embeddings| == 0 then Failure("Cannot destructure property 'embedding' of undefined")
      else search(e.embeddings[0].embedding)
  }

  /** What `generateQueryMessage` resolves to, or its rejection. */
  function MessageFor(client: OpenAi.Client, query: string, search: Vector -> Result<Option<seq<SearchResult>>>,
                      tokens: string -> nat, budget: nat): Result<string>
  {
    match SearchFor(client, query, search)
    case Failure(e) => Failure(e)
    case Success(results) => Success(QueryMessage(query, results, tokens, budget))
  }

  /** `generateQueryMessage(query, tokenBudget)`: the search, then the prompt;
      `tokens` counts the tokens of a text. */
  method GenerateQueryMessage(client: OpenAi.Client, query: string, search: Vector -> Result<Option<seq<SearchResult>>>,
                              tokens: string -> nat, tokenBudget: nat)
    returns (message: Result<string>)
    ensures message == MessageFor(client, query, search, tokens, tokenBudget)
  {
    var results := SearchFor(client, query, search);
    if results.Failure? {
      return Failure(results.error);
    }
    var prompt := AssemblePrompt(query, results.value, tokens, tokenBudget);
    message := Success(prompt);
  }

  /** The loop of `generateQueryMessage` over the ranked results
      (`results ?? []`). */
  method AssemblePrompt(query: string, results: Option<seq<SearchResult>>, tokens: string -> nat, tokenBudget: nat)
    returns (message: string)
    ensures message == QueryMessage(query, results, tokens, tokenBudget)
  {
    var ranked := if results.Some? then results.value else [];
    ghost var header := Header(query);
    ghost var pages := Pages(ranked);
    ghost var kept := Kept(header, pages, tokens, tokenBudget);
    var prompt := Header(query);
    var i := 0;
    while i < |ranked|
      invariant i <= |ranked|
      invariant prompt == header + pages[..i]
      invariant KeptFrom(header, pages, tokens, tokenBudget, i) == kept
    {
      var page := Page(ranked[i]);
      PromptSnoc(header, pages, i);
      if tokens(Concat(prompt + [page])) > tokenBudget {
        assert kept == i;
        break;
      }
      prompt := prompt + [page];
      i := i + 1;
    }
    assert kept == i;
    message := Concat(prompt);
  }

  lemma PromptSnoc<T>(header: seq<T>, pages: seq<T>, i: nat)
    requires i < |pages|
    ensures header + pages[..i + 1] == (header + pages[..i]) + [pages[i]]
  {
    assert pages[..i + 1] == pages[..i] + [pages[i]];
  }

  /** Every kept page passed the check: the prompt up to and including it is
      within the budget. */
  lemma KeptWithinBudget(header: seq<string>, pages: seq<string>, tokens: string -> nat, budget: nat, j: nat)
    requires 1 <= j <= Kept(header, pages, tokens, budget)
    ensures tokens(Concat(header + pages[..j])) <= budget
  {
    KeptFromPasses(header, pages, tokens, budget, 0, j);
  }

  lemma {:induction false} KeptFromPasses(header: seq<string>, pages: seq<string>, tokens: string -> nat, budget: nat, k: nat, j: nat)
    requires k <= |pages| && k < j <= KeptFrom(header, pages, tokens, budget, k)
    ensures tokens(Concat(header + pages[..j])) <= budget
    decreases j - k
  {
    if k + 1 < j {
      KeptFromPasses(header, pages, tokens, budget, k + 1, j);
    }
  }

  /** Assembly stops at the first page that exceeds the budget: no later
      page is tried, even one that would fit. */
  lemma KeptStops(header: seq<string>, pages: seq<string>, tokens: string -> nat, budget: nat)
    ensures var n := Kept(header, pages, tokens, budget);
            n < |pages| ==> tokens(Concat(header + pages[..n + 1])) > budget
  {
    KeptFromStops(header, pages, tokens, budget, 0);
  }

  lemma {:induction false} KeptFromStops(header: seq<string>, pages: seq<string>, tokens: string -> nat, budget: nat, k: nat)
    requires k <= |pages|
    ensures var n := KeptFrom(header, pages, tokens, budget, k);
            n < |pages| ==> tokens(Concat(header + pages[..n + 1])) > budget
    decreases |pages| - k
  {
    if !(k == |pages| || tokens(Concat(header + pages[..k + 1])) > budget) {
      KeptFromStops(header, pages, tokens, budget, k + 1);
    }
  }

  /** The two facts above determine the number of kept pages. */
  lemma KeptUnique(header: seq<string>, pages: seq<string>, tokens: string -> nat, budget: nat, n: nat)
    requires n <= |pages|
    requires forall j :: 1 <= j <= n ==> tokens(Concat(header + pages[..j])) <= budget
    requires n < |pages| ==> tokens(Concat(header + pages[..n + 1])) > budget
    ensures Kept(header, pages, tokens, budget) == n
  {
    KeptFromUnique(header, pages, tokens, budget, 0, n);
  }

  lemma {:induction false} KeptFromUnique(header: seq<string>, pages: seq<string>, tokens: string -> nat, budget: nat, k: nat, n: nat)
    requires k <= n <= |pages|
    requires forall j :: 1 <= j <= n ==> tokens(Concat(header + pages[..j])) <= budget
    requires n < |pages| ==> tokens(Concat(header + pages[..n + 1])) > budget
    ensures KeptFrom(header, pages, tokens, budget, k) == n
    decreases n - k
  {
    if k < n {
      assert tokens(Concat(header + pages[..k + 1])) <= budget;
      KeptFromUnique(header, pages, tokens, budget, k + 1, n);
    }
  }

  /** The message is the header followed by the kept pages, in ranked
      order. */
  lemma QueryMessageShape(query: string, results: Option<seq<SearchResult>>, tokens: string -> nat, budget: nat)
    ensures var pages := Pages(if results.Some? then results.value else []);
            QueryMessage(query, results, tokens, budget)
            == Instruction + ("\n\nQuestion: " + query) + Concat(pages[..Kept(Header(query), pages, tokens, budget)])
  {
    var pages := Pages(if results.Some? then results.value else []);
    var kept := pages[..Kept(Header(query), pages, tokens, budget)];
    ConcatTwo(Instruction, "\n\nQuestion: " + query, kept);
  }

  /** Concatenating two leading parts and the rest. */
  lemma ConcatTwo(x: string, y: string, rest: seq<string>)
    ensures Concat([x, y] + rest) == x + y + Concat(rest)
  {
    var parts := [x, y] + rest;
    assert parts[1..] == [y] + rest;
    assert parts[1..][1..] == rest;
  }

  /** A message with at least one page is within the budget. */
  lemma QueryMessageWithinBudget(query: string, results: Option<seq<SearchResult>>, tokens: string -> nat, budget: nat)
    requires Kept(Header(query), Pages(if results.Some? then results.value else []), tokens, budget) > 0
    ensures tokens(QueryMessage(query, results, tokens, budget)) <= budget
  {
    var pages := Pages(if results.Some? then results.value else []);
    KeptWithinBudget(Header(query), pages, tokens, budget, Kept(Header(query), pages, tokens, budget));
  }

  /** Without search results the message is the header alone. */
  lemma NoResultsMessage(query: string, results: Option<seq<SearchResult>>, tokens: string -> nat, budget: nat)
    requires results.None? || results.value == []
    ensures QueryMessage(query, results, tokens, budget) == Instruction + "\n\nQuestion: " + query
  {
    var pages := Pages(if results.Some? then results.value else []);
    assert pages == [];
    assert Header(query) + pages[..0] == [Instruction, "\n\nQuestion: " + query];
    assert Concat(["\n\nQuestion: " + query]) == "\n\nQuestion: " + query + Concat([]);
  }

  // ---------------------------------------------------------------------------
  // The stream of events

  /** `ExecuteQueryState`. */
  datatype QueryEvent = Processing(message: string) | Delta(delta: string, contentType: string) | Done

  const StreamInstruction := "You answer questions about the receipts provided. Responses should be in markdown format."

  const Markdown := "text/markdown"

  /** A choice's content is skipped when missing or empty. */
  predicate HasContent(c: OpenAi.Choice)
  {
    c.content.Some? && c.content.value != ""
  }

  /** The deltas of the choices of one chunk. */
  function ChoiceEvents(choices: seq<OpenAi.Choice>): (r: seq<QueryEvent>)
    ensures forall k :: 0 <= k < |r| ==> r[k].Delta? && r[k].delta != "" && r[k].contentType == Markdown
    ensures |r| <= |choices|
  {
    if |choices| == 0 then []
    else
      var last := choices[|choices| - 1];
      ChoiceEvents(choices[..|choices| - 1]) + (if HasContent(last) then [Delta(last.content.value, Markdown)] else [])
  }

  /** The deltas of a sequence of chunks. */
  function ChunkEvents(chunks: seq<OpenAi.Chunk>): (r: seq<QueryEvent>)
    ensures forall k :: 0 <= k < |r| ==> r[k].Delta? && r[k].delta != "" && r[k].contentType == Markdown
  {
    if |chunks| == 0 then []
    else ChunkEvents(chunks[..|chunks| - 1]) + ChoiceEvents(chunks[|chunks| - 1].choices)
  }

  const Opening := [Processing("Generating query message..."), Processing("Executing query...")]

  /** The events of a query whose stream yields `chunks`. */
  function StreamEvents(chunks: seq<OpenAi.Chunk>): seq<QueryEvent>
  {
    Opening + Streamed(chunks)
  }

  /** What follows the opening events: a blank `processing` event before the
      first chunk (`sentFirstMessage`), the deltas of every chunk, `done`. */
  function Streamed(chunks: seq<OpenAi.Chunk>): seq<QueryEvent>
  {
    (if |chunks| > 0 then [Processing("")] else []) + ChunkEvents(chunks) + [Done]
  }

  /** The inner loop of `executeQueryIterator`: one delta per choice with
      content, appended to the events so far. */
  method EmitChoices(before: seq<QueryEvent>, choices: seq<OpenAi.Choice>) returns (events: seq<QueryEvent>)
    ensures events == before + ChoiceEvents(choices)
  {
    events := before;
    var j := 0;
    while j < |choices|
      invariant j <= |choices|
      invariant events == before + ChoiceEvents(choices[..j])
    {
      assert choices[..j + 1][..j] == choices[..j];
      if HasContent(choices[j]) {
        events := events + [Delta(choices[j].content.value, Markdown)];
      }
      j := j + 1;
    }
    assert choices[..j] == choices;
  }

  /** The outer loop of `executeQueryIterator` and its final event. */
  method EmitChunks(before: seq<QueryEvent>, chunks: seq<OpenAi.Chunk>) returns (events: seq<QueryEvent>)
    ensures events == before + Streamed(chunks)
  {
    events := before;
    var sentFirstMessage := false;
    ghost var lead: seq<QueryEvent> := [];
    var i := 0;
    while i < |chunks|
      invariant i <= |chunks|
      invariant sentFirstMessage <==> i > 0
      invariant lead == if i > 0 then [Processing("")] else []
      invariant events == before + lead + ChunkEvents(chunks[..i])
    {
      if !sentFirstMessage {
        sentFirstMessage := true;
        events := events + [Processing("")];
        lead := [Processing("")];
      }
      events := EmitChoices(events, chunks[i].choices);
      ChunkEventsSnoc(before + lead, chunks, i);
      i := i + 1;
    }
    assert chunks[..i] == chunks;
    events := events + [Done];
  }

  /** One more chunk appends its deltas. */
  lemma ChunkEventsSnoc(prefix: seq<QueryEvent>, chunks: seq<OpenAi.Chunk>, i: nat)
    requires i < |chunks|
    ensures prefix + ChunkEvents(chunks[..i + 1])
            == (prefix + ChunkEvents(chunks[..i])) + ChoiceEvents(chunks[i].choices)
  {
    assert chunks[..i + 1][..i] == chunks[..i];
  }

  /** `executeQueryIterator(query)`. `events` are the yielded events in order;
      when the completion request fails, the iterator throws after the two
      opening events. */
  method ExecuteQueryIterator(client: OpenAi.Client, query: string, search: Vector -> Result<Option<seq<SearchResult>>>,
                              tokens: string -> nat)
    returns (events: seq<QueryEvent>, res: Result<()>)
    ensures var message := MessageFor(client, query, search, tokens, DefaultTokenBudget);
            message.Failure? ==> events == [Processing("Generating query message...")] && res == Failure(message.error)
    ensures var message := MessageFor(client, query, search, tokens, DefaultTokenBudget);
            message.Success? ==>
              var stream := client.stream(StreamInstruction, message.value);
              && (stream.Failure? ==> events == Opening && res == Failure(stream.error))
              && (stream.Success? ==> events == StreamEvents(stream.value) && res == Success(()))
  {
    events := [Processing("Generating query message...")];
    var message := GenerateQueryMessage(client, query, search, tokens, DefaultTokenBudget);
    if message.Failure? {
      return events, Failure(message.error);
    }
    events := events + [Processing("Executing query...")];
    var stream := client.stream(StreamInstruction, message.value);
    if stream.Failure? {
      return events, Failure(stream.error);
    }
    events := EmitChunks(events, stream.value);
    res := Success(());
  }

  /** Exactly one blank `processing` event, third, and only when the stream
      yields a chunk; the first two are the fixed progress messages and the
      last event is `done`. */
  lemma StreamEventsShape(chunks: seq<OpenAi.Chunk>)
    ensures var ev := StreamEvents(chunks);
            && ev[0] == Processing("Generating query message...")
            && ev[1] == Processing("Executing query...")
            && ev[|ev| - 1] == Done
            && (|chunks| > 0 <==> ev[2] == Processing(""))
            && (forall k :: 0 <= k < |ev| && ev[k].Processing? ==> k < 2 || (k == 2 && |chunks| > 0))
            && (forall k :: 0 <= k < |ev| - 1 && ev[k].Done? ==> false)
  {
    var ev := StreamEvents(chunks);
    var deltas := ChunkEvents(chunks);
    var blank := if |chunks| > 0 then [Processing("")] else [];
    assert ev == Opening + blank + deltas + [Done];
    assert forall k :: 2 + |blank| <= k < |ev| - 1 ==> ev[k] == deltas[k - 2 - |blank|];
  }

  /** The text a choice contributes: its content, or nothing. */
  function ContentText(c: OpenAi.Choice): string
  {
    if c.content.Some? then c.content.value else ""
  }

  function ChoicesText(choices: seq<OpenAi.Choice>): string
  {
    if |choices| == 0 then ""
    else ChoicesText(choices[..|choices| - 1]) + ContentText(choices[|choices| - 1])
  }

  /** The whole streamed answer: every content in chunk and choice order. */
  function StreamText(chunks: seq<OpenAi.Chunk>): string
  {
    if |chunks| == 0 then ""
    else StreamText(chunks[..|chunks| - 1]) + ChoicesText(chunks[|chunks| - 1].choices)
  }

  /** The concatenated texts of delta events. */
  function DeltaText(events: seq<QueryEvent>): string
  {
    if |events| == 0 then ""
    else DeltaText(events[..|events| - 1]) + (if events[|events| - 1].Delta? then events[|events| - 1].delta else "")
  }

  lemma {:induction false} DeltaTextAppend(a: seq<QueryEvent>, b: seq<QueryEvent>)
    ensures DeltaText(a + b) == DeltaText(a) + DeltaText(b)
    decreases |b|
  {
    if |b| == 0 {
      assert a + b == a;
    } else {
      assert (a + b)[..|a + b| - 1] == a + b[..|b| - 1];
      DeltaTextAppend(a, b[..|b| - 1]);
    }
  }

  lemma {:induction false} ChoiceDeltaText(choices: seq<OpenAi.Choice>)
    ensures DeltaText(ChoiceEvents(choices)) == ChoicesText(choices)
  {
    if |choices| > 0 {
      var last := choices[|choices| - 1];
      ChoiceDeltaText(choices[..|choices| - 1]);
      DeltaTextAppend(ChoiceEvents(choices[..|choices| - 1]),
                      if HasContent(last) then [Delta(last.content.value, Markdown)] else []);
      if HasContent(last) {
        assert DeltaText([Delta(last.content.value, Markdown)]) == DeltaText([]) + last.content.value;
      }
    }
  }

  /** Skipping empty contents loses no text: the deltas spell out the whole
      streamed answer. */
  lemma {:induction false} StreamDeltaText(chunks: seq<OpenAi.Chunk>)
    ensures DeltaText(ChunkEvents(chunks)) == StreamText(chunks)
  {
    if |chunks| > 0 {
      StreamDeltaText(chunks[..|chunks| - 1]);
      DeltaTextAppend(ChunkEvents(chunks[..|chunks| - 1]), ChoiceEvents(chunks[|chunks| - 1].choices));
      ChoiceDeltaText(chunks[|chunks| - 1].choices);
    }
  }

  /** One delta per choice with content, in order. */
  lemma {:induction false} ChoiceEventsCount(choices: seq<OpenAi.Choice>)
    ensures |ChoiceEvents(choices)| == |set i | 0 <= i < |choices| && HasContent(choices[i])|
  {
    if |choices| > 0 {
      var n := |choices| - 1;
      var init := choices[..n];
      ChoiceEventsCount(init);
      var s := set i | 0 <= i < |choices| && HasContent(choices[i]);
      var s' := set i | 0 <= i < n && HasContent(init[i]);
      assert s' == set i | 0 <= i < n && HasContent(choices[i]);
      if HasContent(choices[n]) {
        assert s == s' + {n};
      } else {
        assert s == s';
      }
    }
  }

  // ---------------------------------------------------------------------------
  // The single-shot answer

  /** `QueryResponseShape.contentType`. */
  datatype ContentType = TextPlain | TextMarkdown | TextHtml

  function ContentTypeName(c: ContentType): string
  {
    match c
    case TextPlain => "text/plain"
    case TextMarkdown => "text/markdown"
    case TextHtml => "text/html"
  }

  datatype QueryResponse = QueryResponse(response: string, contentType: ContentType)

  function ParseContentType(s: string): (r: Option<ContentType>)
    ensures r.Some? <==> s in {"text/plain", "text/markdown", "text/html"}
    ensures r.Some? ==> ContentTypeName(r.value) == s
  {
    if s == "text/plain" then Some(TextPlain)
    else if s == "text/markdown" then Some(TextMarkdown)
    else if s == "text/html" then Some(TextHtml)
    else None
  }

  /** `QueryResponseShape.parse`: an object whose `response` is a string and
      whose `contentType` is one of the three names (other fields ignored). */
  function ParseQueryResponse(j: Json): (r: Option<QueryResponse>)
    ensures r.Some? ==>
              && j.JObj?
              && Field(j.entries, "response") == Some(JStr(r.value.response))
              && Field(j.entries, "contentType") == Some(JStr(ContentTypeName(r.value.contentType)))
    ensures (&& j.JObj?
             && Field(j.entries, "response").Some? && Field(j.entries, "response").value.JStr?
             && Field(j.entries, "contentType").Some? && Field(j.entries, "contentType").value.JStr?
             && ParseContentType(Field(j.entries, "contentType").value.s).Some?) ==> r.Some?
  {
    if !j.JObj? then None
    else
      match (Field(j.entries, "response"), Field(j.entries, "contentType"))
      case (Some(JStr(response)), Some(JStr(c))) =>
        (match ParseContentType(c)
         case Some(ct) => Some(QueryResponse(response, ct))
         case None => None)
      case _ => None
  }

  const AnswerInstruction := "You answer questions about the receipts provided. Responses preferred in markdown format. contentType is in reference to the response content encoding, prefer markdown."

  const AnswerRetries: nat := 3

  /** Attempt `n` of the answer: a failed request or an answer of the wrong
      shape is an ordinary, retryable error. */
  function AnswerRun(client: OpenAi.Client, message: string): nat -> Attempt<QueryResponse>
  {
    (attempt: nat) =>
      match client.jsonCompletion(AnswerInstruction, message, attempt)
      case Failure(e) => Fail(e)
      case Success(j) =>
        match ParseQueryResponse(j)
        case Some(q) => Ok(q)
        case None => Fail("response does not match QueryResponseShape")
  }

  /** `executeQuery(query)`: the validated answer to the prompt under three
      retries. */
  method ExecuteQuery(client: OpenAi.Client, query: string, search: Vector -> Result<Option<seq<SearchResult>>>,
                       tokens: string -> nat)
    returns (res: Result<QueryResponse>, attempts: nat, failedAttempts: seq<nat>)
    ensures var message := MessageFor(client, query, search, tokens, DefaultTokenBudget);
            message.Failure? ==> res == Failure(message.error) && attempts == 0 && failedAttempts == []
    ensures var message := MessageFor(client, query, search, tokens, DefaultTokenBudget);
            message.Success? ==>
              && Settles(AnswerRun(client, message.value), AnswerRetries, res, attempts, failedAttempts)
              && res == Outcome(AnswerRun(client, message.value), AnswerRetries)
  {
    var message := GenerateQueryMessage(client, query, search, tokens, DefaultTokenBudget);
    if message.Failure? {
      return Failure(message.error), 0, [];
    }
    res, attempts, failedAttempts := Retry(AnswerRun(client, message.value), AnswerRetries);
  }

  /** An answer that settles is the settling attempt's completion, parsed
      as `QueryResponseShape`: a string `response` and one of the three
      content type names. */
  lemma AnswerContentType(client: OpenAi.Client, message: string)
    ensures var res := Outcome(AnswerRun(client, message), AnswerRetries);
            var completion := client.jsonCompletion(AnswerInstruction, message, SettlingAttempt(AnswerRun(client, message), AnswerRetries));
            res.Success? ==>
              && completion.Success?
              && ParseQueryResponse(completion.value) == Some(res.value)
              && ContentTypeName(res.value.contentType) in {"text/plain", "text/markdown", "text/html"}
  {
  }
}
