/** The retrieval-augmented pipeline of `api/server/services/HakiService.js`: the
    environment schema checked at load time, the lazily created vector-index client,
    `combineDocuments`, and the records handed from stage to stage by the chain that
    `buildHakiChain` assembles. The language model, the embeddings, the vector store and
    the retriever are foreign libraries; the chain's stages that call them are
    parameters of the model. */
module Service {
  import opened Wrappers
  import opened Strings

  // ---------------------------------------------------------------------------
  // Environment schema
  // ---------------------------------------------------------------------------

  const OPENAI_API_KEY := "OPENAI_API_KEY"
  const PINECONE_API_KEY := "PINECONE_API_KEY"
  const PINECONE_INDEX_NAME := "PINECONE_INDEX_NAME"

  /** The three process variables as read at load time; `None` is an unset variable. */
  datatype RawEnv = RawEnv(
    openAIApiKey: Option<string>,
    pineconeApiKey: Option<string>,
    pineconeIndexName: Option<string>)

  /** The configuration the handler reads. `ParseEnv` yields one only with every value
      trimmed and non-empty; the type itself does not enforce it. */
  datatype Env = Env(openAIApiKey: string, pineconeApiKey: string, pineconeIndexName: string)

  /** Why a key was refused: it was unset (not a string), or blank after trimming. */
  datatype IssueCode = InvalidType | TooSmall

  datatype Issue = Issue(path: string, code: IssueCode)

  /** A variable the schema accepts: set, and not only whitespace. */
  predicate NonBlank(v: Option<string>) {
    v.Some? && HasNonWhitespace(v.value)
  }

  /** One `z.string().trim().min(1)` field: the trimmed value, or the issue raised for it. */
  function ParseField(path: string, v: Option<string>): (r: Result<string, Issue>)
    ensures r.Success? <==> NonBlank(v)
    ensures r.Success? ==> r.value == Trim(v.value) && r.value != ""
    ensures r.Failure? ==> r.error.path == path
    ensures r.Failure? ==> (r.error.code == InvalidType <==> v.None?)
  {
    match v
    case None => Failure(Issue(path, InvalidType))
    case Some(s) =>
      var t := Trim(s);
      if |t| >= 1 then Success(t) else Failure(Issue(path, TooSmall))
  }

  function IssuesOf(r: Result<string, Issue>): seq<Issue> {
    if r.Failure? then [r.error] else []
  }

  /** Some issue in the list concerns `path`. */
  predicate Mentions(issues: seq<Issue>, path: string) {
    exists j :: 0 <= j < |issues| && issues[j].path == path
  }

  /** `envSchema.parse(...)`: succeeds exactly when all three variables are set and not
      blank, yielding the trimmed values; otherwise it fails with the issues of the
      refused keys, in the schema's key order. */
  function ParseEnv(raw: RawEnv): (r: Result<Env, seq<Issue>>)
    ensures r.Success? <==>
            NonBlank(raw.openAIApiKey) && NonBlank(raw.pineconeApiKey) && NonBlank(raw.pineconeIndexName)
    ensures r.Success? ==>
            r.value == Env(Trim(raw.openAIApiKey.value), Trim(raw.pineconeApiKey.value),
                           Trim(raw.pineconeIndexName.value))
    ensures r.Failure? ==> 1 <= |r.error| <= 3
  {
    var a := ParseField(OPENAI_API_KEY, raw.openAIApiKey);
    var b := ParseField(PINECONE_API_KEY, raw.pineconeApiKey);
    var c := ParseField(PINECONE_INDEX_NAME, raw.pineconeIndexName);
    if a.Success? && b.Success? && c.Success? then
      Success(Env(a.value, b.value, c.value))
    else
      Failure(IssuesOf(a) + IssuesOf(b) + IssuesOf(c))
  }

  lemma MentionsAppend(a: seq<Issue>, b: seq<Issue>, path: string)
    ensures Mentions(a + b, path) <==> Mentions(a, path) || Mentions(b, path)
  {
    if Mentions(a + b, path) {
      var j :| 0 <= j < |a + b| && (a + b)[j].path == path;
      if j >= |a| {
        assert b[j - |a|].path == path;
      }
    }
    if Mentions(a, path) {
      var j :| 0 <= j < |a| && a[j].path == path;
      assert (a + b)[j].path == path;
    }
    if Mentions(b, path) {
      var j :| 0 <= j < |b| && b[j].path == path;
      assert (a + b)[|a| + j].path == path;
    }
  }

  lemma FieldMentions(key: string, v: Option<string>, path: string)
    ensures Mentions(IssuesOf(ParseField(key, v)), path) <==> path == key && !NonBlank(v)
  {
    var r := ParseField(key, v);
    if r.Failure? { assert IssuesOf(r)[0].path == key; }
  }

  /** The issues of a rejected environment concern exactly the refused keys. */
  lemma ParseEnvMentions(raw: RawEnv, path: string)
    requires ParseEnv(raw).Failure?
    ensures Mentions(ParseEnv(raw).error, path) <==>
            || (path == OPENAI_API_KEY && !NonBlank(raw.openAIApiKey))
            || (path == PINECONE_API_KEY && !NonBlank(raw.pineconeApiKey))
            || (path == PINECONE_INDEX_NAME && !NonBlank(raw.pineconeIndexName))
  {
    var a := IssuesOf(ParseField(OPENAI_API_KEY, raw.openAIApiKey));
    var b := IssuesOf(ParseField(PINECONE_API_KEY, raw.pineconeApiKey));
    var c := IssuesOf(ParseField(PINECONE_INDEX_NAME, raw.pineconeIndexName));
    assert ParseEnv(raw).error == a + b + c;
    MentionsAppend(a + b, c, path);
    MentionsAppend(a, b, path);
    FieldMentions(OPENAI_API_KEY, raw.openAIApiKey, path);
    FieldMentions(PINECONE_API_KEY, raw.pineconeApiKey, path);
    FieldMentions(PINECONE_INDEX_NAME, raw.pineconeIndexName, path);
  }

  /** A rejected environment names every refused key and no accepted one. */
  lemma ParseEnvNamesRefusedKeys(raw: RawEnv)
    requires !NonBlank(raw.openAIApiKey) || !NonBlank(raw.pineconeApiKey) || !NonBlank(raw.pineconeIndexName)
    ensures ParseEnv(raw).Failure?
    ensures Mentions(ParseEnv(raw).error, OPENAI_API_KEY) <==> !NonBlank(raw.openAIApiKey)
    ensures Mentions(ParseEnv(raw).error, PINECONE_API_KEY) <==> !NonBlank(raw.pineconeApiKey)
    ensures Mentions(ParseEnv(raw).error, PINECONE_INDEX_NAME) <==> !NonBlank(raw.pineconeIndexName)
  {
    assert OPENAI_API_KEY != PINECONE_API_KEY && PINECONE_API_KEY != PINECONE_INDEX_NAME
        && PINECONE_INDEX_NAME != OPENAI_API_KEY;
    ParseEnvMentions(raw, OPENAI_API_KEY);
    ParseEnvMentions(raw, PINECONE_API_KEY);
    ParseEnvMentions(raw, PINECONE_INDEX_NAME);
  }

  // ---------------------------------------------------------------------------
  // Pinecone singleton
  // ---------------------------------------------------------------------------

  /** The vector-index client; only the key it is built with matters here. */
  class PineconeClient {
    const apiKey: string

    constructor (apiKey: string)
      ensures this.apiKey == apiKey
    {
      this.apiKey := apiKey;
    }
  }

  /** The module-level state: the validated `env` and the nullable `pineconeInstance`.
      `constructions` counts the clients ever built. */
  class PineconeHolder {
    const env: Env
    var pineconeInstance: PineconeClient?
    ghost var constructions: nat

    ghost predicate Valid()
      reads this
    {
      && constructions <= 1
      && (pineconeInstance == null <==> constructions == 0)
      && (pineconeInstance != null ==> pineconeInstance.apiKey == env.pineconeApiKey)
    }

    constructor (env: Env)
      ensures Valid()
      ensures this.env == env && pineconeInstance == null && constructions == 0
    {
      this.env := env;
      pineconeInstance := null;
      constructions := 0;
    }

    /** `getPinecone()`: builds the client with the Pinecone key on the first call and
        hands back that same client on every call. */
    method GetPinecone() returns (client: PineconeClient)
      requires Valid()
      modifies this
      ensures Valid()
      ensures pineconeInstance == client && client.apiKey == env.pineconeApiKey
      ensures old(pineconeInstance) != null ==> client == old(pineconeInstance) && constructions == old(constructions)
      ensures old(pineconeInstance) == null ==> fresh(client) && constructions == 1
    {
      if pineconeInstance == null {
        pineconeInstance := new PineconeClient(env.pineconeApiKey);
        constructions := constructions + 1;
      }
      client := pineconeInstance;
    }
  }

  /** Two calls share one client, and at most one is ever constructed. */
  method GetPineconeTwice(holder: PineconeHolder) returns (first: PineconeClient, second: PineconeClient)
    requires holder.Valid()
    modifies holder
    ensures holder.Valid() && holder.constructions <= 1
    ensures first == second == holder.pineconeInstance
    ensures old(holder.pineconeInstance) != null ==> first == old(holder.pineconeInstance)
  {
    first := holder.GetPinecone();
    second := holder.GetPinecone();
  }

  // ---------------------------------------------------------------------------
  // Documents and the chain's records
  // ---------------------------------------------------------------------------

  /** A retrieved chunk; only its text is read. */
  datatype Document = Document(pageContent: string)

  /** The documents' texts, in the retriever's order. */
  function PageContents(docs: seq<Document>): seq<string> {
    seq(|docs|, i requires 0 <= i < |docs| => docs[i].pageContent)
  }

  const DOCUMENT_SEPARATOR := "\n\n"

  /** `combineDocuments(docs)`: the page contents joined by blank lines. */
  function CombineDocuments(docs: seq<Document>): string {
    Join(PageContents(docs), DOCUMENT_SEPARATOR)
  }

  /** No documents give the empty context, and one document gives its text unchanged. */
  lemma CombineDocumentsSmall(docs: seq<Document>)
    ensures |docs| == 0 ==> CombineDocuments(docs) == ""
    ensures |docs| == 1 ==> CombineDocuments(docs) == docs[0].pageContent
  {
  }

  /** Total length of the page contents. */
  function ContentLength(docs: seq<Document>): nat {
    SumLengths(PageContents(docs))
  }

  /** The context is the documents' text plus a two-character separator between each
      neighbouring pair, and nothing else. */
  lemma CombineDocumentsLength(docs: seq<Document>)
    ensures |CombineDocuments(docs)| ==
            if |docs| == 0 then 0 else ContentLength(docs) + 2 * (|docs| - 1)
  {
    JoinLength(PageContents(docs), DOCUMENT_SEPARATOR);
  }

  /** A further document lands after a blank line at the end: the retriever's order is kept. */
  lemma CombineDocumentsAppend(docs: seq<Document>, d: Document)
    requires |docs| >= 1
    ensures CombineDocuments(docs + [d]) == CombineDocuments(docs) + "\n\n" + d.pageContent
  {
    assert PageContents(docs + [d]) == PageContents(docs) + [d.pageContent];
    JoinSnoc(PageContents(docs), d.pageContent, DOCUMENT_SEPARATOR);
  }

  /** The chain's input, `{ question, chatHistory }`. */
  datatype ChainInput = ChainInput(question: string, chatHistory: string)

  /** The first stage's record, `{ standalone_question, original_input }`. */
  datatype Condensed = Condensed(standaloneQuestion: string, originalInput: ChainInput)

  /** The record the answer stage receives, `{ context, question, standalone_question }`. */
  datatype AnswerInput = AnswerInput(context: string, question: string, standaloneQuestion: string)

  /** What a streamed generation yields: the chunks produced, then either normal
      completion (`None`) or the message of the error that ended it. */
  datatype Stream = Stream(chunks: seq<string>, failure: Option<string>)

  /** The foreign parts of the chain: the standalone-question chain (prompt, model and
      string parser), the retriever over the vector store, and the answer chain. */
  datatype Stages = Stages(
    standaloneQuestion: ChainInput -> Result<string, string>,
    retrieve: string -> Result<seq<Document>, string>,
    answer: AnswerInput -> Stream)

  /** The first step: the standalone question beside the untouched input. */
  function Condense(input: ChainInput, stages: Stages): Result<Condensed, string> {
    match stages.standaloneQuestion(input)
    case Success(s) => Success(Condensed(s, input))
    case Failure(e) => Failure(e)
  }

  /** The second step: the context retrieved for the standalone question, with the
      original question carried forward. */
  function Retrieve(prev: Condensed, stages: Stages): Result<AnswerInput, string> {
    match stages.retrieve(prev.standaloneQuestion)
    case Success(docs) => Success(AnswerInput(CombineDocuments(docs), prev.originalInput.question, prev.standaloneQuestion))
    case Failure(e) => Failure(e)
  }

  /** The first step consults the standalone-question chain and nothing else: stages
      that agree on it for this input condense alike, whatever their retriever and
      answer chain. */
  lemma CondenseConsultsOnlyStandalone(input: ChainInput, a: Stages, b: Stages)
    requires a.standaloneQuestion(input) == b.standaloneQuestion(input)
    ensures Condense(input, a) == Condense(input, b)
  {
  }

  /** The second step ignores the chat history and consults the retriever only on the
      standalone question: records that share the standalone and the original question,
      under retrievers that agree on that standalone question, give the same result. */
  lemma RetrieveIgnoresHistory(p: Condensed, q: Condensed, a: Stages, b: Stages)
    requires p.standaloneQuestion == q.standaloneQuestion
    requires p.originalInput.question == q.originalInput.question
    requires a.retrieve(p.standaloneQuestion) == b.retrieve(p.standaloneQuestion)
    ensures Retrieve(p, a) == Retrieve(q, b)
  {
  }

  /** `chain.stream(input)` on a chain that `buildHakiChain` has built (the vector store
      is already open): the first two steps run to completion, then the answer chain
      streams; a failure in either earlier step surfaces before any chunk. */
  function StreamChain(input: ChainInput, stages: Stages): Stream {
    match Condense(input, stages)
    case Failure(e) => Stream([], Some(e))
    case Success(prev) =>
      match Retrieve(prev, stages)
      case Failure(e) => Stream([], Some(e))
      case Success(record) => stages.answer(record)
  }

  /** The answer stage is asked the ORIGINAL question, with the context retrieved for
      the STANDALONE question (which the retriever, not the answer, sees). */
  lemma AnswerStageRecord(input: ChainInput, stages: Stages)
    requires stages.standaloneQuestion(input).Success?
    requires stages.retrieve(stages.standaloneQuestion(input).value).Success?
    ensures var standalone := stages.standaloneQuestion(input).value;
            var docs := stages.retrieve(standalone).value;
            StreamChain(input, stages) == stages.answer(AnswerInput(CombineDocuments(docs), input.question, standalone))
  {
  }

  /** An error in the first two steps ends the stream before any chunk, carrying that
      step's message; the answer chain is never asked. */
  lemma EarlyFailureYieldsNoChunks(input: ChainInput, stages: Stages)
    ensures stages.standaloneQuestion(input).Failure? ==>
            StreamChain(input, stages) == Stream([], Some(stages.standaloneQuestion(input).error))
    ensures stages.standaloneQuestion(input).Success? &&
            stages.retrieve(stages.standaloneQuestion(input).value).Failure? ==>
            StreamChain(input, stages) ==
            Stream([], Some(stages.retrieve(stages.standaloneQuestion(input).value).error))
  {
  }

  /** The chat history reaches the answer only through the standalone question: two
      inputs with the same question and the same standalone question stream alike. */
  lemma HistoryOnlyThroughStandalone(a: ChainInput, b: ChainInput, stages: Stages)
    requires a.question == b.question
    requires stages.standaloneQuestion(a) == stages.standaloneQuestion(b)
    ensures StreamChain(a, stages) == StreamChain(b, stages)
  {
  }
}
