# HakiOne chat endpoint: a Dafny model

HakiOne serves a legal-assistant chat endpoint shaped like OpenAI's chat-completions API.
A request passes a bearer-token check (`requireApiKey`). Then `hakiController` either:

- rejects it (no messages),
- answers a one-shot title completion (model `haki-title`), or
- streams the answer of a retrieval-augmented chain as server-sent events.

The chain is assembled by `buildHakiChain`. It condenses the chat history and the question
into a standalone question, retrieves documents for that question from a Pinecone index,
joins them with `combineDocuments`, and asks the answer model the original question with
that context.

This project models that logic. The OpenAI, LangChain and Pinecone calls are parameters:

- a title model `string -> Result<string, string>`;
- a chain `ChainInput -> Stream`, where a `Stream` is the chunks produced followed by
  normal completion or an error message;
- in `Service.Stages`, the standalone-question chain, the retriever and the answer chain.

Modules, one per source file, plus two helpers:

- `Wrappers`: `Option` (an absent value) and `Result` (a value or a thrown error).
- `Strings`: the JavaScript string operations used: `join`, one-character `split` (a proof
  device for "one line per message"), concatenation, and `trim` with the ECMAScript
  whitespace set.
- `Service` (`HakiService.js`):
  - the zod environment schema, as `ParseEnv`;
  - the lazily built Pinecone client, as class `PineconeHolder` with a nullable
    `pineconeInstance` field;
  - `CombineDocuments`;
  - the records passed between the chain's stages (`Condensed`, `AnswerInput`), and
    `StreamChain`, which composes the stages.
- `Controller` (`HakiController.js`):
  - `FormatHistory`;
  - class `Response`, the Express response: status, headers, `headersSent`, the JSON body,
    the frames written, and `ended`. The headers go out with the first `write`, `json` or
    `end`;
  - the imperative handler `HakiController`, with its `for await` loop as a `while` loop;
  - the pure function `Respond`, which gives the handler's final state. The handler is
    proved to reach exactly that state, and the lemmas about `Respond` state what the
    endpoint promises.
- `Routes` (`routes/haki.js`): `ApiKey` and `RequireApiKey`.

The model follows the code as written. In particular:

- In title mode a failing title model reaches the catch block and gets the 500 error
  reply; no fallback title is produced.
- The stream is one chunk frame per chunk, then `data: [DONE]`. No role frame and no
  frame with `finish_reason: "stop"` is written.
- The reply is always streamed outside title mode; the body's `stream` field is not read.
- The handler reads only `messages` and `model` from the body, and the router defines
  only the chat route.
- The development key `dev-haki-key` is the fallback when `HAKI_API_KEY` is unset or empty.

One consequence of the code as written: if the chain fails before its first chunk, the 500
JSON reply goes out under the `Content-Type: text/event-stream` header the handler had
already set (`Controller.StreamModeFailure`).

## Model

| member | source | states |
|---|---|---|
| `Controller.RenderLineRole` | api/server/controllers/HakiController.js:10-11 | a history line starts with `Human: ` exactly when the role is `'user'`; for every other role it is `AI: ` followed by the content |
| `Controller.RenderLineKeepsNewlines` | api/server/controllers/HakiController.js:11 | a history line holds a newline exactly when its content does |
| `Controller.FormatHistoryIgnoresLast` | api/server/controllers/HakiController.js:7 | the last message never affects the history: histories of `ms + [a]` and `ms + [b]` are equal |
| `Controller.FormatHistoryShort` | api/server/controllers/HakiController.js:7-13 | zero or one message give the empty history |
| `Controller.FormatHistoryEnds` | api/server/controllers/HakiController.js:8-13 | the history starts with the first message's line and ends with the line of the message before the last, so no separator trails it (a newline inside that message's content can still end it) |
| `Controller.FormatHistoryLines` | api/server/controllers/HakiController.js:8-13 | when no message before the last holds a newline in its content, splitting the history at `\n` gives exactly n-1 lines, in message order, each `Human: `/`AI: ` plus the content |
| `Controller.FormatHistoryPair` | api/server/controllers/HakiController.js:7-13 | two messages give exactly the first message's line: the current question never enters the history |
| `Controller.FormatHistoryGrows` | api/server/controllers/HakiController.js:8-13 | adding a message appends `\n` and the previous last message's line: order is kept |
| `Controller.FrameText` | api/server/controllers/HakiController.js:95-99 | the wire text of one frame starts with `data: ` and ends with a blank line (`\n\n`) |
| `Controller.WireTextAppend` | api/server/controllers/HakiController.js:95-99 | the wire text of frames written one after another is the concatenation of their texts |
| `Controller.StreamModeWireText` | api/server/controllers/HakiController.js:80-100 | on the wire, a completed stream opens with `data: ` and closes with `data: [DONE]` and a blank line, whatever the JSON serialiser |
| `Controller.DeltasOfChunkFrames` | api/server/controllers/HakiController.js:80-96 | the deltas of the chunk frames concatenate to the concatenation of the chunks |
| `Controller.Response.constructor` | api/server/controllers/HakiController.js:16 | the response the handler receives: status 200, no headers, nothing sent |
| `Controller.Response.Status` | api/server/controllers/HakiController.js:24 | `res.status` changes only the status code |
| `Controller.Response.SetHeader` | api/server/controllers/HakiController.js:69-71 | `res.setHeader` adds one header and is allowed only before the headers go out |
| `Controller.Response.Json` | api/server/controllers/HakiController.js:49-61 | `res.json` sends the headers and the body, and ends the response |
| `Controller.Response.Write` | api/server/controllers/HakiController.js:95 | `res.write` sends the headers and appends exactly one frame |
| `Controller.Response.End` | api/server/controllers/HakiController.js:100 | `res.end` ends the response and marks the headers sent; nothing else changes |
| `Controller.HandleError` | api/server/controllers/HakiController.js:101-117 | the catch block: a 500 JSON reply if the headers are unsent, else one error frame and the end |
| `Controller.HakiController` | api/server/controllers/HakiController.js:16-118 | the handler leaves the response in exactly the state `Respond` gives and reports the call it made; the loop writes one frame per chunk, and the headers are sent from the first write on |
| `Controller.NoMessagesRejected` | api/server/controllers/HakiController.js:23-25 | status 400 exactly when `messages` is missing or empty; then the body is `{error: 'No messages provided'}`, nothing is streamed, and no model or chain is called: the reply is the same under any title model and any chain |
| `Controller.TitleModeCompletion` | api/server/controllers/HakiController.js:28-61 | when the title model succeeds, title mode replies 200 with one `chat.completion` from `haki-title`: a single choice, index 0, role `assistant`, finish reason `stop`, content the title generated from the last message's content |
| `Controller.TitleModeUsesLastContentOnly` | api/server/controllers/HakiController.js:28-62 | in title mode the reply depends on the request only through the last message's content, and not on the chain; a failing title model gives the 500 internal-error reply, with no fallback title |
| `Controller.StreamModeChainInput` | api/server/controllers/HakiController.js:64-78 | outside title mode the chain is asked the last message's content as question, with `formatHistory(messages)` as history; the title model is never consulted |
| `Controller.StreamModeAnswerStage` | api/server/controllers/HakiController.js:64-78 | with the chain that `buildHakiChain` builds, the answer stage gets the last message's content and the context retrieved for the standalone question |
| `Controller.StreamModeFrames` | api/server/controllers/HakiController.js:80-100 | a completed stream writes one `chat.completion.chunk` frame per chunk, in order (model `haki-legal`, delta = chunk, index 0, finish reason null), then exactly one `[DONE]` as the last frame, and ends; the deltas concatenate to the chunks |
| `Controller.StreamModeFailure` | api/server/controllers/HakiController.js:101-116 | a chain error before any chunk gives 500 with `Internal Server Error in Haki Chain: <message>` and type `internal_server_error`; after k>0 chunks it appends one error frame, with no `[DONE]`, and ends |
| `Controller.AlwaysEnds` | api/server/controllers/HakiController.js:16-118 | every branch sends the headers and ends the response |
| `Service.ParseField` | api/server/services/HakiService.js:13-15 | one `z.string().trim().min(1)` field accepts exactly a set value with a non-whitespace character, yields the trimmed value, and reports an unset value as an invalid type |
| `Service.ParseEnv` | api/server/services/HakiService.js:12-23 | the environment is accepted exactly when all three keys are set and non-blank after trimming; the values kept are the trimmed ones |
| `Service.ParseEnvMentions` | api/server/services/HakiService.js:12-23 | the issues of a rejected environment concern exactly the refused keys |
| `Service.ParseEnvNamesRefusedKeys` | api/server/services/HakiService.js:12-23 | a rejected environment names each refused key and no accepted one |
| `Service.PineconeHolder.constructor` | api/server/services/HakiService.js:26 | at load time no client exists |
| `Service.PineconeHolder.GetPinecone` | api/server/services/HakiService.js:28-33 | the first call builds the client with the Pinecone key; later calls return that same instance; at most one client is ever built |
| `Service.GetPineconeTwice` | api/server/services/HakiService.js:28-33 | two calls return the same instance, and at most one construction happens |
| `Service.CombineDocumentsSmall` | api/server/services/HakiService.js:81-83 | no documents give `""`, and one document gives its content unchanged |
| `Service.CombineDocumentsLength` | api/server/services/HakiService.js:82 | the context length is the sum of the content lengths plus 2·(n-1) for n ≥ 1 |
| `Service.CombineDocumentsAppend` | api/server/services/HakiService.js:82 | a further document is appended after `\n\n`: the retriever's order is kept |
| `Service.CondenseConsultsOnlyStandalone` | api/server/services/HakiService.js:104-107 | the first stage consults only the standalone-question chain: stages that agree on it for the input condense alike, whatever their retriever and answer chain |
| `Service.RetrieveIgnoresHistory` | api/server/services/HakiService.js:95-120 | the second stage ignores the chat history and asks the retriever only about the standalone question: equal questions and retrievers agreeing there give equal results |
| `Service.AnswerStageRecord` | api/server/services/HakiService.js:103-122 | the answer stage is asked the original question, with the context for the standalone question |
| `Service.EarlyFailureYieldsNoChunks` | api/server/services/HakiService.js:103-122 | a failure of the standalone or the retrieval stage ends the stream before any chunk, with that stage's error |
| `Service.HistoryOnlyThroughStandalone` | api/server/services/HakiService.js:104-119 | the chat history reaches the answer only through the standalone question |
| `Strings.TrimStart` | api/server/services/HakiService.js:13-15 | leading whitespace is dropped: the result is a suffix, all dropped characters are whitespace, and the result does not start with whitespace |
| `Strings.TrimEnd` | api/server/services/HakiService.js:13-15 | trailing whitespace is dropped: the result is a prefix, all dropped characters are whitespace, and the result does not end with whitespace |
| `Strings.Trim` | api/server/services/HakiService.js:13-15 | `trim()` is empty exactly when the string is only whitespace |
| `Routes.ApiKey` | api/server/routes/haki.js:10 | the key is `HAKI_API_KEY` when set and non-empty, otherwise `dev-haki-key`; it is never empty |
| `Routes.RequireApiKey` | api/server/routes/haki.js:7-17 | a missing header is refused; a present one passes to `next` exactly when it is `Bearer ` followed by nothing but the key in force, and then nothing is written; every refusal is 401 `{error: 'Unauthorized'}` |
| `Routes.HeaderDeterminesKey` | api/server/routes/haki.js:13 | a header accepted under two configurations means both have the same key |
| `Routes.PrefixRequired` | api/server/routes/haki.js:13-16 | the bare key without `Bearer ` and a missing header are refused |
| `Routes.DevKeyFallback` | api/server/routes/haki.js:10 | without a secret, `Bearer dev-haki-key` is accepted, and an empty `HAKI_API_KEY` behaves like an unset one |

## Left out

- The OpenAI, LangChain and Pinecone libraries (`ChatOpenAI`, `PromptTemplate`,
  `StringOutputParser`, `OpenAIEmbeddings`, `PineconeStore`, the retriever) are foreign code.
  They are parameters: a title model, a chain, and the `Stages` of `Service`.
- `buildHakiChain` calls `getPinecone()` and `getVectorStore()` before any chain exists,
  and the handler awaits it before `chain.stream`. A vector store that cannot be opened
  therefore fails before any model is called. In the model that failure is a failure of the
  controller's `chain` parameter before any chunk (`Stream([], Some(e))`, which
  `Controller.StreamModeFailure` covers). `Service.StreamChain` models only a chain that
  was built, so its retriever stage covers retrieval errors alone.
- The prompt templates and the model names and temperatures are data without behaviour.
- The `id` and `created` fields come from the clock (`Date.now()`). They are not modelled.
  Neither is the exact `JSON.stringify` text: payloads are datatypes, and `FrameText` takes
  the serialiser as a parameter.
- Logging (`console.log`, `console.error`, `log` from `hakiLogger.js`) is I/O. So is the
  warning printed when `OPENAI_API_KEY` is missing in title mode.
- Asynchrony (`await`, `for await`) and the moment headers are flushed are not modelled.
  The chain's whole output is one `Stream` value. `headersSent` is a field that turns true
  with the first `write`, `json` or `end`.
- Headers Express adds on its own, such as `res.json`'s `Content-Type: application/json`
  when none is set, are not modelled.
- Express routing and wiring (`router.use`, `router.post`), the client's `HakiLogo.tsx`,
  and the smoke-test scripts are not part of this model.
- Bodies of non-string type are not modelled: `messages` that is not an array, a message
  whose `role` or `content` is not a string. In the source, a missing `content` would
  render as `undefined`.
- A schema failure at load time makes `envSchema.parse` throw and stops the process. This
  is modelled as a `Failure` result. Zod's issue messages are reduced to a path and a code.
- Controller.FormatHistoryLines: the line-by-line reading of the history is stated only when
  no message before the last holds a newline in its content, because such a content would
  itself split into several lines (the last message never enters the history). For
  arbitrary contents, `FormatHistoryPair`, `FormatHistoryGrows` and `FormatHistoryEnds`
  state the structure.
