/** The chat-completions handler of `api/server/controllers/HakiController.js`:
    `formatHistory`, and `hakiController`'s decision between the 400 reply, the one-shot
    title completion and the server-sent-event stream, with its error routing.

    The Express response is the class `Response`; the handler is the method
    `HakiController`, proved to leave the response in the state `Respond` describes, and
    the lemmas below state what `Respond` promises. Payloads are datatypes: their JSON
    text, the `id` and the `created` timestamp are not modelled. */
module Controller {
  import opened Wrappers
  import opened Strings
  import opened Service

  // ---------------------------------------------------------------------------
  // Requests and history
  // ---------------------------------------------------------------------------

  /** One entry of `req.body.messages`. */
  datatype Message = Message(role: string, content: string)

  /** The two fields of `req.body` the handler reads; `None` is a missing field. */
  datatype Request = Request(messages: Option<seq<Message>>, model: Option<string>)

  /** `${role}: ${m.content}`, with role `Human` for exactly the role `'user'`. */
  function RenderLine(m: Message): string {
    (if m.role == "user" then "Human" else "AI") + ": " + m.content
  }

  /** One rendered line per message, in order. */
  function RenderLines(history: seq<Message>): seq<string> {
    seq(|history|, i requires 0 <= i < |history| => RenderLine(history[i]))
  }

  /** All messages but the last (`slice(0, -1)`; empty for an empty list). */
  function AllButLast(messages: seq<Message>): seq<Message> {
    if |messages| == 0 then [] else messages[..|messages| - 1]
  }

  /** `formatHistory(messages)`: every message but the last, one rendered line each,
      joined by newlines. */
  function FormatHistory(messages: seq<Message>): string {
    Join(RenderLines(AllButLast(messages)), "\n")
  }

  /** A line starts with `Human: ` exactly when the role is `'user'`; every other role,
      whatever its spelling, is rendered as `AI: `. */
  lemma RenderLineRole(m: Message)
    ensures "Human: " <= RenderLine(m) <==> m.role == "user"
    ensures m.role != "user" ==> RenderLine(m) == "AI: " + m.content
    ensures m.role == "user" ==> RenderLine(m) == "Human: " + m.content
  {
    if m.role != "user" {
      assert RenderLine(m)[0] == 'A';
    }
  }

  /** The last message never reaches the history. */
  lemma FormatHistoryIgnoresLast(messages: seq<Message>, a: Message, b: Message)
    ensures FormatHistory(messages + [a]) == FormatHistory(messages + [b])
  {
    assert AllButLast(messages + [a]) == messages == AllButLast(messages + [b]);
  }

  /** Without at least two messages there is no history. */
  lemma FormatHistoryShort(messages: seq<Message>)
    requires |messages| <= 1
    ensures FormatHistory(messages) == ""
  {
  }

  /** The history opens with the first message's line and closes with the line of the
      message before the last, so no separator trails it (a newline inside that
      message's content still ends the history). */
  lemma FormatHistoryEnds(messages: seq<Message>)
    requires |messages| >= 2
    ensures RenderLine(messages[0]) <= FormatHistory(messages)
    ensures var h := FormatHistory(messages);
            var last := RenderLine(messages[|messages| - 2]);
            |last| <= |h| && h[|h| - |last|..] == last
  {
    JoinEnds(RenderLines(AllButLast(messages)), "\n");
  }

  /** When no message before the last holds a newline in its content, splitting the
      history at newlines gives back exactly one line per message but the last, in
      order, each `Human: ` or `AI: ` followed by the content. The last message, the
      current question, may hold anything. */
  lemma FormatHistoryLines(messages: seq<Message>)
    requires |messages| >= 2
    requires forall i :: 0 <= i < |messages| - 1 ==> '\n' !in messages[i].content
    ensures var lines := Split(FormatHistory(messages), '\n');
            && |lines| == |messages| - 1
            && forall i :: 0 <= i < |lines| ==>
                 lines[i] == (if messages[i].role == "user" then "Human: " else "AI: ") + messages[i].content
  {
    var history := AllButLast(messages);
    var lines := RenderLines(history);
    forall i | 0 <= i < |lines| ensures '\n' !in lines[i] {
      RenderLineKeepsNewlines(history[i]);
    }
    SplitJoin(lines, '\n');
    forall i | 0 <= i < |lines|
      ensures lines[i] == (if messages[i].role == "user" then "Human: " else "AI: ") + messages[i].content
    {
      assert history[i] == messages[i];
      RenderLineRole(messages[i]);
    }
  }

  /** The rendered prefix holds no newline, so a line has one only if its content does. */
  lemma RenderLineKeepsNewlines(m: Message)
    ensures '\n' in RenderLine(m) <==> '\n' in m.content
  {
    var prefix := (if m.role == "user" then "Human" else "AI") + ": ";
    assert RenderLine(m) == prefix + m.content;
    assert '\n' !in prefix;
  }

  /** Two messages give the first one's line alone: the base from which
      `FormatHistoryGrows` builds every longer history. */
  lemma FormatHistoryPair(a: Message, b: Message)
    ensures FormatHistory([a, b]) == RenderLine(a)
  {
    assert AllButLast([a, b]) == [a];
  }

  /** Each further message moves the previous last message into the history, after a
      newline: the history keeps the messages' order. */
  lemma FormatHistoryGrows(messages: seq<Message>, next: Message)
    requires |messages| >= 2
    ensures FormatHistory(messages + [next]) ==
            FormatHistory(messages) + "\n" + RenderLine(messages[|messages| - 1])
  {
    var before := AllButLast(messages);
    assert AllButLast(messages + [next]) == before + [messages[|messages| - 1]];
    assert RenderLines(before + [messages[|messages| - 1]]) ==
           RenderLines(before) + [RenderLine(messages[|messages| - 1])];
    JoinSnoc(RenderLines(before), RenderLine(messages[|messages| - 1]), "\n");
  }

  // ---------------------------------------------------------------------------
  // Payloads and frames
  // ---------------------------------------------------------------------------

  const TITLE_MODEL := "haki-title"
  const STREAM_MODEL := "haki-legal"
  const NO_MESSAGES := "No messages provided"
  const ERROR_PREFIX := "Internal Server Error in Haki Chain: "

  /** One entry of `choices`: a whole message, or a streamed delta. */
  datatype Choice =
    | MessageChoice(role: string, content: string, index: nat, finishReason: Option<string>)
    | DeltaChoice(content: string, index: nat, finishReason: Option<string>)

  /** The JSON bodies the handler produces. */
  datatype Payload =
    | Completion(objectType: string, model: string, choices: seq<Choice>)  // { id, object, created, model, choices }
    | ErrorBody(error: string)                                          // { error: '...' }
    | ErrorEnvelope(message: string, errorType: string)                 // { error: { message, type } }

  /** One `res.write` of the stream: `data: <payload>\n\n` or `data: [DONE]\n\n`. */
  datatype Frame = Data(payload: Payload) | Done

  function TitleCompletion(title: string): Payload {
    Completion("chat.completion", TITLE_MODEL, [MessageChoice("assistant", title, 0, Some("stop"))])
  }

  function ChunkCompletion(chunk: string): Payload {
    Completion("chat.completion.chunk", STREAM_MODEL, [DeltaChoice(chunk, 0, None)])
  }

  function InternalError(message: string): Payload {
    ErrorEnvelope(ERROR_PREFIX + message, "internal_server_error")
  }

  /** The frames written by the `for await` loop, one per chunk. */
  function ChunkFrames(chunks: seq<string>): seq<Frame> {
    seq(|chunks|, i requires 0 <= i < |chunks| => Data(ChunkCompletion(chunks[i])))
  }

  /** The text a frame puts on the wire, given the JSON serialiser. */
  function FrameText(frame: Frame, stringify: Payload -> string): (text: string)
    ensures "data: " <= text
    ensures |text| >= 8 && text[|text| - 2..] == "\n\n"
  {
    match frame
    case Data(p) => "data: " + stringify(p) + "\n\n"
    case Done => "data: [DONE]\n\n"
  }

  /** The text a sequence of frames puts on the wire, frame after frame. */
  function WireText(frames: seq<Frame>, stringify: Payload -> string): string
    decreases |frames|
  {
    if |frames| == 0 then "" else FrameText(frames[0], stringify) + WireText(frames[1..], stringify)
  }

  /** The wire text of two frame sequences written one after the other. */
  lemma {:induction false} WireTextAppend(a: seq<Frame>, b: seq<Frame>, stringify: Payload -> string)
    ensures WireText(a + b, stringify) == WireText(a, stringify) + WireText(b, stringify)
    decreases |a|
  {
    if |a| == 0 {
      assert a + b == b;
    } else {
      assert (a + b)[1..] == a[1..] + b;
      WireTextAppend(a[1..], b, stringify);
    }
  }

  /** The delta text a frame carries: the content of a chunk completion's first choice. */
  function DeltaText(frame: Frame): string {
    if frame.Data? && frame.payload.Completion? && |frame.payload.choices| > 0
       && frame.payload.choices[0].DeltaChoice?
    then frame.payload.choices[0].content
    else ""
  }

  /** All deltas of a frame sequence, in order. */
  function Deltas(frames: seq<Frame>): string
    decreases |frames|
  {
    if |frames| == 0 then "" else DeltaText(frames[0]) + Deltas(frames[1..])
  }

  /** The chunk frames carry the chunks: their deltas concatenate to the whole answer. */
  lemma {:induction false} DeltasOfChunkFrames(chunks: seq<string>)
    ensures Deltas(ChunkFrames(chunks)) == Concat(chunks)
    decreases |chunks|
  {
    if |chunks| > 0 {
      assert ChunkFrames(chunks)[1..] == ChunkFrames(chunks[1..]);
      DeltasOfChunkFrames(chunks[1..]);
    }
  }

  /** Frames after the chunks that carry no delta do not change the text. */
  lemma {:induction false} DeltasAppend(a: seq<Frame>, b: seq<Frame>)
    ensures Deltas(a + b) == Deltas(a) + Deltas(b)
    decreases |a|
  {
    if |a| == 0 {
      assert a + b == b;
    } else {
      assert (a + b)[1..] == a[1..] + b;
      DeltasAppend(a[1..], b);
    }
  }

  // ---------------------------------------------------------------------------
  // The Express response
  // ---------------------------------------------------------------------------

  /** A snapshot of everything the handler can change on `res`: the status code, the
      headers set, whether the headers went out, the JSON body sent by `res.json`, the
      frames sent by `res.write`, and whether the response was ended. */
  datatype ResponseState = ResponseState(
    statusCode: nat,
    headers: map<string, string>,
    headersSent: bool,
    json: Option<Payload>,
    frames: seq<Frame>,
    ended: bool)

  /** A response the handler receives: nothing sent yet, status 200. */
  const FRESH := ResponseState(200, map[], false, None, [], false)

  const SSE_HEADERS: map<string, string> :=
    map["Content-Type" := "text/event-stream", "Cache-Control" := "no-cache", "Connection" := "keep-alive"]

  /** The catch block: a 500 JSON reply while the headers are unsent, otherwise one
      more data frame carrying the error, then the end of the stream. */
  function AfterError(st: ResponseState, message: string): ResponseState {
    if !st.headersSent then
      st.(statusCode := 500, headersSent := true, json := Some(InternalError(message)), ended := true)
    else
      st.(frames := st.frames + [Data(InternalError(message))], ended := true)
  }

  /** The one call into foreign code a request makes, if any. */
  datatype UpstreamCall = NoCall | TitleCall(prompt: string) | ChainCall(input: ChainInput)

  /** What `hakiController` does for a request: the call it makes and the response it
      leaves behind. */
  datatype Handled = Handled(call: UpstreamCall, response: ResponseState)

  predicate NoMessages(req: Request) {
    req.messages.None? || |req.messages.value| == 0
  }

  /** The state the handler leaves, given what the title model and the chain do. */
  function Respond(req: Request, titleModel: string -> Result<string, string>,
                   chain: ChainInput -> Stream): Handled
  {
    if NoMessages(req) then
      Handled(NoCall, FRESH.(statusCode := 400, headersSent := true, json := Some(ErrorBody(NO_MESSAGES)), ended := true))
    else
      var messages := req.messages.value;
      var prompt := messages[|messages| - 1].content;
      if req.model == Some(TITLE_MODEL) then
        Handled(TitleCall(prompt),
          match titleModel(prompt)
          case Success(title) => FRESH.(headersSent := true, json := Some(TitleCompletion(title)), ended := true)
          case Failure(e) => AfterError(FRESH, e))
      else
        var input := ChainInput(prompt, FormatHistory(messages));
        var stream := chain(input);
        var streamed := FRESH.(headers := SSE_HEADERS, headersSent := |stream.chunks| > 0,
                               frames := ChunkFrames(stream.chunks));
        Handled(ChainCall(input),
          match stream.failure
          case None => streamed.(headersSent := true, frames := streamed.frames + [Done], ended := true)
          case Some(e) => AfterError(streamed, e))
  }

  /** The Express response object, reduced to the operations the handler uses. The
      headers go out with the first `write`, `json` or `end`. */
  class Response {
    var statusCode: nat
    var headers: map<string, string>
    var headersSent: bool
    var json: Option<Payload>
    var frames: seq<Frame>
    var ended: bool

    function State(): ResponseState
      reads this
    {
      ResponseState(statusCode, headers, headersSent, json, frames, ended)
    }

    constructor ()
      ensures State() == FRESH
    {
      statusCode, headers, headersSent := 200, map[], false;
      json, frames, ended := None, [], false;
    }

    /** `res.status(code)`. */
    method Status(code: nat)
      modifies this
      ensures State() == old(State()).(statusCode := code)
    {
      statusCode := code;
    }

    /** `res.setHeader(name, value)`; Node refuses it once the headers are out. */
    method SetHeader(name: string, value: string)
      requires !headersSent
      modifies this
      ensures State() == old(State()).(headers := old(headers)[name := value])
    {
      headers := headers[name := value];
    }

    /** `res.json(body)`: sends the headers and the body, and ends the response. */
    method Json(body: Payload)
      requires !headersSent
      modifies this
      ensures State() == old(State()).(headersSent := true, json := Some(body), ended := true)
    {
      headersSent, json, ended := true, Some(body), true;
    }

    /** `res.write(frame)`: sends the headers if they are not out yet, then the frame. */
    method Write(frame: Frame)
      requires !ended
      modifies this
      ensures State() == old(State()).(headersSent := true, frames := old(frames) + [frame])
    {
      headersSent := true;
      frames := frames + [frame];
    }

    /** `res.end()`. */
    method End()
      requires !ended
      modifies this
      ensures State() == old(State()).(headersSent := true, ended := true)
    {
      headersSent, ended := true, true;
    }
  }

  /** The catch block of `hakiController`. */
  method HandleError(res: Response, message: string)
    requires !res.ended
    modifies res
    ensures res.State() == AfterError(old(res.State()), message)
  {
    if !res.headersSent {
      res.Status(500);
      res.Json(InternalError(message));
    } else {
      res.Write(Data(InternalError(message)));
      res.End();
    }
  }

  /** `hakiController(req, res)`. `titleModel` stands for the title chain's `invoke` and
      `chain` for `buildHakiChain()` followed by `chain.stream(...)`; `call` reports
      which of them the request reached, and with what input. */
  method HakiController(req: Request, res: Response, titleModel: string -> Result<string, string>,
                        chain: ChainInput -> Stream)
    returns (call: UpstreamCall)
    requires res.State() == FRESH
    modifies res
    ensures call == Respond(req, titleModel, chain).call
    ensures res.State() == Respond(req, titleModel, chain).response
  {
    if req.messages.None? || |req.messages.value| == 0 {
      res.Status(400);
      res.Json(ErrorBody(NO_MESSAGES));
      return NoCall;
    }
    var messages := req.messages.value;
    if req.model == Some(TITLE_MODEL) {
      var prompt := messages[|messages| - 1].content;
      call := TitleCall(prompt);
      var title := titleModel(prompt);
      match title {
        case Success(t) =>
          res.Json(TitleCompletion(t));
        case Failure(e) =>
          HandleError(res, e);
      }
      return;
    }
    var question := messages[|messages| - 1].content;
    var chatHistory := FormatHistory(messages);
    res.SetHeader("Content-Type", "text/event-stream");
    res.SetHeader("Cache-Control", "no-cache");
    res.SetHeader("Connection", "keep-alive");
    var input := ChainInput(question, chatHistory);
    call := ChainCall(input);
    var stream := chain(input);
    var chunks := stream.chunks;
    var i := 0;
    while i < |chunks|
      invariant 0 <= i <= |chunks|
      invariant res.statusCode == 200 && res.headers == SSE_HEADERS && res.json == None && !res.ended
      invariant res.headersSent <==> i > 0
      invariant res.frames == ChunkFrames(chunks[..i])
    {
      assert ChunkFrames(chunks[..i + 1]) == ChunkFrames(chunks[..i]) + [Data(ChunkCompletion(chunks[i]))];
      res.Write(Data(ChunkCompletion(chunks[i])));
      i := i + 1;
    }
    assert chunks[..i] == chunks;
    match stream.failure {
      case None =>
        res.Write(Done);
        res.End();
      case Some(e) =>
        HandleError(res, e);
    }
  }

  // ---------------------------------------------------------------------------
  // What the handler promises
  // ---------------------------------------------------------------------------

  /** The reply is 400 exactly when `messages` is missing or empty; it then carries
      `{ error: 'No messages provided' }`, nothing is streamed, and neither the title
      model nor the chain is called. */
  lemma NoMessagesRejected(req: Request, titleModel: string -> Result<string, string>,
                           chain: ChainInput -> Stream,
                           otherTitleModel: string -> Result<string, string>,
                           otherChain: ChainInput -> Stream)
    ensures Respond(req, titleModel, chain).response.statusCode == 400 <==> NoMessages(req)
    ensures NoMessages(req) ==> Respond(req, titleModel, chain) == Respond(req, otherTitleModel, otherChain)
    ensures NoMessages(req) ==>
            && Respond(req, titleModel, chain).call == NoCall
            && Respond(req, titleModel, chain).response.json == Some(ErrorBody(NO_MESSAGES))
            && Respond(req, titleModel, chain).response.frames == []
  {
  }

  /** Title mode answers one `chat.completion` from model `haki-title` whose single
      choice is the assistant message holding the title generated from the last
      message's content, with finish reason `stop`; nothing is streamed. */
  lemma TitleModeCompletion(req: Request, titleModel: string -> Result<string, string>,
                            chain: ChainInput -> Stream)
    requires !NoMessages(req) && req.model == Some(TITLE_MODEL)
    requires titleModel(req.messages.value[|req.messages.value| - 1].content).Success?
    ensures var last := req.messages.value[|req.messages.value| - 1];
            var h := Respond(req, titleModel, chain);
            && h.call == TitleCall(last.content)
            && h.response.statusCode == 200
            && h.response.frames == []
            && h.response.ended
            && h.response.json.Some?
            && h.response.json.value.Completion?
            && h.response.json.value.objectType == "chat.completion"
            && h.response.json.value.model == "haki-title"
            && h.response.json.value.choices ==
               [MessageChoice("assistant", titleModel(last.content).value, 0, Some("stop"))]
  {
  }

  /** In title mode the reply depends on the request only through the last message's
      content: the title never sees the history, the chain is never consulted, and
      there is no fallback title when the model fails (the catch block's
      500 reply is all that is sent). */
  lemma TitleModeUsesLastContentOnly(a: Request, b: Request, titleModel: string -> Result<string, string>,
                                     chain: ChainInput -> Stream, otherChain: ChainInput -> Stream)
    requires !NoMessages(a) && !NoMessages(b)
    requires a.model == Some(TITLE_MODEL) && b.model == Some(TITLE_MODEL)
    requires a.messages.value[|a.messages.value| - 1].content == b.messages.value[|b.messages.value| - 1].content
    ensures Respond(a, titleModel, chain) == Respond(b, titleModel, otherChain)
    ensures var prompt := a.messages.value[|a.messages.value| - 1].content;
            titleModel(prompt).Failure? ==>
            Respond(a, titleModel, chain).response ==
            FRESH.(statusCode := 500, headersSent := true,
                   json := Some(ErrorEnvelope("Internal Server Error in Haki Chain: " + titleModel(prompt).error,
                                              "internal_server_error")),
                   ended := true)
  {
  }

  /** Outside title mode the chain is asked the last message's content, with the
      history of the messages before it, and the title model is never consulted. */
  lemma StreamModeChainInput(req: Request, titleModel: string -> Result<string, string>,
                             chain: ChainInput -> Stream, otherTitleModel: string -> Result<string, string>)
    requires !NoMessages(req) && req.model != Some(TITLE_MODEL)
    ensures Respond(req, titleModel, chain) == Respond(req, otherTitleModel, chain)
    ensures var ms := req.messages.value;
            Respond(req, titleModel, chain).call ==
            ChainCall(ChainInput(ms[|ms| - 1].content, FormatHistory(ms)))
  {
  }

  /** With the chain of `buildHakiChain` in place, the answer stage of a streamed request
      is asked the last message's content, with the context retrieved for the standalone
      question condensed from that content and the formatted history. */
  lemma StreamModeAnswerStage(req: Request, titleModel: string -> Result<string, string>, stages: Stages)
    requires !NoMessages(req) && req.model != Some(TITLE_MODEL)
    ensures var ms := req.messages.value;
            var input := ChainInput(ms[|ms| - 1].content, FormatHistory(ms));
            var standalone := stages.standaloneQuestion(input);
            standalone.Success? && stages.retrieve(standalone.value).Success? ==>
            var chain := (i: ChainInput) => StreamChain(i, stages);
            && Respond(req, titleModel, chain).call == ChainCall(input)
            && chain(input) ==
               stages.answer(AnswerInput(CombineDocuments(stages.retrieve(standalone.value).value),
                                         ms[|ms| - 1].content, standalone.value))
  {
    var ms := req.messages.value;
    var input := ChainInput(ms[|ms| - 1].content, FormatHistory(ms));
    var standalone := stages.standaloneQuestion(input);
    if standalone.Success? && stages.retrieve(standalone.value).Success? {
      AnswerStageRecord(input, stages);
    }
  }

  /** A stream that completes writes exactly one `chat.completion.chunk` frame per chunk,
      in chunk order, each from model `haki-legal` with the chunk as its delta and no
      finish reason; then exactly one `[DONE]` frame, as the last frame, and the end. The
      deltas concatenate to the concatenated chunks. */
  lemma StreamModeFrames(req: Request, titleModel: string -> Result<string, string>,
                         chain: ChainInput -> Stream)
    requires !NoMessages(req) && req.model != Some(TITLE_MODEL)
    requires chain(Respond(req, titleModel, chain).call.input).failure.None?
    ensures var chunks := chain(Respond(req, titleModel, chain).call.input).chunks;
            var r := Respond(req, titleModel, chain).response;
            && r.statusCode == 200 && r.headers == SSE_HEADERS && r.json == None && r.ended
            && |r.frames| == |chunks| + 1
            && (forall i :: 0 <= i < |chunks| ==>
                  r.frames[i] == Data(Completion("chat.completion.chunk", "haki-legal",
                                                 [DeltaChoice(chunks[i], 0, None)])))
            && (forall i :: 0 <= i < |r.frames| ==> (r.frames[i] == Done <==> i == |chunks|))
            && Deltas(r.frames) == Concat(chunks)
  {
    var chunks := chain(Respond(req, titleModel, chain).call.input).chunks;
    DeltasOfChunkFrames(chunks);
    DeltasAppend(ChunkFrames(chunks), [Done]);
    assert Deltas([Done]) == "";
  }

  /** On the wire, a stream that completes is a run of `data: ` events whose text opens
      with `data: ` and closes with the `data: [DONE]` event and its blank line, whatever
      the JSON serialiser. */
  lemma StreamModeWireText(req: Request, titleModel: string -> Result<string, string>,
                           chain: ChainInput -> Stream, stringify: Payload -> string)
    requires !NoMessages(req) && req.model != Some(TITLE_MODEL)
    requires chain(Respond(req, titleModel, chain).call.input).failure.None?
    ensures var w := WireText(Respond(req, titleModel, chain).response.frames, stringify);
            && "data: " <= w
            && |w| >= 14 && w[|w| - 14..] == "data: [DONE]\n\n"
  {
    var chunks := chain(Respond(req, titleModel, chain).call.input).chunks;
    var frames := Respond(req, titleModel, chain).response.frames;
    assert frames == ChunkFrames(chunks) + [Done];
    WireTextAppend(ChunkFrames(chunks), [Done], stringify);
    assert WireText([Done], stringify) == "data: [DONE]\n\n";
    if |chunks| > 0 {
      assert frames[1..] == ChunkFrames(chunks)[1..] + [Done];
      assert WireText(frames, stringify) == FrameText(frames[0], stringify) + WireText(frames[1..], stringify);
    }
  }

  /** A failure before the first chunk (building the chain, starting the stream) gets a
      500 reply, still under the event-stream headers set beforehand; a failure after at
      least one chunk adds a single error frame after the chunks written so far, no
      `[DONE]`, and ends the stream. */
  lemma StreamModeFailure(req: Request, titleModel: string -> Result<string, string>,
                          chain: ChainInput -> Stream)
    requires !NoMessages(req) && req.model != Some(TITLE_MODEL)
    requires chain(Respond(req, titleModel, chain).call.input).failure.Some?
    ensures var s := chain(Respond(req, titleModel, chain).call.input);
            var r := Respond(req, titleModel, chain).response;
            var body := ErrorEnvelope("Internal Server Error in Haki Chain: " + s.failure.value,
                                      "internal_server_error");
            && r.ended && r.headers == SSE_HEADERS
            && (|s.chunks| == 0 ==> r.statusCode == 500 && r.json == Some(body) && r.frames == [])
            && (|s.chunks| > 0 ==> r.statusCode == 200 && r.json == None
                                    && r.frames == ChunkFrames(s.chunks) + [Data(body)]
                                    && Done !in r.frames)
  {
    var s := chain(Respond(req, titleModel, chain).call.input);
    var r := Respond(req, titleModel, chain).response;
    if |s.chunks| > 0 {
      assert forall i :: 0 <= i < |r.frames| ==> r.frames[i].Data?;
    }
  }

  /** Every request ends its response, whichever branch it takes. */
  lemma AlwaysEnds(req: Request, titleModel: string -> Result<string, string>, chain: ChainInput -> Stream)
    ensures Respond(req, titleModel, chain).response.ended
    ensures Respond(req, titleModel, chain).response.headersSent
  {
  }
}
