/**
 * The Flask mock server the test suite talks to (tests/mock-server/main.py).
 * Each endpoint reads a scenario name from the request's credentials and
 * answers with a fixed response for that scenario, or with a fixed 400 when
 * the name selects nothing. A response is a value; the generator behind a
 * streaming response is the sequence of frames it yields.
 */
module MockServer {
  import opened Wrappers
  import opened Json
  import opened Text

  /** What an endpoint reads of a request: headers, query arguments, Content-Length. */
  datatype Request = Request(headers: map<string, string>, args: map<string, string>, contentLength: nat)

  /** A body given as literal text, or as the output of json.dumps on a tree. */
  datatype Body = Literal(text: string) | Dumped(json: Json)

  datatype Response =
    | Fixed(status: nat, mimetype: string, body: Body)
    | EventStream(frames: seq<string>)
  {
    /** Flask's default status for a streamed response is 200. */
    function Status(): nat {
      if Fixed? then status else 200
    }
  }

  const JsonType := "application/json"

  const NonJsonError := "NON_JSON_ERROR"
  const AbruptStream := "ABRUPT_STREAM"
  const RateLimitCompletion := "RATE_LIMIT_COMPLETION"
  const AuthFailureOpenAI := "AUTH_FAILURE_OPENAI"
  const AuthFailureGemini := "AUTH_FAILURE_GEMINI"
  const AuthFailureAnthropic := "AUTH_FAILURE_ANTHROPIC"
  const StreamErrorAnthropic := "STREAM_ERROR_ANTHROPIC"
  const StreamPingAnthropic := "STREAM_PING_ANTHROPIC"
  const EmptyList := "EMPTY_LIST"
  const RateLimitListModels := "RATE_LIMIT_LIST_MODELS"
  const ZeroByteFile := "ZERO_BYTE_FILE"
  const LargeFileUpload := "LARGE_FILE_UPLOAD"

  /** The upload size above which the LARGE_FILE_UPLOAD scenario refuses: 100 MiB. */
  const UploadLimit: nat := 100 * 1024 * 1024

  /** The scenario names each endpoint reacts to. */
  const OpenAICompletionScenarios := {NonJsonError, AbruptStream, RateLimitCompletion, AuthFailureOpenAI}
  const AnthropicCompletionScenarios := {AuthFailureAnthropic, StreamErrorAnthropic, StreamPingAnthropic}
  const ModelListScenarios := {EmptyList, RateLimitListModels, AuthFailureOpenAI, AuthFailureGemini, AuthFailureAnthropic}
  const OpenAIFileScenarios := {ZeroByteFile, LargeFileUpload, AuthFailureOpenAI}
  const GeminiFileScenarios := {ZeroByteFile, LargeFileUpload, AuthFailureGemini}

  predicate Selects(selector: Option<string>, names: set<string>) {
    selector.Some? && selector.value in names
  }

  /**
   * The scenario selector shared by all endpoints but the Anthropic ones: the
   * Authorization header with every "Bearer " removed, else the x-api-key
   * header, else the `key` query argument, else none.
   */
  function Selector(req: Request): Option<string> {
    if "Authorization" in req.headers then Some(ReplaceAll(req.headers["Authorization"], "Bearer ", ""))
    else if "x-api-key" in req.headers then Some(req.headers["x-api-key"])
    else if "key" in req.args then Some(req.args["key"])
    else None
  }

  /** The Anthropic endpoints look only at the x-api-key header. */
  function AnthropicSelector(req: Request): (r: Option<string>)
    ensures r.Some? <==> "x-api-key" in req.headers
  {
    if "x-api-key" in req.headers then Some(req.headers["x-api-key"]) else None
  }

  /**
   * A client that authenticates with "Authorization: Bearer <key>" selects
   * exactly <key>, whatever else it sends, provided <key> itself never
   * contains "Bearer ".
   */
  lemma BearerSelectsKey(req: Request, key: string)
    requires "Authorization" in req.headers && req.headers["Authorization"] == "Bearer " + key
    requires !Contains(key, "Bearer ")
    ensures Selector(req) == Some(key)
  {
    var h := req.headers["Authorization"];
    assert |h| >= 7 && h[..7] == "Bearer ";
    assert ReplaceAll(h, "Bearer ", "") == "" + ReplaceAll(h[7..], "Bearer ", "");
    assert h[7..] == key;
    ReplaceAllAbsent(key, "Bearer ", "");
    assert "" + key == key;
  }

  // Response bodies, as the json.dumps calls build them.

  function ErrorObject(message: string, errorType: Option<string>, code: nat): Json {
    var fields := [("message", JString(message))]
      + (if errorType.Some? then [("type", JString(errorType.value))] else [])
      + [("code", JNumber(code as real))];
    JObject([("error", JObject(fields))])
  }

  const OpenAIAuthError := ErrorObject("Invalid Authentication", Some("invalid_request_error"), 401)
  const GeminiAuthError := ErrorObject("Invalid Authentication", None, 401)
  const RateLimitError := ErrorObject("Rate limit exceeded", Some("rate_limit_error"), 429)
  const AnthropicAuthError := JObject([("type", JString("error")), ("message", JString("Authentication Error"))])

  function NoScenario(detail: string): Json {
    JObject([("error", JString("No test scenario triggered for " + detail + " endpoint"))])
  }

  /** The two 400 bodies main.py writes out literally rather than through json.dumps. */
  const NoScenarioText := "{\"error\": \"No test scenario triggered in mock server\"}"
  const NoModelsScenarioText := "{\"error\": \"No test scenario triggered for models endpoint\"}"

  /**
   * The three authentication-failure bodies: OpenAI's error object carries a
   * "type" member, the Gemini one has none, and Anthropic's is a flat object
   * whose top-level "type" is "error". Both nested ones carry the message
   * "Invalid Authentication" and the code 401.
   */
  lemma AuthErrorShapes()
    ensures Get(OpenAIAuthError, "error").Some? && Get(GeminiAuthError, "error").Some?
    ensures Get(Get(OpenAIAuthError, "error").value, "type") == Some(JString("invalid_request_error"))
    ensures Get(Get(GeminiAuthError, "error").value, "type") == None
    ensures Get(Get(OpenAIAuthError, "error").value, "message") == Some(JString("Invalid Authentication"))
    ensures Get(Get(GeminiAuthError, "error").value, "message") == Some(JString("Invalid Authentication"))
    ensures Get(Get(OpenAIAuthError, "error").value, "code") == Some(JNumber(401 as real))
    ensures Get(Get(GeminiAuthError, "error").value, "code") == Some(JNumber(401 as real))
    ensures Get(AnthropicAuthError, "type") == Some(JString("error")) && Get(AnthropicAuthError, "error") == None
    ensures Get(AnthropicAuthError, "message") == Some(JString("Authentication Error"))
  {
    var openai := [("message", JString("Invalid Authentication")), ("type", JString("invalid_request_error")), ("code", JNumber(401 as real))];
    var gemini := [("message", JString("Invalid Authentication")), ("code", JNumber(401 as real))];
    assert [openai[0]] + [openai[1]] + [openai[2]] == openai;
    assert [gemini[0]] + [] + [gemini[1]] == gemini;
    LookupFirst(openai, "message", 0);
    LookupFirst(openai, "type", 1);
    LookupFirst(openai, "code", 2);
    LookupFirst(gemini, "message", 0);
    LookupFirst(gemini, "code", 1);
    LookupMissing(gemini, "type");
    LookupFirst(AnthropicAuthError.fields, "type", 0);
    LookupFirst(AnthropicAuthError.fields, "message", 1);
    LookupMissing(AnthropicAuthError.fields, "error");
  }

  /** The record of an accepted upload, echoing the uploaded size. */
  function Uploaded(id: string, filename: string, bytes: nat): (r: Json)
    ensures Get(r, "id") == Some(JString(id))
    ensures Get(r, "bytes") == Some(JNumber(bytes as real))
  {
    var fields := [("id", JString(id)), ("filename", JString(filename)),
                   ("purpose", JString("fine-tune")), ("bytes", JNumber(bytes as real))];
    LookupFirst(fields, "id", 0);
    LookupFirst(fields, "bytes", 3);
    JObject(fields)
  }

  const ServerErrorPage := "<html><body><h1>500 Internal Server Error</h1></body></html>"

  /**
   * The two chunks of the ABRUPT_STREAM scenario: a whole event (the
   * json.dumps text of a first chunk), then a cut-off one. The texts are
   * split into short pieces only to keep them readable.
   */
  const AbruptFirstPayload :=
    "{\"id\": \"chatcmpl-123\", " + "\"object\": \"chat.completion.chunk\", "
    + "\"created\": 1694268190, " + "\"model\": \"gpt-3.5-turbo-0613\", "
    + "\"choices\": [{\"index\": 0, " + "\"delta\": {\"role\": \"assistant\"}}, "
    + "{\"finish_reason\": null}]}"
  const TruncatedHead := "data: {\"id\":\"truncated_chunk\", "
  const TruncatedTail := "\"content\":\"partial"
  const AbruptFrames := ["data: " + AbruptFirstPayload + "\n\n", TruncatedHead + TruncatedTail]

  /**
   * ABRUPT_STREAM sends a whole event and then a cut-off one: the second
   * chunk has no closing brace and no line break, so no event ever ends in it.
   */
  lemma AbruptSecondChunkUnterminated()
    ensures |AbruptFrames| == 2
    ensures AbruptFrames[0][|AbruptFrames[0]| - 2..] == "\n\n"
    ensures '}' !in AbruptFrames[1] && '\n' !in AbruptFrames[1]
  {
    assert '}' !in TruncatedHead && '\n' !in TruncatedHead;
    assert '}' !in TruncatedTail && '\n' !in TruncatedTail;
  }

  /** The Anthropic event names the mock streams use. */
  datatype EventName =
    | MessageStartName | ContentBlockStartName | ContentBlockDeltaName
    | PingName | MessageDeltaName | MessageStopName | ErrorName
  {
    function Text(): string {
      match this
      case MessageStartName => "message_start"
      case ContentBlockStartName => "content_block_start"
      case ContentBlockDeltaName => "content_block_delta"
      case PingName => "ping"
      case MessageDeltaName => "message_delta"
      case MessageStopName => "message_stop"
      case ErrorName => "error"
    }
  }

  /** An Anthropic server-sent event: its name and its data line. */
  datatype Event = Event(name: EventName, data: string)

  /** The text of one event: an event line, a data line and a blank line. */
  function Frame(e: Event): (r: string)
    ensures |r| >= 2 && r[|r| - 2..] == "\n\n"
  {
    "event: " + e.name.Text() + "\ndata: " + e.data + "\n\n"
  }

  function Frames(events: seq<Event>): (frames: seq<string>)
    ensures |frames| == |events|
    ensures forall i :: 0 <= i < |events| ==> frames[i] == Frame(events[i])
  {
    seq(|events|, i requires 0 <= i < |events| => Frame(events[i]))
  }

  function TextDelta(text: string): Event {
    Event(ContentBlockDeltaName, "{\"delta\":{\"type\":\"text_delta\",\"text\":\"" + text + "\"},\"index\":0}")
  }

  function MessageStart(model: string): Event {
    Event(MessageStartName,
      "{\"message\":{\"id\":\"msg_01J1.1\"," + "\"type\":\"message\",\"role\":\"assistant\","
      + "\"model\":\"" + model + "\",\"stop_reason\":null," + "\"stop_sequence\":null,"
      + "\"usage\":{\"input_tokens\":10," + "\"output_tokens\":1}}}")
  }

  const BlockStart := Event(ContentBlockStartName, "{\"content_block\":" + "{\"type\":\"text\",\"text\":\"\"}," + "\"index\":0}")
  const StreamError := Event(ErrorName, "{\"message\":" + "\"Simulated mid-stream error.\"}")
  const FinalDelta := Event(MessageDeltaName,
    "{\"usage\":{\"output_tokens\":2}," + "\"stop_reason\":\"end_turn\"," + "\"stop_sequence\":null}")

  /** STREAM_ERROR_ANTHROPIC: a partial answer, then an error event and no message_stop. */
  function ErrorStreamEvents(): (events: seq<Event>)
    ensures |events| == 4
    ensures events[2] == TextDelta("Partial") && events[3] == StreamError
    ensures forall i :: 0 <= i < |events| ==> events[i].name != MessageStopName
  {
    [MessageStart("claude-3-haiku-20240307"), BlockStart, TextDelta("Partial"), StreamError]
  }

  /**
   * STREAM_PING_ANTHROPIC: seven events, exactly one of them a ping with
   * data "{}", lying between the two text deltas "Hello" and " World!", and
   * ending with message_delta then message_stop.
   */
  function PingStreamEvents(): (events: seq<Event>)
    ensures |events| == 7
    ensures forall i :: 0 <= i < |events| ==> (events[i].name == PingName <==> i == 3)
    ensures events[3] == Event(PingName, "{}")
    ensures events[2] == TextDelta("Hello") && events[4] == TextDelta(" World!")
    ensures events[5].name == MessageDeltaName && events[6] == Event(MessageStopName, "{}")
  {
    [MessageStart("claude-3-opus-20240229"), BlockStart, TextDelta("Hello"),
     Event(PingName, "{}"), TextDelta(" World!"), FinalDelta, Event(MessageStopName, "{}")]
  }

  /** POST /v1/chat/completions and /chat/completions. */
  function CompletionsOpenAI(req: Request): (r: Response)
    ensures r.Status() == 500 <==> Selector(req) == Some(NonJsonError)
    ensures r.EventStream? <==> Selector(req) == Some(AbruptStream)
    ensures r.Status() == 429 <==> Selector(req) == Some(RateLimitCompletion)
    ensures r.Status() == 401 <==> Selector(req) == Some(AuthFailureOpenAI)
    ensures r.Status() == 400 <==> !Selects(Selector(req), OpenAICompletionScenarios)
    ensures r.EventStream? ==> r.frames == AbruptFrames
    ensures r.Status() == 500 ==> r == Fixed(500, "text/html", Literal(ServerErrorPage))
    ensures r.Status() == 429 ==> r == Fixed(429, JsonType, Dumped(RateLimitError))
    ensures r.Status() == 401 ==> r == Fixed(401, JsonType, Dumped(OpenAIAuthError))
    ensures r.Status() == 400 ==> r == Fixed(400, JsonType, Literal(NoScenarioText))
  {
    var scenario := Selector(req);
    if scenario == Some(NonJsonError) then Fixed(500, "text/html", Literal(ServerErrorPage))
    else if scenario == Some(AbruptStream) then EventStream(AbruptFrames)
    else if scenario == Some(RateLimitCompletion) then Fixed(429, JsonType, Dumped(RateLimitError))
    else if scenario == Some(AuthFailureOpenAI) then Fixed(401, JsonType, Dumped(OpenAIAuthError))
    else Fixed(400, JsonType, Literal(NoScenarioText))
  }

  /** POST /v1/models/<model>:generateContent. */
  function CompletionsGemini(req: Request): (r: Response)
    ensures r.Fixed? && r.mimetype == JsonType
    ensures r.status == 401 <==> Selector(req) == Some(AuthFailureGemini)
    ensures r.status == 401 ==> r.body == Dumped(GeminiAuthError)
    ensures r.status != 401 ==> r == Fixed(400, JsonType, Dumped(NoScenario("Gemini completions")))
  {
    if Selector(req) == Some(AuthFailureGemini) then Fixed(401, JsonType, Dumped(GeminiAuthError))
    else Fixed(400, JsonType, Dumped(NoScenario("Gemini completions")))
  }

  /** POST /v1/messages. */
  function CompletionsAnthropic(req: Request): (r: Response)
    ensures r.Status() == 401 <==> AnthropicSelector(req) == Some(AuthFailureAnthropic)
    ensures r.EventStream? <==> Selects(AnthropicSelector(req), {StreamErrorAnthropic, StreamPingAnthropic})
    ensures r.EventStream? && AnthropicSelector(req) == Some(StreamPingAnthropic) ==> r.frames == Frames(PingStreamEvents())
    ensures AnthropicSelector(req) == Some(StreamErrorAnthropic) ==> r == EventStream(Frames(ErrorStreamEvents()))
    ensures r.Status() == 400 <==> !Selects(AnthropicSelector(req), AnthropicCompletionScenarios)
    ensures r.Status() == 401 ==> r == Fixed(401, JsonType, Dumped(AnthropicAuthError))
    ensures r.Status() == 400 ==> r == Fixed(400, JsonType, Dumped(NoScenario("Anthropic completions")))
  {
    var scenario := AnthropicSelector(req);
    if scenario == Some(AuthFailureAnthropic) then Fixed(401, JsonType, Dumped(AnthropicAuthError))
    else if scenario == Some(StreamErrorAnthropic) then EventStream(Frames(ErrorStreamEvents()))
    else if scenario == Some(StreamPingAnthropic) then EventStream(Frames(PingStreamEvents()))
    else Fixed(400, JsonType, Dumped(NoScenario("Anthropic completions")))
  }

  /** GET /v1/models and /models. */
  function ListModels(req: Request): (r: Response)
    ensures r.Fixed? && r.mimetype == JsonType
    ensures r.status == 200 <==> Selector(req) == Some(EmptyList)
    ensures r.status == 200 ==> r.body.Dumped? && Get(r.body.json, "data") == Some(JArray([]))
    ensures r.status == 429 <==> Selector(req) == Some(RateLimitListModels)
    ensures r.status == 401 <==> Selects(Selector(req), {AuthFailureOpenAI, AuthFailureGemini, AuthFailureAnthropic})
    ensures r.status == 401 ==> (Selector(req) == Some(AuthFailureAnthropic) <==> r.body == Dumped(AnthropicAuthError))
    ensures r.status == 400 <==> !Selects(Selector(req), ModelListScenarios)
    ensures r.status == 200 ==> r.body == Dumped(JObject([("object", JString("list")), ("data", JArray([]))]))
    ensures r.status == 429 ==> r.body == Dumped(RateLimitError)
    ensures Selects(Selector(req), {AuthFailureOpenAI, AuthFailureGemini}) ==> r == Fixed(401, JsonType, Dumped(OpenAIAuthError))
    ensures r.status == 400 ==> r.body == Literal(NoModelsScenarioText)
  {
    var scenario := Selector(req);
    if scenario == Some(EmptyList) then
      Fixed(200, JsonType, Dumped(JObject([("object", JString("list")), ("data", JArray([]))])))
    else if scenario == Some(RateLimitListModels) then Fixed(429, JsonType, Dumped(RateLimitError))
    else if scenario == Some(AuthFailureOpenAI) || scenario == Some(AuthFailureGemini) then
      Fixed(401, JsonType, Dumped(OpenAIAuthError))
    else if scenario == Some(AuthFailureAnthropic) then Fixed(401, JsonType, Dumped(AnthropicAuthError))
    else Fixed(400, JsonType, Literal(NoModelsScenarioText))
  }

  /**
   * The size scenarios shared by both upload endpoints: ZERO_BYTE_FILE refuses
   * exactly the empty upload, LARGE_FILE_UPLOAD exactly one over the limit;
   * otherwise each reports the uploaded size back.
   */
  function UploadBySize(scenario: string, contentLength: nat): (r: Response)
    requires scenario in {ZeroByteFile, LargeFileUpload}
    ensures r.Fixed? && r.mimetype == JsonType
    ensures r.status == 400 <==> scenario == ZeroByteFile && contentLength == 0
    ensures r.status == 413 <==> scenario == LargeFileUpload && contentLength > UploadLimit
    ensures r.status == 200 ==> r.body.Dumped? && Get(r.body.json, "bytes") == Some(JNumber(contentLength as real))
    ensures r.status in {200, 400, 413}
    ensures r.status == 400 ==> r.body == Dumped(ErrorObject("File is empty", None, 400))
    ensures r.status == 413 ==> r.body == Dumped(ErrorObject("File size exceeds limit", None, 413))
    ensures r.status == 200 && scenario == ZeroByteFile ==> r.body == Dumped(Uploaded("file-123", "test_file.txt", contentLength))
    ensures r.status == 200 && scenario == LargeFileUpload ==> r.body == Dumped(Uploaded("file-456", "large_test_file.bin", contentLength))
  {
    if scenario == ZeroByteFile then
      if contentLength == 0 then Fixed(400, JsonType, Dumped(ErrorObject("File is empty", None, 400)))
      else Fixed(200, JsonType, Dumped(Uploaded("file-123", "test_file.txt", contentLength)))
    else
      if contentLength > UploadLimit then Fixed(413, JsonType, Dumped(ErrorObject("File size exceeds limit", None, 413)))
      else Fixed(200, JsonType, Dumped(Uploaded("file-456", "large_test_file.bin", contentLength)))
  }

  /** POST /v1/files and /files. */
  function UploadFileOpenAI(req: Request): (r: Response)
    ensures r.Fixed?
    ensures r.status == 401 <==> Selector(req) == Some(AuthFailureOpenAI)
    ensures r.status == 413 <==> Selector(req) == Some(LargeFileUpload) && req.contentLength > UploadLimit
    ensures !Selects(Selector(req), OpenAIFileScenarios) ==> r == Fixed(400, JsonType, Dumped(NoScenario("files")))
    ensures Selects(Selector(req), {ZeroByteFile, LargeFileUpload}) ==> r == UploadBySize(Selector(req).value, req.contentLength)
    ensures r.status == 401 ==> r == Fixed(401, JsonType, Dumped(OpenAIAuthError))
  {
    var scenario := Selector(req);
    if scenario == Some(ZeroByteFile) || scenario == Some(LargeFileUpload) then
      UploadBySize(scenario.value, req.contentLength)
    else if scenario == Some(AuthFailureOpenAI) then Fixed(401, JsonType, Dumped(OpenAIAuthError))
    else Fixed(400, JsonType, Dumped(NoScenario("files")))
  }

  /** POST /v1/files:upload. */
  function UploadFileGemini(req: Request): (r: Response)
    ensures r.Fixed?
    ensures r.status == 401 <==> Selector(req) == Some(AuthFailureGemini)
    ensures r.status == 413 <==> Selector(req) == Some(LargeFileUpload) && req.contentLength > UploadLimit
    ensures !Selects(Selector(req), GeminiFileScenarios) ==> r == Fixed(400, JsonType, Dumped(NoScenario("files:upload")))
    ensures Selects(Selector(req), {ZeroByteFile, LargeFileUpload}) ==> r == UploadBySize(Selector(req).value, req.contentLength)
    ensures r.status == 401 ==> r == Fixed(401, JsonType, Dumped(GeminiAuthError))
  {
    var scenario := Selector(req);
    if scenario == Some(ZeroByteFile) || scenario == Some(LargeFileUpload) then
      UploadBySize(scenario.value, req.contentLength)
    else if scenario == Some(AuthFailureGemini) then Fixed(401, JsonType, Dumped(GeminiAuthError))
    else Fixed(400, JsonType, Dumped(NoScenario("files:upload")))
  }

  /** POST /v1/models/<model>:countTokens. */
  function CountTokensGemini(req: Request): (r: Response)
    ensures r.Fixed? && (r.status == 401 || r.status == 400)
    ensures r.status == 401 <==> Selector(req) == Some(AuthFailureGemini)
    ensures r.status == 401 ==> r == Fixed(401, JsonType, Dumped(GeminiAuthError))
    ensures r.status == 400 ==> r == Fixed(400, JsonType, Dumped(NoScenario("countTokens")))
  {
    if Selector(req) == Some(AuthFailureGemini) then Fixed(401, JsonType, Dumped(GeminiAuthError))
    else Fixed(400, JsonType, Dumped(NoScenario("countTokens")))
  }

  /** POST /v1/messages/count_tokens. */
  function CountTokensAnthropic(req: Request): (r: Response)
    ensures r.Fixed? && (r.status == 401 || r.status == 400)
    ensures r.status == 401 <==> AnthropicSelector(req) == Some(AuthFailureAnthropic)
    ensures r.status == 401 ==> r == Fixed(401, JsonType, Dumped(AnthropicAuthError))
    ensures r.status == 400 ==> r == Fixed(400, JsonType, Dumped(NoScenario("Anthropic count_tokens")))
  {
    if AnthropicSelector(req) == Some(AuthFailureAnthropic) then Fixed(401, JsonType, Dumped(AnthropicAuthError))
    else Fixed(400, JsonType, Dumped(NoScenario("Anthropic count_tokens")))
  }
}
