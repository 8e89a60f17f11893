/**
 * src/dp_request.c: the request bodies the library sends to each provider,
 * the reading of a completion reply, and the steps of
 * dp_perform_completion once the transfer is over. cJSON trees are `Json`
 * values: an object is the list of its members in the order the builder
 * adds them, and printing the tree as text is not modelled.
 */
module Request {
  import opened Wrappers
  import opened Json
  import opened Text
  import opened Types
  import StreamResult

  // ---------------------------------------------------------------------
  // Shared pieces of the builders
  // ---------------------------------------------------------------------

  /**
   * One cJSON_Add*ToObject call of a builder: whether it is made (the
   * condition in front of it), the key and the value.
   */
  datatype Entry = Entry(present: bool, key: string, value: Json)

  /** The members a run of calls adds, in call order. */
  function Members(es: seq<Entry>): seq<(string, Json)>
    decreases |es|
  {
    if |es| == 0 then []
    else (if es[0].present then [(es[0].key, es[0].value)] else []) + Members(es[1..])
  }

  /** A key no call uses is not found. */
  lemma {:induction false} MembersMissing(es: seq<Entry>, key: string)
    requires forall j :: 0 <= j < |es| ==> es[j].key != key
    ensures Lookup(Members(es), key).None?
    decreases |es|
  {
    if |es| > 0 {
      var head := if es[0].present then [(es[0].key, es[0].value)] else [];
      MembersMissing(es[1..], key);
      LookupAppend(head, Members(es[1..]), key);
    }
  }

  /** A key only one call uses is found exactly when that call is made, with its value. */
  lemma {:induction false} MembersFind(es: seq<Entry>, i: nat)
    requires i < |es|
    requires forall j :: 0 <= j < |es| && j != i ==> es[j].key != es[i].key
    ensures Lookup(Members(es), es[i].key) == if es[i].present then Some(es[i].value) else None
    decreases i
  {
    var head := if es[0].present then [(es[0].key, es[0].value)] else [];
    LookupAppend(head, Members(es[1..]), es[i].key);
    if i == 0 {
      MembersMissing(es[1..], es[0].key);
    } else {
      MembersFind(es[1..], i - 1);
    }
  }

  /** The calls of two runs add the members of the first, then those of the second. */
  lemma {:induction false} MembersAppend(a: seq<Entry>, b: seq<Entry>)
    ensures Members(a + b) == Members(a) + Members(b)
    decreases |a|
  {
    if |a| > 0 {
      assert (a + b)[0] == a[0];
      assert (a + b)[1..] == a[1..] + b;
      MembersAppend(a[1..], b);
    } else {
      assert a + b == b;
    }
  }

  /** cJSON_CreateStringArray. */
  function Strings(ss: seq<string>): (r: Json)
    ensures r.JArray? && |r.items| == |ss|
    ensures forall i :: 0 <= i < |ss| ==> r.items[i] == JString(ss[i])
  {
    JArray(seq(|ss|, i requires 0 <= i < |ss| => JString(ss[i])))
  }

  /** One tree per element, in order: the builders' loops over messages and parts. */
  function Each<T>(xs: seq<T>, f: T -> Json): (r: seq<Json>)
    ensures |r| == |xs|
    ensures forall i :: 0 <= i < |xs| ==> r[i] == f(xs[i])
  {
    seq(|xs|, i requires 0 <= i < |xs| => f(xs[i]))
  }

  /** The builders test the system prompt for NULL and for strlen > 0. */
  predicate HasPrompt(c: RequestConfig) {
    c.systemPrompt.Some? && |c.systemPrompt.value| > 0
  }

  function Prompt(c: RequestConfig): string {
    c.systemPrompt.GetOr("")
  }

  /**
   * The messages every builder sends: all but the SYSTEM ones, in order.
   * (The system prompt travels in its own member.)
   */
  function Conversation(messages: seq<MessageData>): (r: seq<MessageData>)
    ensures |r| <= |messages|
    ensures forall i :: 0 <= i < |r| ==> r[i].role != System
    decreases |messages|
  {
    if |messages| == 0 then []
    else (if messages[0].role == System then [] else [messages[0]]) + Conversation(messages[1..])
  }

  /** Skipping SYSTEM messages distributes over a split of the array. */
  lemma {:induction false} ConversationAppend(a: seq<MessageData>, b: seq<MessageData>)
    ensures Conversation(a + b) == Conversation(a) + Conversation(b)
    decreases |a|
  {
    if |a| > 0 {
      assert (a + b)[0] == a[0];
      assert (a + b)[1..] == a[1..] + b;
      ConversationAppend(a[1..], b);
    } else {
      assert a + b == b;
    }
  }

  /** Nothing but SYSTEM messages are dropped: a conversation without them is sent whole. */
  lemma {:induction false} ConversationKeepsOthers(messages: seq<MessageData>)
    requires forall i :: 0 <= i < |messages| ==> messages[i].role != System
    ensures Conversation(messages) == messages
    decreases |messages|
  {
    if |messages| > 0 {
      ConversationKeepsOthers(messages[1..]);
      assert messages == [messages[0]] + messages[1..];
    }
  }

  /** snprintf into a 512-byte buffer keeps at most 511 characters. */
  const NoteLimit: nat := 511

  /** A message whose only part is a text part. */
  predicate SingleText(m: MessageData) {
    |m.parts| == 1 && m.parts[0].TextPart?
  }

  /** The empty object a builder adds for a part kind it does not handle. */
  const EmptyObject := JObject([])

  /** An object of type "text" holding `t`. */
  function TextBlock(t: string): Json {
    JObject([("type", JString("text")), ("text", JString(t))])
  }

  // ---------------------------------------------------------------------
  // OpenAI: build_openai_json_payload_with_cjson
  // ---------------------------------------------------------------------

  function OpenAIRole(role: Role): (s: string)
    ensures s != "system"
    ensures s == "assistant" <==> role == Assistant
    ensures s == "tool" <==> role == Tool
  {
    match role
    case User => "user"
    case Assistant => "assistant"
    case Tool => "tool"
    case System => "user"
  }

  /** The data URI a base64 image is sent as. */
  function DataUri(mimeType: string, data: string): string {
    "data:" + mimeType + ";base64," + data
  }

  function ImageUrlObject(url: string): Json {
    JObject([("type", JString("image_url")), ("image_url", JObject([("url", JString(url))]))])
  }

  function OpenAIPart(p: ContentPart): (r: Json)
    ensures r == EmptyObject <==> p.FileDataPart? || p.FileReferencePart?
  {
    match p
    case TextPart(t) => TextBlock(t)
    case ImageUrlPart(u) => ImageUrlObject(u)
    case ImageBase64Part(m, d) => ImageUrlObject(DataUri(m, d))
    case _ => EmptyObject
  }

  /** A lone text part is sent as the content string, anything else as an array of parts. */
  function OpenAIMessage(m: MessageData): Json {
    JObject([("role", JString(OpenAIRole(m.role))),
             ("content", if SingleText(m) then JString(m.parts[0].text) else JArray(Each(m.parts, OpenAIPart)))])
  }

  function OpenAISystem(c: RequestConfig): seq<Json> {
    if HasPrompt(c) then [JObject([("role", JString("system")), ("content", JString(Prompt(c)))])] else []
  }

  function OpenAIEntries(c: RequestConfig): seq<Entry> {
    [Entry(true, "model", JString(c.model)),
     Entry(c.temperature >= 0.0, "temperature", JNumber(c.temperature)),
     Entry(c.maxTokens > 0, "max_tokens", JNumber(c.maxTokens as real)),
     Entry(c.stream, "stream", JBool(true)),
     Entry(c.topP > 0.0, "top_p", JNumber(c.topP)),
     Entry(|c.stopSequences| > 0, "stop", Strings(c.stopSequences)),
     Entry(true, "messages", JArray(OpenAISystem(c) + Each(Conversation(c.messages), OpenAIMessage)))]
  }

  function OpenAIPayload(c: RequestConfig): Json {
    JObject(Members(OpenAIEntries(c)))
  }

  // ---------------------------------------------------------------------
  // Gemini: build_gemini_json_payload_with_cjson and
  // build_gemini_count_tokens_json_payload_with_cjson
  // ---------------------------------------------------------------------

  function GeminiRole(role: Role): (s: string)
    ensures s == "model" <==> role == Assistant
    ensures s == "user" <==> role != Assistant
  {
    if role == Assistant then "model" else "user"
  }

  function GeminiUrlNote(url: string): string {
    Prefix("Image at URL: " + url, NoteLimit)
  }

  function GeminiPart(p: ContentPart): (r: Json)
    ensures r == EmptyObject <==> p.FileDataPart?
  {
    match p
    case TextPart(t) => JObject([("text", JString(t))])
    case ImageBase64Part(m, d) => JObject([("inline_data", JObject([("mime_type", JString(m)), ("data", JString(d))]))])
    case ImageUrlPart(u) => JObject([("text", JString(GeminiUrlNote(u)))])
    case FileReferencePart(id, m) => JObject([("fileData", JObject([("mime_type", JString(m)), ("fileUri", JString(id))]))])
    case FileDataPart(_, _, _) => EmptyObject
  }

  function GeminiContent(m: MessageData): Json {
    JObject([("role", JString(GeminiRole(m.role))), ("parts", JArray(Each(m.parts, GeminiPart)))])
  }

  /** `system_instruction.parts[0].text`, for a non-empty prompt. */
  function SystemInstruction(prompt: string): Json {
    JObject([("parts", JArray([JObject([("text", JString(prompt))])]))])
  }

  function GeminiContents(c: RequestConfig): Json {
    JArray(Each(Conversation(c.messages), GeminiContent))
  }

  function GenerationEntries(c: RequestConfig): seq<Entry> {
    [Entry(c.temperature >= 0.0, "temperature", JNumber(c.temperature)),
     Entry(c.maxTokens > 0, "maxOutputTokens", JNumber(c.maxTokens as real)),
     Entry(c.topP > 0.0, "topP", JNumber(c.topP)),
     Entry(c.topK > 0, "topK", JNumber(c.topK as real)),
     Entry(|c.stopSequences| > 0, "stopSequences", Strings(c.stopSequences))]
  }

  function GenerationConfig(c: RequestConfig): Json {
    JObject(Members(GenerationEntries(c)))
  }

  /** The members both Gemini builders start with. */
  function GeminiCountEntries(c: RequestConfig): seq<Entry> {
    [Entry(HasPrompt(c), "system_instruction", SystemInstruction(Prompt(c))),
     Entry(true, "contents", GeminiContents(c))]
  }

  function GeminiEntries(c: RequestConfig): seq<Entry> {
    GeminiCountEntries(c) + [Entry(true, "generationConfig", GenerationConfig(c))]
  }

  function GeminiPayload(c: RequestConfig): Json {
    JObject(Members(GeminiEntries(c)))
  }

  function GeminiCountTokensPayload(c: RequestConfig): Json {
    JObject(Members(GeminiCountEntries(c)))
  }

  // ---------------------------------------------------------------------
  // Anthropic: build_anthropic_json_payload_with_cjson and
  // build_anthropic_count_tokens_json_payload_with_cjson
  // ---------------------------------------------------------------------

  function AnthropicRole(role: Role): (s: string)
    ensures s == "assistant" <==> role == Assistant
    ensures s == "user" <==> role != Assistant
  {
    if role == Assistant then "assistant" else "user"
  }

  function AnthropicUrlNote(url: string): string {
    Prefix("Image referenced by URL: " + url + " (Anthropic prefers direct image data)", NoteLimit)
  }

  function AnthropicFileNote(fileId: string): string {
    Prefix("File referenced by ID: " + fileId + " (Anthropic does not support file references in this manner)", NoteLimit)
  }

  function AnthropicPart(p: ContentPart): (r: Json)
    ensures r == EmptyObject <==> p.FileDataPart? || p.FileReferencePart?
  {
    match p
    case TextPart(t) => TextBlock(t)
    case ImageBase64Part(m, d) =>
      JObject([("type", JString("image")),
               ("source", JObject([("type", JString("base64")), ("media_type", JString(m)), ("data", JString(d))]))])
    case ImageUrlPart(u) => TextBlock(AnthropicUrlNote(u))
    case _ => EmptyObject
  }

  /** The count-tokens builder also turns a file reference into a text note. */
  function AnthropicCountPart(p: ContentPart): (r: Json)
    ensures r == EmptyObject <==> p.FileDataPart?
  {
    match p
    case FileReferencePart(id, _) => TextBlock(AnthropicFileNote(id))
    case _ => AnthropicPart(p)
  }

  /** Content is always an array of parts. */
  function AnthropicMessage(m: MessageData): Json {
    JObject([("role", JString(AnthropicRole(m.role))), ("content", JArray(Each(m.parts, AnthropicPart)))])
  }

  /** A lone text part is sent as the content string, anything else as an array of parts. */
  function AnthropicCountMessage(m: MessageData): Json {
    JObject([("role", JString(AnthropicRole(m.role))),
             ("content", if SingleText(m) then JString(m.parts[0].text) else JArray(Each(m.parts, AnthropicCountPart)))])
  }

  /** max_tokens when positive, else 4096. */
  const AnthropicDefaultMaxTokens := 4096

  function AnthropicEntries(c: RequestConfig): seq<Entry> {
    [Entry(true, "model", JString(c.model)),
     Entry(true, "max_tokens", JNumber((if c.maxTokens > 0 then c.maxTokens else AnthropicDefaultMaxTokens) as real)),
     Entry(0.0 <= c.temperature <= 1.0, "temperature", JNumber(c.temperature)),
     Entry(c.topP > 0.0, "top_p", JNumber(c.topP)),
     Entry(c.topK > 0, "top_k", JNumber(c.topK as real)),
     Entry(|c.stopSequences| > 0, "stop_sequences", Strings(c.stopSequences)),
     Entry(HasPrompt(c), "system", JString(Prompt(c))),
     Entry(true, "messages", JArray(Each(Conversation(c.messages), AnthropicMessage))),
     Entry(c.stream, "stream", JBool(true))]
  }

  function AnthropicPayload(c: RequestConfig): Json {
    JObject(Members(AnthropicEntries(c)))
  }

  function AnthropicCountEntries(c: RequestConfig): seq<Entry> {
    [Entry(true, "model", JString(c.model)),
     Entry(HasPrompt(c), "system", JString(Prompt(c))),
     Entry(true, "messages", JArray(Each(Conversation(c.messages), AnthropicCountMessage)))]
  }

  function AnthropicCountTokensPayload(c: RequestConfig): Json {
    JObject(Members(AnthropicCountEntries(c)))
  }

  /** The completion body dp_perform_completion builds; no builder for a provider outside the enumeration. */
  function Payload(provider: Provider, c: RequestConfig): (r: Option<Json>)
    ensures r.None? <==> provider.OtherProvider?
  {
    match provider
    case OpenAICompatible => Some(OpenAIPayload(c))
    case GoogleGemini => Some(GeminiPayload(c))
    case Anthropic => Some(AnthropicPayload(c))
    case OtherProvider(_) => None
  }

  // ---------------------------------------------------------------------
  // Reading the parts back: what each provider is sent of a part
  // ---------------------------------------------------------------------

  /** The parts a content value holds: a string is one text part, an array one entry per element. */
  function ReadContent(content: Option<Json>, read: Json -> Option<ContentPart>): seq<Option<ContentPart>> {
    match content
    case Some(JString(s)) => [Some(TextPart(s))]
    case Some(JArray(items)) => seq(|items|, i requires 0 <= i < |items| => read(items[i]))
    case _ => []
  }

  /** What a provider is sent of each part, in order; `None` for a part sent as `{}`. */
  function Seen(parts: seq<ContentPart>, view: ContentPart -> Option<ContentPart>): seq<Option<ContentPart>> {
    seq(|parts|, i requires 0 <= i < |parts| => view(parts[i]))
  }

  /** An OpenAI reader of one part: a text part, or the image an image_url part points at. */
  function ReadOpenAIPart(j: Json): Option<ContentPart> {
    var kind := GetString(j, "type");
    var text := GetString(j, "text");
    var image := Get(j, "image_url");
    if kind == Some("text") && text.Some? then Some(TextPart(text.value))
    else if kind == Some("image_url") && image.Some? && GetString(image.value, "url").Some? then
      Some(ImageUrlPart(GetString(image.value, "url").value))
    else None
  }

  /** What OpenAI is sent of a part: a base64 image is the image at its data URI; files are not sent. */
  function OpenAIView(p: ContentPart): Option<ContentPart> {
    match p
    case TextPart(_) => Some(p)
    case ImageUrlPart(_) => Some(p)
    case ImageBase64Part(m, d) => Some(ImageUrlPart(DataUri(m, d)))
    case _ => None
  }

  lemma OpenAIPartReadsBack(p: ContentPart)
    ensures ReadOpenAIPart(OpenAIPart(p)) == OpenAIView(p)
  {
    match p
    case TextPart(t) => LookupFirst(TextBlock(t).fields, "text", 1);
    case ImageUrlPart(u) => LookupFirst(ImageUrlObject(u).fields, "image_url", 1);
    case ImageBase64Part(m, d) => LookupFirst(ImageUrlObject(DataUri(m, d)).fields, "image_url", 1);
    case _ =>
  }

  /**
   * An OpenAI message carries its role, and its content (a string for a
   * lone text part, an array otherwise) reads back as its parts in order.
   */
  lemma OpenAIMessageReadsBack(m: MessageData)
    ensures GetString(OpenAIMessage(m), "role") == Some(OpenAIRole(m.role))
    ensures Get(OpenAIMessage(m), "content").Some?
    ensures Get(OpenAIMessage(m), "content").value.JString? <==> SingleText(m)
    ensures ReadContent(Get(OpenAIMessage(m), "content"), ReadOpenAIPart) == Seen(m.parts, OpenAIView)
  {
    LookupFirst(OpenAIMessage(m).fields, "content", 1);
    forall i | 0 <= i < |m.parts| {
      OpenAIPartReadsBack(m.parts[i]);
    }
  }

  /** A Gemini reader of one part: text, inline data or file data. */
  function ReadGeminiPart(j: Json): Option<ContentPart> {
    var text := GetString(j, "text");
    var inline := Get(j, "inline_data");
    var file := Get(j, "fileData");
    if text.Some? then Some(TextPart(text.value))
    else if inline.Some? && GetString(inline.value, "mime_type").Some? && GetString(inline.value, "data").Some? then
      Some(ImageBase64Part(GetString(inline.value, "mime_type").value, GetString(inline.value, "data").value))
    else if file.Some? && GetString(file.value, "fileUri").Some? && GetString(file.value, "mime_type").Some? then
      Some(FileReferencePart(GetString(file.value, "fileUri").value, GetString(file.value, "mime_type").value))
    else None
  }

  /** What Gemini is sent of a part: an image URL only as a text note; inline file data not at all. */
  function GeminiView(p: ContentPart): Option<ContentPart> {
    match p
    case ImageUrlPart(u) => Some(TextPart(GeminiUrlNote(u)))
    case FileDataPart(_, _, _) => None
    case _ => Some(p)
  }

  lemma GeminiPartReadsBack(p: ContentPart)
    ensures ReadGeminiPart(GeminiPart(p)) == GeminiView(p)
  {
    var j := GeminiPart(p);
    match p
    case ImageBase64Part(m, d) =>
      var inline := JObject([("mime_type", JString(m)), ("data", JString(d))]);
      assert j == JObject([("inline_data", inline)]);
      LookupMissing(j.fields, "text");
      LookupFirst(inline.fields, "data", 1);
      assert GetString(inline, "mime_type") == Some(m) && GetString(inline, "data") == Some(d);
    case FileReferencePart(id, m) =>
      var file := JObject([("mime_type", JString(m)), ("fileUri", JString(id))]);
      assert j == JObject([("fileData", file)]);
      LookupMissing(j.fields, "text");
      LookupMissing(j.fields, "inline_data");
      LookupFirst(file.fields, "fileUri", 1);
      assert GetString(file, "mime_type") == Some(m) && GetString(file, "fileUri") == Some(id);
    case FileDataPart(_, _, _) =>
      assert Get(j, "text").None? && Get(j, "inline_data").None? && Get(j, "fileData").None?;
    case TextPart(t) =>
      assert GetString(j, "text") == Some(t);
    case ImageUrlPart(u) =>
      assert GetString(j, "text") == Some(GeminiUrlNote(u));
  }

  /** A Gemini content entry carries the mapped role, and its parts read back in order. */
  lemma GeminiContentReadsBack(m: MessageData)
    ensures GetString(GeminiContent(m), "role") == Some(GeminiRole(m.role))
    ensures ReadContent(Get(GeminiContent(m), "parts"), ReadGeminiPart) == Seen(m.parts, GeminiView)
  {
    LookupFirst(GeminiContent(m).fields, "parts", 1);
    forall i | 0 <= i < |m.parts| {
      GeminiPartReadsBack(m.parts[i]);
    }
  }

  /** An Anthropic reader of one part: a text block or a base64 image source. */
  function ReadAnthropicPart(j: Json): Option<ContentPart> {
    var kind := GetString(j, "type");
    var text := GetString(j, "text");
    var source := Get(j, "source");
    if kind == Some("text") && text.Some? then Some(TextPart(text.value))
    else if kind == Some("image") && source.Some? && GetString(source.value, "type") == Some("base64")
            && GetString(source.value, "media_type").Some? && GetString(source.value, "data").Some? then
      Some(ImageBase64Part(GetString(source.value, "media_type").value, GetString(source.value, "data").value))
    else None
  }

  /** What Anthropic is sent of a part: an image URL only as a text note; files not at all. */
  function AnthropicView(p: ContentPart): Option<ContentPart> {
    match p
    case TextPart(_) => Some(p)
    case ImageBase64Part(_, _) => Some(p)
    case ImageUrlPart(u) => Some(TextPart(AnthropicUrlNote(u)))
    case _ => None
  }

  /** The count-tokens request also sends a file reference, as a text note. */
  function AnthropicCountView(p: ContentPart): Option<ContentPart> {
    match p
    case FileReferencePart(id, _) => Some(TextPart(AnthropicFileNote(id)))
    case _ => AnthropicView(p)
  }

  lemma AnthropicPartReadsBack(p: ContentPart)
    ensures ReadAnthropicPart(AnthropicPart(p)) == AnthropicView(p)
  {
    match p
    case TextPart(t) => LookupFirst(TextBlock(t).fields, "text", 1);
    case ImageUrlPart(u) => LookupFirst(TextBlock(AnthropicUrlNote(u)).fields, "text", 1);
    case ImageBase64Part(m, d) =>
      var source := JObject([("type", JString("base64")), ("media_type", JString(m)), ("data", JString(d))]);
      LookupFirst(source.fields, "media_type", 1);
      LookupFirst(source.fields, "data", 2);
      LookupFirst(AnthropicPart(p).fields, "source", 1);
    case _ =>
  }

  /** The count-tokens conversion reads back the same, plus a file reference's note. */
  lemma AnthropicCountPartReadsBack(p: ContentPart)
    ensures ReadAnthropicPart(AnthropicCountPart(p)) == AnthropicCountView(p)
  {
    match p
    case FileReferencePart(id, _) => LookupFirst(TextBlock(AnthropicFileNote(id)).fields, "text", 1);
    case _ => AnthropicPartReadsBack(p);
  }

  /** An Anthropic message's content is always an array, and reads back as its parts in order. */
  lemma AnthropicMessageReadsBack(m: MessageData)
    ensures GetString(AnthropicMessage(m), "role") == Some(AnthropicRole(m.role))
    ensures Get(AnthropicMessage(m), "content").Some? && Get(AnthropicMessage(m), "content").value.JArray?
    ensures ReadContent(Get(AnthropicMessage(m), "content"), ReadAnthropicPart) == Seen(m.parts, AnthropicView)
  {
    LookupFirst(AnthropicMessage(m).fields, "content", 1);
    forall i | 0 <= i < |m.parts| {
      AnthropicPartReadsBack(m.parts[i]);
    }
  }

  /**
   * An Anthropic count-tokens message has string content exactly for a lone
   * text part; either way it reads back as its parts in order.
   */
  lemma AnthropicCountMessageReadsBack(m: MessageData)
    ensures GetString(AnthropicCountMessage(m), "role") == Some(AnthropicRole(m.role))
    ensures Get(AnthropicCountMessage(m), "content").Some?
    ensures Get(AnthropicCountMessage(m), "content").value.JString? <==> SingleText(m)
    ensures ReadContent(Get(AnthropicCountMessage(m), "content"), ReadAnthropicPart) == Seen(m.parts, AnthropicCountView)
  {
    LookupFirst(AnthropicCountMessage(m).fields, "content", 1);
    forall i | 0 <= i < |m.parts| {
      AnthropicCountPartReadsBack(m.parts[i]);
    }
  }

  // ---------------------------------------------------------------------
  // What each builder's body says: its members, read back with Get
  // ---------------------------------------------------------------------

  /**
   * The OpenAI body: the model, stream when set and the messages; never
   * top_k or a system member.
   */
  lemma OpenAIPayloadFields(c: RequestConfig)
    ensures var p := OpenAIPayload(c);
      && Get(p, "model") == Some(JString(c.model))
      && Get(p, "stream") == (if c.stream then Some(JBool(true)) else None)
      && Get(p, "messages") == Some(JArray(OpenAISystem(c) + Each(Conversation(c.messages), OpenAIMessage)))
      && !Has(p, "top_k") && !Has(p, "system")
  {
    var es := OpenAIEntries(c);
    MembersFind(es, 0);
    MembersFind(es, 3);
    MembersFind(es, 6);
    MembersMissing(es, "top_k");
    MembersMissing(es, "system");
  }

  /**
   * The OpenAI body's sampling settings: temperature when >= 0, max_tokens
   * when > 0, top_p when > 0, stop when there are stop sequences.
   */
  lemma OpenAISamplingFields(c: RequestConfig)
    ensures var p := OpenAIPayload(c);
      && Get(p, "temperature") == (if c.temperature >= 0.0 then Some(JNumber(c.temperature)) else None)
      && Get(p, "max_tokens") == (if c.maxTokens > 0 then Some(JNumber(c.maxTokens as real)) else None)
      && Get(p, "top_p") == (if c.topP > 0.0 then Some(JNumber(c.topP)) else None)
      && Get(p, "stop") == (if |c.stopSequences| > 0 then Some(Strings(c.stopSequences)) else None)
  {
    var es := OpenAIEntries(c);
    MembersFind(es, 1);
    MembersFind(es, 2);
    MembersFind(es, 4);
    MembersFind(es, 5);
  }

  /**
   * The OpenAI messages array: a non-empty system prompt first, as a
   * "system" message, then one message per non-SYSTEM message in order;
   * no other entry has the "system" role.
   */
  lemma OpenAIMessagesArray(c: RequestConfig)
    ensures var ms := Get(OpenAIPayload(c), "messages");
      var conv := Conversation(c.messages);
      var offset := if HasPrompt(c) then 1 else 0;
      && ms.Some? && ms.value.JArray? && |ms.value.items| == offset + |conv|
      && (HasPrompt(c) ==> ms.value.items[0] == JObject([("role", JString("system")), ("content", JString(Prompt(c)))]))
      && (forall i :: 0 <= i < |conv| ==> ms.value.items[offset + i] == OpenAIMessage(conv[i]))
      && (forall i :: 0 <= i < |ms.value.items| ==> (GetString(ms.value.items[i], "role") == Some("system") <==> HasPrompt(c) && i == 0))
  {
    MembersFind(OpenAIEntries(c), 6);
    OpenAIMessageList(c);
    OpenAISystemRoleFirst(c);
  }

  lemma OpenAIMessageList(c: RequestConfig)
    ensures var xs := OpenAISystem(c) + Each(Conversation(c.messages), OpenAIMessage);
      var conv := Conversation(c.messages);
      var offset := if HasPrompt(c) then 1 else 0;
      && |xs| == offset + |conv|
      && (HasPrompt(c) ==> xs[0] == JObject([("role", JString("system")), ("content", JString(Prompt(c)))]))
      && (forall i :: 0 <= i < |conv| ==> xs[offset + i] == OpenAIMessage(conv[i]))
  {
    var sys := OpenAISystem(c);
    var conv := Conversation(c.messages);
    var offset := if HasPrompt(c) then 1 else 0;
    assert |sys| == offset;
    PrefixedEach(sys, conv, OpenAIMessage, offset);
  }

  /** Past a prefix of length `offset`, the converted elements follow in order. */
  lemma PrefixedEach<T>(sys: seq<Json>, xs: seq<T>, f: T -> Json, offset: nat)
    requires offset == |sys|
    ensures |sys + Each(xs, f)| == offset + |xs|
    ensures forall i :: 0 <= i < |xs| ==> (sys + Each(xs, f))[offset + i] == f(xs[i])
  {
    var rest := Each(xs, f);
    forall i | 0 <= i < |xs| ensures (sys + rest)[offset + i] == f(xs[i]) {
      assert (sys + rest)[offset + i] == rest[i];
    }
  }

  /** Only the system prompt's entry, first in the list, has the "system" role. */
  lemma OpenAISystemRoleFirst(c: RequestConfig)
    ensures var xs := OpenAISystem(c) + Each(Conversation(c.messages), OpenAIMessage);
      forall i :: 0 <= i < |xs| ==> (GetString(xs[i], "role") == Some("system") <==> HasPrompt(c) && i == 0)
  {
    OpenAIRestRoles(Conversation(c.messages));
    OpenAISystemEntry(c);
    ConcatRoles(OpenAISystem(c), Each(Conversation(c.messages), OpenAIMessage));
  }

  lemma OpenAISystemEntry(c: RequestConfig)
    ensures |OpenAISystem(c)| == if HasPrompt(c) then 1 else 0
    ensures HasPrompt(c) ==> OpenAISystem(c)[0] == JObject([("role", JString("system")), ("content", JString(Prompt(c)))])
    ensures forall k :: 0 <= k < |OpenAISystem(c)| ==> GetString(OpenAISystem(c)[k], "role") == Some("system")
  {
  }

  /** No converted conversation message has the "system" role. */
  lemma OpenAIRestRoles(conv: seq<MessageData>)
    ensures forall k :: 0 <= k < |conv| ==> GetString(Each(conv, OpenAIMessage)[k], "role") != Some("system")
  {
    forall k | 0 <= k < |conv|
      ensures GetString(Each(conv, OpenAIMessage)[k], "role") != Some("system")
    {
      OpenAIMessageReadsBack(conv[k]);
    }
  }

  /** In `sys + rest` the "system" entries are those of `sys`. */
  lemma ConcatRoles(sys: seq<Json>, rest: seq<Json>)
    requires forall k :: 0 <= k < |sys| ==> GetString(sys[k], "role") == Some("system")
    requires forall k :: 0 <= k < |rest| ==> GetString(rest[k], "role") != Some("system")
    ensures forall i :: 0 <= i < |sys + rest| ==> (GetString((sys + rest)[i], "role") == Some("system") <==> i < |sys|)
  {
  }

  /**
   * The Gemini body: system_instruction.parts[0].text for a non-empty
   * prompt, the contents, and generationConfig with temperature when >= 0,
   * maxOutputTokens when > 0, topP when > 0, topK when > 0 and
   * stopSequences when there are any. The model and the stream flag are
   * not in the body.
   */
  lemma GeminiPayloadFields(c: RequestConfig)
    ensures var p := GeminiPayload(c);
      && (Has(p, "system_instruction") <==> HasPrompt(c))
      && (HasPrompt(c) ==> Get(p, "system_instruction") == Some(JObject([("parts", JArray([JObject([("text", JString(c.systemPrompt.value))])]))])))
      && Get(p, "contents") == Some(GeminiContents(c))
      && Get(p, "generationConfig") == Some(GenerationConfig(c))
      && !Has(p, "model") && !Has(p, "stream")
  {
    var es := GeminiEntries(c);
    MembersFind(es, 0);
    MembersFind(es, 1);
    MembersFind(es, 2);
    MembersMissing(es, "model");
    MembersMissing(es, "stream");
  }

  /** The generationConfig holds each sampling setting the config gives, under Gemini's names. */
  lemma GenerationConfigFields(c: RequestConfig)
    ensures var g := GenerationConfig(c);
      && Get(g, "temperature") == (if c.temperature >= 0.0 then Some(JNumber(c.temperature)) else None)
      && Get(g, "maxOutputTokens") == (if c.maxTokens > 0 then Some(JNumber(c.maxTokens as real)) else None)
      && Get(g, "topP") == (if c.topP > 0.0 then Some(JNumber(c.topP)) else None)
      && Get(g, "topK") == (if c.topK > 0 then Some(JNumber(c.topK as real)) else None)
      && Get(g, "stopSequences") == (if |c.stopSequences| > 0 then Some(Strings(c.stopSequences)) else None)
  {
    var gs := GenerationEntries(c);
    MembersFind(gs, 0);
    MembersFind(gs, 1);
    MembersFind(gs, 2);
    MembersFind(gs, 3);
    MembersFind(gs, 4);
  }

  /** The Gemini count-tokens body is the completion body without its generationConfig. */
  lemma GeminiCountTokensOmitsConfig(c: RequestConfig)
    ensures GeminiPayload(c).fields == GeminiCountTokensPayload(c).fields + [("generationConfig", GenerationConfig(c))]
    ensures !Has(GeminiCountTokensPayload(c), "generationConfig")
    ensures Get(GeminiCountTokensPayload(c), "contents") == Get(GeminiPayload(c), "contents")
  {
    var es := GeminiCountEntries(c);
    var last := [Entry(true, "generationConfig", GenerationConfig(c))];
    MembersAppend(es, last);
    MembersMissing(es, "generationConfig");
    MembersFind(es, 1);
    MembersFind(es + last, 1);
  }

  /**
   * The Anthropic body: the model, max_tokens (4096 unless a positive limit
   * is set), system for a non-empty prompt, the messages, and stream:true
   * when set.
   */
  lemma AnthropicPayloadFields(c: RequestConfig)
    ensures var p := AnthropicPayload(c);
      && Get(p, "model") == Some(JString(c.model))
      && Get(p, "max_tokens") == Some(JNumber(if c.maxTokens > 0 then c.maxTokens as real else 4096.0))
      && Get(p, "system") == (if HasPrompt(c) then Some(JString(c.systemPrompt.value)) else None)
      && Get(p, "messages") == Some(JArray(Each(Conversation(c.messages), AnthropicMessage)))
      && Get(p, "stream") == (if c.stream then Some(JBool(true)) else None)
  {
    var es := AnthropicEntries(c);
    MembersFind(es, 0);
    MembersFind(es, 1);
    MembersFind(es, 6);
    MembersFind(es, 7);
    MembersFind(es, 8);
  }

  /**
   * The Anthropic sampling members: temperature only within [0, 1], top_p
   * and top_k when > 0, stop_sequences when there are any.
   */
  lemma AnthropicSamplingFields(c: RequestConfig)
    ensures var p := AnthropicPayload(c);
      && Get(p, "temperature") == (if 0.0 <= c.temperature <= 1.0 then Some(JNumber(c.temperature)) else None)
      && Get(p, "top_p") == (if c.topP > 0.0 then Some(JNumber(c.topP)) else None)
      && Get(p, "top_k") == (if c.topK > 0 then Some(JNumber(c.topK as real)) else None)
      && Get(p, "stop_sequences") == (if |c.stopSequences| > 0 then Some(Strings(c.stopSequences)) else None)
  {
    var es := AnthropicEntries(c);
    MembersFind(es, 2);
    MembersFind(es, 3);
    MembersFind(es, 4);
    MembersFind(es, 5);
  }

  /**
   * The Anthropic count-tokens body: the model, system for a non-empty
   * prompt and the messages; no token limit, sampling member or stream flag.
   */
  lemma AnthropicCountTokensFields(c: RequestConfig)
    ensures var p := AnthropicCountTokensPayload(c);
      && Get(p, "model") == Some(JString(c.model))
      && Get(p, "system") == (if HasPrompt(c) then Some(JString(c.systemPrompt.value)) else None)
      && Get(p, "messages") == Some(JArray(Each(Conversation(c.messages), AnthropicCountMessage)))
      && !Has(p, "max_tokens") && !Has(p, "temperature") && !Has(p, "stream")
  {
    var es := AnthropicCountEntries(c);
    MembersFind(es, 0);
    MembersFind(es, 1);
    MembersFind(es, 2);
    MembersMissing(es, "max_tokens");
    MembersMissing(es, "temperature");
    MembersMissing(es, "stream");
  }
}
