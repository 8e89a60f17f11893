# disasterparty core, modelled in Dafny

disasterparty is a C client library. It talks to three chat-completion
providers: OpenAI-compatible servers, Google Gemini and Anthropic. A test
suite drives it against a Flask mock server. This project models the
library's core and the mock server's scenario table, and proves properties
of both.

The library part covers:

- the context (`dp_context.c`): provider, API key, base URL, user agent;
- messages and their parts (`dp_message.c`);
- JSON (de)serialisation of conversations (`dp_serialize.c`);
- the file helpers (`dp_file.c`): base64 encoding, MIME detection, file names;
- the per-provider request builders and the reply extraction of
  `dp_perform_completion` (`dp_request.c`);
- model listing (`dp_models.c`);
- the two server-sent-event write callbacks of `dp_stream.c`, with their
  growing buffer, their event framing and the end-of-stream resolution of
  both streaming entry points.

The mock part covers `tests/mock-server/main.py`, which picks a canned answer
by API key, and `tests/mock-server/gemini_auth_mock.py`.

Modules follow the source files:

| module | file |
|---|---|
| `Types` | shared datatypes of `disasterparty.h`, constants of `dp_constants.c` |
| `Json` | a cJSON tree as a datatype, with first-match object lookup |
| `Text` | the C string helpers used (`strstr`, `strrchr`, `tolower`, `%d`, `%.Ns`) |
| `Context` | `dp_context.c` |
| `Message` | `dp_message.c` |
| `Serialize` | `dp_serialize.c` |
| `FileHelpers` | `dp_file.c` |
| `Request` | the payload builders of `dp_request.c` |
| `Completion` | `dp_perform_completion` and its reply extraction |
| `Models` | `dp_models.c` |
| `SseFraming` | buffer growth and event-separator search shared by both stream callbacks |
| `Stream` | the generic write callback of `dp_stream.c` (`StreamProcessor`) |
| `AnthropicStream` | the detailed Anthropic write callback (`DetailedProcessor`) |
| `StreamResult` | `dp_perform_streaming_completion` and `dp_perform_anthropic_streaming_completion` |
| `MockServer` | `tests/mock-server/main.py` |
| `GeminiAuthMock` | `tests/mock-server/gemini_auth_mock.py` |
| `MockStreamReplay` | the mock's Anthropic event streams fed through `AnthropicStream` |

Some choices shape every module:

- cJSON's parser is a parameter `parse: string -> Option<Json>`.
- A libcurl transfer is an input value: whether `curl_easy_perform` succeeded, the HTTP status and the body, or the sequence of chunks handed to the write callback.
- A user stream callback is a function from the calls delivered so far to its return value. The processors record every call in a `calls` log.
- The stream processors are classes. Each has a heap `array<char>` buffer that grows as the source's `realloc` does and is compacted in place.
- Their functional specification is `Feed`/`Drain` on an abstract `Progress` value. `Write` is proved to produce exactly that.

## Model

| member | source | states |
|---|---|---|
| Context.NewContextFails | src/dp_context.c:13-78 | context creation fails exactly when no API key is given, or when an unknown provider has no base URL |
| Context.NewContextFields | src/dp_context.c:27-67 | provider and key are kept; the base URL is the given one, else the provider's default endpoint; the user agent comes from the app name and version; requests start with `max_completion_tokens` |
| Context.UserAgentParts | src/dp_context.c:49-64 | the user agent is `name/version (disasterparty/V)`, `name (disasterparty/V)` or the bare library product, depending on which parts are given |
| Context.UserAgentNameAndVersion | src/dp_context.c:50-55 | app "MyApp" version "1.2.3" gives "MyApp/1.2.3 (disasterparty/0.2.0)" |
| Context.UserAgentWithBoth | src/dp_context.c:50-55 | with both name and version, the agent is `name/version (disasterparty/0.2.0)` for every name and version |
| Context.UserAgentVersionOnly | src/dp_context.c:62-64 | a version without a name is ignored: the agent is "disasterparty/0.2.0" |
| Context.UserAgentEmptyStrings | src/dp_context.c:50-55 | empty name and version strings still take the first branch: "/ (disasterparty/0.2.0)" |
| Context.Context.constructor | src/dp_context.c:23-28 | a new context object holds exactly the given field values |
| Context.InitContextWithAppInfo | src/dp_context.c:13-78 | returns null exactly when creation fails; otherwise a fresh context whose fields are those of NewContext |
| Context.InitContext | src/dp_context.c:9-11 | same as the app-info form with no name and version, so the user agent is the library product alone |
| Message.NewPart | src/dp_message.c:46-70 | a part is built exactly when its kind's required strings are present, and it has the requested kind |
| Message.NewPartCopiesArguments | src/dp_message.c:46-70 | a built part carries copies of the given strings, and a file-data part keeps the optional file name |
| Message.AddPart | src/dp_message.c:32-74 | appending succeeds iff the required fields are present; then the parts grow by one, the old ones are kept in order and the new last part has the kind; on failure nothing changes |
| Message.AddAllAppendsAccepted | src/dp_message.c:32-74 | adding parts one after another appends exactly the accepted ones, in call order |
| Message.Message.constructor | src/dp_serialize.c:92 | a zeroed message has role system and no parts |
| Message.AddPartInternal | src/dp_message.c:32-74 | a null message gives false; otherwise result and new parts are those of AddPart on the old parts, and the role is untouched |
| Message.AddTextPart | src/dp_message.c:76-78 | succeeds iff the message and text are given; then the parts are the old ones plus one text part |
| Message.AddImageUrlPart | src/dp_message.c:80-82 | succeeds iff the message and URL are given; then one image-URL part is appended |
| Message.AddBase64ImagePart | src/dp_message.c:84-86 | succeeds iff message, MIME type and data are given; then one base64-image part is appended |
| Message.AddFileDataPart | src/dp_message.c:88-90 | succeeds iff message, MIME type and data are given; then one file-data part with the optional name is appended |
| Message.AddFileReferencePart | src/dp_serialize.c:138 | succeeds iff message, file id and MIME type are given; then one file-reference part is appended |
| Message.FreeMessages | src/dp_message.c:8-30 | every message of the array loses its parts and keeps its role; a null array is left alone |
| Serialize.RoleFromName | src/dp_serialize.c:100-106 | any name other than system, assistant and tool reads as user |
| Serialize.RoleNamesInverse | src/dp_serialize.c:24-31 | reading a written role name gives back the role |
| Serialize.PartRoundTrip | src/dp_serialize.c:41-68 | every part written to JSON reads back as the same part |
| Serialize.FileDataRoundTrip | src/dp_serialize.c:59-61 | a file-data part with or without a file name survives the round trip |
| Serialize.PartsFromJson | src/dp_serialize.c:108-143 | reading parts yields no more parts than there are JSON items |
| Serialize.PartsFromJsonDrops | src/dp_serialize.c:108-143 | an unreadable part item is skipped; a readable one is appended after the earlier parts |
| Serialize.PartsRoundTrip | src/dp_serialize.c:41-68 | a written parts array reads back as the same parts, in order |
| Serialize.UnnamedRoleIsSystem | src/dp_serialize.c:92-108 | a message object without a role keeps the zeroed role system; one without a parts array has no parts |
| Serialize.MessageRoundTrip | src/dp_serialize.c:13-151 | a written message reads back with the same role and parts |
| Serialize.DeserializeTree | src/dp_serialize.c:83-91 | a tree reads as messages iff it is an array, with one message per item |
| Serialize.SerializeRoundTrip | src/dp_serialize.c:13-151 | deserialising a serialised conversation gives back the same messages |
| Serialize.SerializeMessages | src/dp_serialize.c:13-78 | a null array or output gives -1; otherwise 0 and the written JSON is the array of the messages' encodings |
| Serialize.SerializeMessage | src/dp_serialize.c:20-72 | one message is written as its role name and its parts array |
| Serialize.DeserializeMessages | src/dp_serialize.c:80-151 | outputs are written iff text and outputs are given and the text parses as an array; the messages are then DeserializeTree's, with code 0, else -1 |
| Serialize.BuildMessage | src/dp_serialize.c:96-143 | an imperatively filled message equals the read-back of its JSON object |
| Serialize.AddPartFromJson | src/dp_serialize.c:108-143 | one part item is added exactly as the pure reader accepts it |
| FileHelpers.CharValue | src/dp_file.c:119 | a character's value, when it has one, is below 64 and maps back to that character |
| FileHelpers.CharValueInverse | src/dp_file.c:119 | every alphabet character reads back as its own 6-bit value |
| FileHelpers.AlphabetTable | src/dp_file.c:119 | the encoding table has 64 characters and agrees with the alphabet at every index |
| FileHelpers.EncodeGroup | src/dp_file.c:126-137 | three input bytes become four alphabet characters |
| FileHelpers.GroupChars | src/dp_file.c:126-137 | the four characters carry the four 6-bit slices of the 24-bit triple |
| FileHelpers.DecodeOne | src/dp_file.c:126-140 | a final group of one byte can be decoded back from its two significant characters |
| FileHelpers.DecodeTwo | src/dp_file.c:126-140 | a final group of two bytes can be decoded back from its three significant characters |
| FileHelpers.DecodeThree | src/dp_file.c:126-137 | a full group decodes back to its three bytes |
| FileHelpers.DecodeEncode | src/dp_file.c:118-144 | decoding the encoder's output gives back the input bytes |
| FileHelpers.EncodeLength | src/dp_file.c:122 | the output has 4·⌈n/3⌉ characters |
| FileHelpers.EncodeIsPaddedGroups | src/dp_file.c:126-140 | the output is the encoded groups with the last (3 − n mod 3) mod 3 characters replaced by '=' |
| FileHelpers.GroupsInAlphabet | src/dp_file.c:126-137 | every group character is in the alphabet |
| FileHelpers.EncodePadding | src/dp_file.c:139-140 | the output is alphabet characters followed by exactly the padding count of '=' |
| FileHelpers.WorldEncoding | src/dp_file.c:118-144 | "World!" encodes as "V29ybGQh" |
| FileHelpers.LoWorldEncoding | src/dp_file.c:118-144 | "lo World!" encodes as "bG8gV29ybGQh" |
| FileHelpers.HelloWorldEncoding | src/dp_file.c:118-144 | "Hello World!" encodes as "SGVsbG8gV29ybGQh" (no padding) |
| FileHelpers.Base64Encode | src/dp_file.c:118-144 | the array has one more cell than the encoded length, holds the encoding of the input and ends in NUL |
| FileHelpers.WriteGroups | src/dp_file.c:126-137 | the loop writes the encoding of every whole group |
| FileHelpers.ReadGroup | src/dp_file.c:127-130 | reads the three octets at the cursor, zero past the end, and moves the cursor by three or to the end |
| FileHelpers.WritePadding | src/dp_file.c:139-140 | exactly the last PadCount characters before the NUL become '='; every other cell is unchanged |
| FileHelpers.WriteGroup | src/dp_file.c:132-136 | one loop step writes the four characters of one group and leaves every other cell unchanged |
| FileHelpers.ValidFileDataPartIff | src/dp_file.c:147-165 | the file-data check accepts exactly a given, non-empty MIME type with given, non-empty data whose length is a multiple of 4; the filename never matters |
| FileHelpers.EncodedDataValidates | src/dp_file.c:147-165 | a file-data part built from a MIME type and the encoder's output of at least one byte passes validation |
| FileHelpers.WholeGroups | src/dp_file.c:122 | an encoded length is a positive multiple of four for non-empty input |
| FileHelpers.TableEntry | src/dp_file.c:80-114 | lookup returns the MIME type of the first table entry for the extension |
| FileHelpers.MimeIgnoresCase | src/dp_file.c:74-77 | the MIME type does not depend on the case of the file name |
| FileHelpers.MimeUpperCase | src/dp_file.c:74-114 | "photo.JPG" is image/jpeg |
| FileHelpers.MimeShortHtml | src/dp_file.c:80-114 | "index.htm" is text/html |
| FileHelpers.MimeLastDot | src/dp_file.c:64-114 | only the part after the last dot counts: "backup.tar.gz" is application/gzip |
| FileHelpers.MimeNoExtension | src/dp_file.c:64-72 | "README" (no dot), and no name at all, are application/octet-stream |
| FileHelpers.MimeLongExtension | src/dp_file.c:64-72 | an extension of 32 characters or more, dot included, is application/octet-stream |
| FileHelpers.DetectMimeType | src/dp_file.c:63-115 | the lowering loop and table scan return DetectMime of the name |
| FileHelpers.FilenameFromPath | src/dp_file.c:53-60 | the result is the suffix after the last '/', and contains no '/' |
| GeminiAuthMock.Answer | tests/mock-server/gemini_auth_mock.py:8-34 | the answer is 401 with the Gemini auth error iff the key argument is AUTH_FAILURE_GEMINI; otherwise the endpoint's no-scenario 400 |
| GeminiAuthMock.CompletionsGemini | tests/mock-server/gemini_auth_mock.py:8-13 | 401 with the Gemini auth error body iff the key is AUTH_FAILURE_GEMINI; otherwise 400 with the "Gemini completions" no-scenario body, both as application/json |
| GeminiAuthMock.ListModels | tests/mock-server/gemini_auth_mock.py:15-20 | 401 with the Gemini auth error body iff the key is AUTH_FAILURE_GEMINI; otherwise 400 with the "models" no-scenario body, both as application/json |
| GeminiAuthMock.UploadFile | tests/mock-server/gemini_auth_mock.py:22-27 | 401 with the Gemini auth error body iff the key is AUTH_FAILURE_GEMINI; otherwise 400 with the "files:upload" no-scenario body, both as application/json |
| GeminiAuthMock.CountTokens | tests/mock-server/gemini_auth_mock.py:29-34 | 401 with the Gemini auth error body iff the key is AUTH_FAILURE_GEMINI; otherwise 400 with the "countTokens" no-scenario body, both as application/json |
| GeminiAuthMock.AgreesWithMainServer | tests/mock-server/gemini_auth_mock.py:8-34 | for a request with only a key argument, the small server answers Gemini completions and token counting as the main server does |
| MockServer.AnthropicSelector | tests/mock-server/main.py:63-66 | Anthropic routes pick a scenario iff an x-api-key header is present |
| MockServer.BearerSelectsKey | tests/mock-server/main.py:12-18 | "Bearer K" in Authorization selects scenario K |
| MockServer.Uploaded | tests/mock-server/main.py:119-170 | an upload answer carries the file id and the byte count |
| MockServer.AuthErrorShapes | tests/mock-server/main.py:39-69 | OpenAI's auth error object carries type "invalid_request_error" and the Gemini one carries no type, both with "Invalid Authentication" and code 401; Anthropic's is flat, with type "error" and the message "Authentication Error" |
| MockServer.AbruptSecondChunkUnterminated | tests/mock-server/main.py:25-32 | the abrupt stream sends one whole event and then a chunk with no closing brace and no line break |
| MockServer.Frame | tests/mock-server/main.py:70-86 | every streamed event frame ends with a blank line |
| MockServer.Frames | tests/mock-server/main.py:70-86 | one frame per event, in order |
| MockServer.ErrorStreamEvents | tests/mock-server/main.py:70-76 | four events, the "Partial" delta then the error event, and no message_stop |
| MockServer.PingStreamEvents | tests/mock-server/main.py:77-86 | seven events; a ping with data "{}" only at position 3, between the "Hello" and " World!" deltas; message_delta then message_stop last |
| MockServer.CompletionsOpenAI | tests/mock-server/main.py:8-43 | 500 with the HTML error page, the abrupt stream, 429 with the rate-limit body and 401 with the OpenAI auth body (which carries a type), each exactly for its scenario key; every other key gets 400 with the literal no-scenario text, as application/json |
| MockServer.CompletionsGemini | tests/mock-server/main.py:45-59 | 401 with the Gemini auth body (no type member) iff AUTH_FAILURE_GEMINI, else the "Gemini completions" no-scenario 400, as application/json |
| MockServer.CompletionsAnthropic | tests/mock-server/main.py:61-88 | 401 with Anthropic's flat error body iff the auth key; a stream iff the error or ping key, being exactly the error stream's or the ping stream's frames; otherwise the "Anthropic completions" no-scenario 400 |
| MockServer.ListModels | tests/mock-server/main.py:90-116 | 200 with {"object": "list", "data": []} iff EMPTY_LIST; 429 with the rate-limit body iff its key; 401 for the three auth keys, with the OpenAI body for the OpenAI and Gemini keys and Anthropic's body for Anthropic's; otherwise 400 with the literal models no-scenario text |
| MockServer.UploadBySize | tests/mock-server/main.py:130-140 | 400 with "File is empty" iff the zero-byte scenario sends no bytes; 413 with "File size exceeds limit" iff the large-file scenario exceeds 100 MiB; otherwise 200 with the scenario's file record echoing the byte count |
| MockServer.UploadFileOpenAI | tests/mock-server/main.py:119-144 | the two size scenarios answer as UploadBySize; 401 with the OpenAI auth body iff the OpenAI auth key; 413 iff a large upload over the limit; unknown keys get the "files" no-scenario 400 |
| MockServer.UploadFileGemini | tests/mock-server/main.py:146-170 | the two size scenarios answer as UploadBySize; 401 with the Gemini auth body iff the Gemini auth key; 413 iff a large upload over the limit; unknown keys get the "files:upload" no-scenario 400 |
| MockServer.CountTokensGemini | tests/mock-server/main.py:172-185 | 401 with the Gemini auth body iff the Gemini auth key, otherwise the "countTokens" no-scenario 400, as application/json |
| MockServer.CountTokensAnthropic | tests/mock-server/main.py:187-196 | 401 with Anthropic's flat error body iff the Anthropic auth key, otherwise the "Anthropic count_tokens" no-scenario 400, as application/json |
| MockStreamReplay.NameClassifies | src/dp_stream.c:343-354 | every event name the mock sends is classified as its own event kind |
| MockStreamReplay.Delivered | src/dp_stream.c:343-382 | a mock event reaches the callback with its kind and its data; it ends the stream iff it is message_stop or error |
| MockStreamReplay.FrameParses | src/dp_stream.c:319-355 | the event text of a frame parses back to its name's kind and its data |
| MockStreamReplay.FeedFrame | src/dp_stream.c:256-397 | feeding one frame to an idle processor handles exactly that one event |
| MockStreamReplay.ReplayFrames | src/dp_stream.c:256-397 | replaying any mock event list delivers exactly those events, leaves no bytes pending, and stops iff the last event is an ending one |
| MockStreamReplay.PingStreamDelivers | tests/test_anthropic_streaming_ping_dp.c:63-69 | the ping stream delivers its seven kinds in order, the ping with raw data "{}", both text deltas, and stops with finish "message_stop_event" iff "{}" parses |
| MockStreamReplay.ErrorStreamDelivers | tests/test_anthropic_streaming_error_dp.c:65-76 | the error stream delivers start, block start, the "Partial" delta and the error event, then stops; the delta carries "Partial" and the error event carries the "Simulated mid-stream error." data |
| Models.StripModelsPrefix | src/dp_models.c:102-114 | a Gemini name loses a leading "models/" and is otherwise kept |
| Models.StripUndoesPrefix | src/dp_models.c:102-114 | stripping "models/" + id gives back id |
| Models.TruncateTowardZero | src/dp_models.c:134-142 | the (long) cast of a token limit truncates toward zero |
| Models.InfosOf | src/dp_models.c:98-144 | one model entry per array item, in the same order |
| Models.ModelList.constructor | src/dp_models.c:13-20 | a new list has no models, count 0, no error and status 0 |
| Models.FillModels | src/dp_models.c:98-144 | the loop fills the models array with InfosOf the items |
| Models.ReadBody | src/dp_models.c:75-149 | the body reader returns the pure listing of the body |
| Models.ReadRoot | src/dp_models.c:81-149 | the root reader returns the pure listing of the parsed root |
| Models.ReadListing | src/dp_models.c:66-155 | the whole reader returns ListingOf the transfer |
| Models.ListModels | src/dp_models.c:7-155 | null context or output gives -1 and no list; an unknown provider gives -1 with its error; otherwise the list is ListingOf the transfer and the code is 0 iff there is no error; the count is the number of models, and 0 when there is no models array |
| Models.ListingSucceedsIff | src/dp_models.c:66-155 | listing succeeds iff the transfer worked, the status is 2xx, the body parses and the provider's key holds an array |
| Models.BodyListingSucceedsIff | src/dp_models.c:75-149 | a 2xx body lists iff it parses and holds the array |
| Models.RootListingSucceedsIff | src/dp_models.c:81-149 | a parsed root lists iff the provider's key holds an array |
| Models.HttpErrorListing | src/dp_models.c:152-155 | a non-2xx answer gives "list_models HTTP error <code>. Body: " plus the body prefix, and keeps the status |
| Models.OpenAIModelIds | src/dp_models.c:102-114 | an OpenAI item's id is taken as the model id, unchanged |
| Models.GeminiModelIds | src/dp_models.c:102-114 | a Gemini "models/<id>" name becomes the id <id>, and displayName is kept |
| Models.DisplayNameFallback | src/dp_models.c:116-122 | Anthropic takes display_name as the display name; OpenAI reads no display name from it |
| Models.EmptyListSucceeds | src/dp_models.c:88-145 | the mock's EMPTY_LIST answer gives success with an empty model list and status 200 |
| Models.RateLimitListing | src/dp_models.c:152-155 | the mock's rate-limit answer gives no models, status 429 and a "list_models HTTP error 429" message |
| Request.Conversation | src/dp_request.c:183 | no system message is kept and nothing is added |
| Request.ConversationAppend | src/dp_request.c:183 | the filter distributes over concatenation |
| Request.ConversationKeepsOthers | src/dp_request.c:183 | every non-system message is kept |
| Request.OpenAIRole | src/dp_request.c:189-194 | a conversation role is never written as "system"; "assistant" and "tool" exactly for their roles |
| Request.GeminiRole | src/dp_request.c:271 | "model" iff assistant, else "user" |
| Request.AnthropicRole | src/dp_request.c:357 | "assistant" iff assistant, else "user" |
| Request.OpenAIPart | src/dp_request.c:206-234 | file-data and file-reference parts become empty objects; the others carry their content |
| Request.GeminiPart | src/dp_request.c:282-300 | only file-data parts become empty objects |
| Request.AnthropicPart | src/dp_request.c:368-384 | file-data and file-reference parts become empty objects |
| Request.AnthropicCountPart | src/dp_request.c:107-139 | only file-data parts become empty objects in token counting |
| Request.Payload | src/dp_request.c:510-523 | a payload is built iff the provider is known |
| Request.OpenAIPartReadsBack | src/dp_request.c:206-234 | a built part reads back as its text or its image URL; a base64 image as an image URL holding the data URI; file parts as nothing |
| Request.OpenAIMessageReadsBack | src/dp_request.c:189-234 | the entry has the mapped role; its content is a plain string iff the message is one text part; read back, it lists what each part is sent as, in order |
| Request.GeminiPartReadsBack | src/dp_request.c:282-300 | text, inline image and file-reference parts read back as themselves; an image URL as a text note; file data as nothing |
| Request.GeminiContentReadsBack | src/dp_request.c:266-300 | a content entry carries the mapped role and reads back as what each part is sent as, in order |
| Request.AnthropicPartReadsBack | src/dp_request.c:368-384 | text and base64 image parts read back as themselves; an image URL as a text note; file parts as nothing |
| Request.AnthropicCountPartReadsBack | src/dp_request.c:107-139 | as in a completion, except that a file reference reads back as its text note |
| Request.AnthropicMessageReadsBack | src/dp_request.c:352-386 | an Anthropic message has the mapped role and always a content array, which reads back as what each part is sent as |
| Request.AnthropicCountMessageReadsBack | src/dp_request.c:88-139 | a counting message sends plain text content iff it is one text part; read back, it lists each part's counted form |
| Request.OpenAIPayloadFields | src/dp_request.c:152-244 | model and the message list (system prompt, then the conversation) are sent; stream only when requested; no top_k or system member |
| Request.OpenAISamplingFields | src/dp_request.c:156-166 | temperature when at least 0, max_tokens and top_p when positive, stop when stop sequences are given |
| Request.OpenAIMessagesArray | src/dp_request.c:170-238 | the messages member is an array |
| Request.OpenAIMessageList | src/dp_request.c:170-238 | the list is the optional system prompt followed by the conversation's messages |
| Request.OpenAISystemRoleFirst | src/dp_request.c:174-183 | with a system prompt, the first entry has role "system" |
| Request.OpenAISystemEntry | src/dp_request.c:174-181 | the system entry carries the prompt as its content |
| Request.OpenAIRestRoles | src/dp_request.c:183-194 | no entry after the system prompt has role "system" |
| Request.GeminiPayloadFields | src/dp_request.c:246-321 | contents and generationConfig are sent, and system_instruction iff there is a system prompt; no model or stream member |
| Request.GenerationConfigFields | src/dp_request.c:306-315 | temperature when at least 0; maxOutputTokens, topP and topK when positive; stopSequences when given |
| Request.GeminiCountTokensOmitsConfig | src/dp_request.c:8-71 | the token-count payload is the completion payload without generationConfig, with the same contents |
| Request.AnthropicPayloadFields | src/dp_request.c:323-398 | model, the conversation and max_tokens (4096 when unset) are sent; system and stream only when given |
| Request.AnthropicSamplingFields | src/dp_request.c:329-341 | temperature is sent only within [0, 1]; top_p, top_k and stop sequences when set |
| Request.AnthropicCountTokensFields | src/dp_request.c:73-150 | model, messages and the optional system prompt are sent; no max_tokens, temperature or stream |
| Completion.FirstTextIndex | src/dp_request.c:442-448 | the index of the first part with a text member, or none iff no part has one |
| Completion.Extraction | src/dp_request.c:400-489 | a non-object reply or an unknown provider yields no text and no finish reason |
| Completion.ReadReply | src/dp_request.c:404-407 | an unparsable body yields nothing |
| Completion.ExtractText | src/dp_request.c:400-489 | the extractor method returns ReadReply |
| Completion.FirstText | src/dp_request.c:442-448 | the loop returns the text of the first part that has one |
| Completion.OpenAIReplyReadsBack | src/dp_request.c:412-431 | a chat-completion reply yields its message content and finish_reason |
| Completion.GeminiReplyReadsBack | src/dp_request.c:432-458 | a candidate reply yields its text and finishReason |
| Completion.GeminiBlockedReadsReason | src/dp_request.c:459-467 | a reply without candidates yields promptFeedback's block reason |
| Completion.GeminiReadsFirstTextPart | src/dp_request.c:442-448 | the text is that of the first part that has text |
| Completion.AnthropicReplyReadsBack | src/dp_request.c:468-484 | a message reply yields its first text block and stop_reason |
| Completion.ReadersDoNotCrossProviders | src/dp_request.c:400-489 | an OpenAI reply yields nothing when read as Gemini or Anthropic |
| Completion.UnreadableReply | src/dp_request.c:583-600 | a 2xx reply without text reports the API error message if the body has one, else the parse-failure text with the status and at most 200 characters of the body before the first NUL, followed by "..." |
| Completion.HttpFailure | src/dp_request.c:603-630 | a non-2xx reply reports "HTTP error <code>: <message>" or the first 500 body characters |
| Completion.PerformCompletion | src/dp_request.c:493-638 | invalid arguments, a stream request and an unknown provider give their errors; otherwise the response is Outcome of the transfer and the sent payload is Payload; code 0 iff no error |
| Completion.CompletionSucceedsIff | src/dp_request.c:562-630 | success iff the transfer worked, the status is 2xx and text was extracted; then the response holds exactly that text |
| Completion.CompletionReadsReply | src/dp_request.c:566-602 | a well-formed reply of each provider gives its text and finish reason with no error |
| Completion.HttpErrorReported | src/dp_request.c:603-630 | an error body's message is reported with the status |
| Completion.RateLimitMessage | src/dp_request.c:610-620 | the mock's 429 body yields "Rate limit exceeded" |
| Completion.AnthropicAuthMessage | src/dp_request.c:610-620 | the mock's Anthropic 401 body yields "Authentication Error" |
| Completion.RateLimitReported | src/dp_request.c:603-630 | a 429 from the mock gives "HTTP error 429: Rate limit exceeded" |
| Completion.AnthropicAuthFailureReported | src/dp_request.c:603-630 | an Anthropic 401 from the mock gives "HTTP error 401: Authentication Error" |
| Completion.NoScenarioQuotesBody | src/dp_request.c:603-630 | the mock's no-scenario 400 is reported with the body prefix |
| SseFraming.NewCapacity | src/dp_stream.c:16-29 | the new capacity fits the need and never shrinks; it is unchanged when enough; otherwise exactly the largest of the need, double the old capacity and 1024 |
| SseFraming.Find | src/dp_stream.c:40-56 | strstr: the first occurrence before any NUL, or none |
| SseFraming.FindAt | src/dp_stream.c:40-56 | the first NUL-free occurrence is what Find returns |
| SseFraming.FindNone | src/dp_stream.c:40-56 | no occurrence means Find finds none |
| SseFraming.NextEvent | src/dp_stream.c:40-56 | a found separator is "\n\n" (2) or "\r\n\r\n" (4) and lies inside the buffer |
| SseFraming.NextEventIsEarliest | src/dp_stream.c:40-56 | the event ends at the earliest separator of either kind; none is found iff neither occurs |
| SseFraming.StripCR | src/dp_stream.c:79-85 | one trailing carriage return is removed from a line |
| SseFraming.FrameIsOneEvent | src/dp_stream.c:40-56 | an event frame of plain lines is exactly one event with a 2-byte separator |
| Stream.KeepFirst | src/dp_stream.c:113-118 | a captured finish reason is never overwritten |
| Stream.OpenAIChunk | src/dp_stream.c:101-121 | reading a chunk keeps a captured finish reason, and a new one marks the event final |
| Stream.GeminiChunk | src/dp_stream.c:122-176 | the same for Gemini candidates and prompt feedback |
| Stream.AnthropicChunk | src/dp_stream.c:177-221 | only content_block_delta adds text; an error event records the stream error once and is final |
| Stream.ScanLine | src/dp_stream.c:78-97 | non-data lines change nothing; "[DONE]" ends the OpenAI stream with finish "done_marker" unless one was captured |
| Stream.ScanText | src/dp_stream.c:78-227 | scanning an event's lines never drops a captured finish reason or stream error |
| Stream.Dispatch | src/dp_stream.c:231-242 | a callback is recorded, and a non-zero return stops the stream |
| Stream.EventOutcome | src/dp_stream.c:58-242 | handling an event only appends calls and keeps a captured finish reason |
| Stream.AtMostOneCallPerEvent | src/dp_stream.c:58-242 | each event makes at most one callback: a token if text was found, else a final call with the stream error |
| Stream.Drain | src/dp_stream.c:37-243 | draining ends stopped or with no complete event left; a stopped stream is untouched |
| Stream.LoopStep | src/dp_stream.c:58-71 | handling the first event and moving the cursor does not change the drain's result |
| Stream.DrainStep | src/dp_stream.c:37-71 | the drain handles the first event and continues on the rest |
| Stream.DrainIdle | src/dp_stream.c:37-56 | with nothing complete or a stop, draining changes nothing |
| Stream.DrainLeavesSuffix | src/dp_stream.c:245-251 | what remains after draining is a suffix of what was pending |
| Stream.Feed | src/dp_stream.c:8-253 | after a chunk the stream is stopped or holds no complete event; a stopped stream ignores chunks |
| Stream.StreamProcessor.constructor | src/dp_stream.c:420-430 | a new processor has an empty buffer of initial capacity and no calls |
| Stream.StreamProcessor.Write | src/dp_stream.c:8-253 | the callback consumes the whole chunk, grows the buffer by NewCapacity, and leaves the state Feed of the old state |
| Stream.StreamProcessor.AppendAndDrain | src/dp_stream.c:16-251 | appending then draining gives Drain of the extended state |
| Stream.StreamProcessor.DrainAndCompact | src/dp_stream.c:37-251 | the loop and the compaction give Drain of the old state |
| Stream.StreamProcessor.DrainEvents | src/dp_stream.c:37-243 | the event loop leaves Drain of the old state from the returned cursor |
| Stream.StreamProcessor.NextStep | src/dp_stream.c:40-71 | one iteration advances the cursor or stops, and preserves the drain's result |
| Stream.StreamProcessor.Consume | src/dp_stream.c:58-71 | handling one event advances the cursor and preserves the drain's result |
| Stream.StreamProcessor.HandleEvent | src/dp_stream.c:73-242 | one event's effect is EventOutcome |
| Stream.StreamProcessor.Append | src/dp_stream.c:16-32 | the chunk is appended after the pending bytes |
| Stream.StreamProcessor.Grow | src/dp_stream.c:16-29 | the capacity becomes NewCapacity and the buffered bytes are kept |
| Stream.StreamProcessor.CopyIn | src/dp_stream.c:30-32 | the buffered bytes become the old ones followed by the chunk |
| Stream.StreamProcessor.Compact | src/dp_stream.c:245-251 | the unconsumed tail moves to the front of the buffer |
| Stream.ScanEvent | src/dp_stream.c:78-227 | the line loop computes ScanText |
| Stream.ScanOneLine | src/dp_stream.c:78-227 | one line step leaves a shorter rest with the same final scan |
| AnthropicStream.Classify | src/dp_stream.c:343-354 | no name is unknown; message_stop, error and ping each classify exactly to their kind |
| AnthropicStream.ReadLine | src/dp_stream.c:319-341 | an "event: " line sets the name, a "data: " line the data, others change nothing |
| AnthropicStream.NameFromEventLine | src/dp_stream.c:319-341 | a name is only read from an "event: " line |
| AnthropicStream.ParseEvent | src/dp_stream.c:319-355 | an event without an "event: " line is unknown |
| AnthropicStream.StopReason | src/dp_stream.c:357-378 | a captured finish wins; a message_stop gives "message_stop_event" iff its data parses |
| AnthropicStream.EventOutcome | src/dp_stream.c:305-382 | every event makes exactly one callback |
| AnthropicStream.OneCallPerEvent | src/dp_stream.c:343-382 | the callback gets the parsed event; message_stop, error or a non-zero return stops the stream |
| AnthropicStream.Drain | src/dp_stream.c:283-385 | draining ends stopped or with no complete event left; a stopped stream is untouched |
| AnthropicStream.DrainStep | src/dp_stream.c:283-317 | the drain handles the first event and continues on the rest |
| AnthropicStream.DrainIdle | src/dp_stream.c:283-303 | with nothing complete or a stop, draining changes nothing |
| AnthropicStream.LoopStep | src/dp_stream.c:305-317 | handling the first event and moving the cursor does not change the drain's result |
| AnthropicStream.Feed | src/dp_stream.c:256-397 | after a chunk the stream is stopped or holds no complete event; a stopped stream ignores chunks |
| AnthropicStream.EndingEventStops | src/dp_stream.c:357-378 | a drain that did not stop delivered no message_stop or error event |
| AnthropicStream.DetailedProcessor.constructor | src/dp_stream.c:603-612 | a new processor has an empty buffer of initial capacity and no calls |
| AnthropicStream.DetailedProcessor.Write | src/dp_stream.c:256-397 | the callback consumes the whole chunk, grows the buffer by NewCapacity, and leaves the state Feed of the old state |
| AnthropicStream.DetailedProcessor.DrainAndCompact | src/dp_stream.c:283-395 | the loop and the compaction give Drain of the old state |
| AnthropicStream.DetailedProcessor.DrainEvents | src/dp_stream.c:283-385 | the event loop leaves Drain of the old state from the returned cursor |
| AnthropicStream.DetailedProcessor.NextStep | src/dp_stream.c:286-317 | one iteration advances the cursor or stops, and preserves the drain's result |
| AnthropicStream.DetailedProcessor.Consume | src/dp_stream.c:305-317 | handling one event advances the cursor and preserves the drain's result |
| AnthropicStream.DetailedProcessor.HandleEvent | src/dp_stream.c:319-382 | one event's effect is EventOutcome |
| AnthropicStream.DetailedProcessor.Append | src/dp_stream.c:262-278 | the chunk is appended after the pending bytes |
| AnthropicStream.DetailedProcessor.Grow | src/dp_stream.c:262-275 | the capacity becomes NewCapacity and the buffered bytes are kept |
| AnthropicStream.DetailedProcessor.CopyIn | src/dp_stream.c:276-278 | the buffered bytes become the old ones followed by the chunk |
| AnthropicStream.DetailedProcessor.Compact | src/dp_stream.c:387-395 | the unconsumed tail moves to the front of the buffer |
| AnthropicStream.ReadEventLines | src/dp_stream.c:319-341 | the line loop computes ReadLines |
| AnthropicStream.ReadOneLine | src/dp_stream.c:319-341 | one line step leaves a shorter rest with the same final fields |
| StreamResult.ErrorBodyMessage | src/dp_stream.c:482-505 | the message is error.message, else message when type is "error" |
| StreamResult.HttpErrorMessage | src/dp_stream.c:521-553 | "HTTP error <code>" followed by the body's error message, or a body hint, or "(empty body)" |
| StreamResult.CombineStreamError | src/dp_stream.c:555-567 | a stream error is kept inside the final message, after any HTTP message |
| StreamResult.FinishReason | src/dp_stream.c:515-519 | a captured finish wins; otherwise "completed" iff the transfer worked, the status is 2xx and no stream error occurred |
| StreamResult.RunningEnd | src/dp_stream.c:477-513 | the final callback carries the stream error, else the curl error, else nothing on 2xx, else the body's error message |
| StreamResult.GenericFailsIffTrouble | src/dp_stream.c:400-574 | the call fails iff curl failed, the status is not 2xx or a stream error occurred; the stream error is kept; a final callback is made iff the user did not stop |
| StreamResult.GenericHttpErrorMessage | src/dp_stream.c:482-553 | a non-2xx error body's message: a running stream hands the bare message to the final callback and keeps it as the error; only a stream the user stopped reports "HTTP error <code>: <message>" |
| StreamResult.AnthropicRunningEnd | src/dp_stream.c:639-658 | a clean end delivers message_stop; a failure an error event with a message; a stream error goes through as it is |
| StreamResult.AnthropicFinalCall | src/dp_stream.c:639-658 | a final callback is made iff the user did not stop |
| StreamResult.AnthropicHttpErrorUnreported | src/dp_stream.c:666-670 | as written, a non-2xx Anthropic stream with no stream error ends with no error message and no finish reason |
| StreamResult.AnthropicFailsIffTrouble | src/dp_stream.c:660-680 | as intended, the call fails iff curl failed, the status is not 2xx or a stream error occurred; a non-2xx is reported as "HTTP error <code>" |
| StreamResult.AnthropicCleanEnd | src/dp_stream.c:639-658 | a clean, unstopped stream ends with a message_stop callback |
| StreamResult.PerformStreamingCompletion | src/dp_stream.c:400-574 | OpenAI and Anthropic without stream=true only get the error set on the caller's response, other fields kept; an unknown provider fails at the payload on a zeroed response; otherwise the response and calls are those of feeding every chunk and resolving the end; code -1 iff an error |
| StreamResult.AnthropicRejection | src/dp_stream.c:586-593 | a call proceeds iff the provider is Anthropic and stream=true; otherwise only the caller's error message is set, to the non-Anthropic or the stream-required text |
| StreamResult.StreamAnthropicEvents | src/dp_stream.c:603-636 | feeding every chunk, in order, to a fresh detailed processor gives FeedAll of the chunks |
| StreamResult.PerformAnthropicStreamingCompletionAsWritten | src/dp_stream.c:577-680 | as written: the rejections keep the caller's response; otherwise the events are those of feeding every chunk and the end is resolved as written, so a clean non-2xx transfer without a stream error returns 0 |
| StreamResult.PerformAnthropicStreamingCompletion | src/dp_stream.c:577-680 | as intended: the same rejections and events; the end is resolved with the HTTP error filled in, so the code is 0 iff the transfer worked, the status is 2xx and no stream error occurred |

## Left out

- libcurl itself: URL and header assembly, `curl_easy_init` failure, timeouts and the transfer are not modelled. A transfer is an input value, either the whole body or the chunks the write callback receives.
- Allocation failures (`malloc`, `calloc`, `realloc`, `strdup` returning NULL) are not modelled. Neither are `dp_destroy_context` and `dp_free_model_list`, which only free memory.
- The NULL-argument checks of the two streaming entry points (`src/dp_stream.c:402-405`, `src/dp_stream.c:582-585`) are not modelled, because their arguments are values there.
- cJSON parsing and printing are not modelled. The parser is a parameter, and printing is taken to succeed.
- File I/O is not modelled: reading a file for upload, and the upload functions of `src/disasterparty.c`. `src/disasterparty.c` and `src/dp_utils.c` are not part of this model, and `dp_count_tokens` is not part of it either.
- `Request.AnthropicCountPart`: the second `DP_CONTENT_PART_FILE_REFERENCE` branch at `src/dp_request.c:128` is unreachable and is not modelled.
- The 512-byte `snprintf` notes of the request builders keep at most 511 characters (`Text.Prefix`). Multi-byte characters are not distinguished from bytes.
- Floating-point options are reals. The (long) cast of token limits is modelled as truncation toward zero, with no overflow.
- Mock-server plumbing is not modelled: `app.run`, argument parsing, `time.sleep`, `control.py` and `test_mock_server.py`.
- `MockServer.Selector`: header names are matched exactly as main.py spells them (`Authorization`, `x-api-key`); Flask matches header names ignoring case, so a request spelling them differently is not modelled.
- `MockServer.AnthropicSelector`: the same exact-case matching of `x-api-key`.
- `MockServer.CompletionsOpenAI`, `MockServer.CompletionsGemini`, `MockServer.CompletionsAnthropic`: the rejection by `request.get_json()` (`tests/mock-server/main.py:11`, `:47`, `:63`) of a body that is not JSON, before any scenario is read, is not modelled; every request body is taken to be JSON.
- `MockServer.UploadBySize`: a missing Content-Length header is not modelled; the length is always a number.
- `MockStreamReplay.ReplayFrames`: the replay assumes a callback that always returns 0; a stopping callback is covered by `AnthropicStream.OneCallPerEvent`.
- `Message.AddFileReferencePart`: `dp_message_add_file_reference_part` is called by the deserialiser but is not defined in the source. It is modelled as appending a file-reference part, like the other wrappers.

## Findings

| source | as written | input that shows it | evidently intended | confidence | as-written member | corrected member |
|---|---|---|---|---|---|---|
| src/dp_stream.c:666-670 | when an Anthropic stream ends with a non-2xx status, the error message is left unset (a placeholder comment), so the call returns 0 with no error | an AUTH_FAILURE_ANTHROPIC 401 answer over a transfer that completes, with no stream error event | report "HTTP error <code>…" as the generic stream function does, with any stream error appended | not executed | StreamResult.AnthropicHttpErrorUnreported | StreamResult.AnthropicFailsIffTrouble |
