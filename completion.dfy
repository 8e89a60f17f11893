/**
 * The reply half of src/dp_request.c: extract_text_from_full_response_with_cjson,
 * which reads the text and finish reason out of a provider's reply, and
 * dp_perform_completion, which checks its arguments, builds the body, and
 * turns the finished transfer into a dp_response_t. The transfer itself
 * (URL, headers, curl) is an input: its outcome is a `Transfer`.
 */
module Completion {
  import opened Wrappers
  import opened Json
  import opened Text
  import opened Types
  import Request
  import StreamResult
  import MockServer

  // ---------------------------------------------------------------------
  // Reading a reply
  // ---------------------------------------------------------------------

  /** The reply text and the finish reason, each absent when not found. */
  type Extracted = (Option<string>, Option<string>)

  /** The position of the first part whose "text" member is a string. */
  function FirstTextIndex(parts: seq<Json>): (r: Option<nat>)
    ensures r.None? <==> forall i :: 0 <= i < |parts| ==> GetString(parts[i], "text").None?
    ensures r.Some? ==> r.value < |parts| && GetString(parts[r.value], "text").Some?
    ensures r.Some? ==> forall j :: 0 <= j < r.value ==> GetString(parts[j], "text").None?
    decreases |parts|
  {
    if |parts| == 0 then None
    else if GetString(parts[0], "text").Some? then Some(0)
    else
      var rest := FirstTextIndex(parts[1..]);
      assert forall i :: 1 <= i < |parts| ==> parts[i] == parts[1..][i - 1];
      if rest.Some? then Some(rest.value + 1) else None
  }

  /** OpenAI: choices[0].message.content and choices[0].finish_reason. */
  function OpenAIExtraction(root: Json): Extracted {
    match FirstItem(Get(root, "choices"))
    case None => (None, None)
    case Some(choice) =>
      (match Get(choice, "message") case Some(message) => GetString(message, "content") case None => None,
       GetString(choice, "finish_reason"))
  }

  /** Gemini: the first string "text" among candidates[0].content.parts. */
  function CandidateText(candidate: Json): Option<string> {
    match Get(candidate, "content")
    case None => None
    case Some(content) =>
      match Get(content, "parts")
      case Some(JArray(parts)) =>
        (match FirstTextIndex(parts) case Some(i) => GetString(parts[i], "text") case None => None)
      case _ => None
  }

  /** Gemini: promptFeedback.finishReason, read when no candidate gives a reason. */
  function PromptFeedbackReason(root: Json): Option<string> {
    match Get(root, "promptFeedback")
    case Some(feedback) => GetString(feedback, "finishReason")
    case None => None
  }

  /** Gemini: the candidate's text, and its finishReason or else the prompt feedback's. */
  function GeminiExtraction(root: Json): Extracted {
    var candidate := FirstItem(Get(root, "candidates"));
    var reason := if candidate.Some? then GetString(candidate.value, "finishReason") else None;
    (if candidate.Some? then CandidateText(candidate.value) else None,
     if reason.Some? then reason else PromptFeedbackReason(root))
  }

  /** Anthropic: content[0].text and the top-level stop_reason. */
  function AnthropicExtraction(root: Json): Extracted {
    (match FirstItem(Get(root, "content")) case Some(block) => GetString(block, "text") case None => None,
     GetString(root, "stop_reason"))
  }

  /** What the reader finds in a parsed reply; nothing for a provider it does not know. */
  function Extraction(provider: Provider, root: Json): (r: Extracted)
    ensures !root.JObject? ==> r == (None, None)
    ensures provider.OtherProvider? ==> r == (None, None)
  {
    match provider
    case OpenAICompatible => OpenAIExtraction(root)
    case GoogleGemini => GeminiExtraction(root)
    case Anthropic => AnthropicExtraction(root)
    case OtherProvider(_) => (None, None)
  }

  /** The reader on the received bytes: they are parsed up to the first NUL; text that does not parse gives nothing. */
  function ReadReply(parse: Parser, body: string, provider: Provider): (r: Extracted)
    ensures parse(UpToNul(body)).None? ==> r == (None, None)
  {
    match parse(UpToNul(body))
    case None => (None, None)
    case Some(root) => Extraction(provider, root)
  }

  /**
   * extract_text_from_full_response_with_cjson with its out-parameter for
   * the finish reason: the Gemini branch scans the parts until one has a
   * string "text".
   */
  method ExtractText(parse: Parser, body: string, provider: Provider) returns (text: Option<string>, finish: Option<string>)
    ensures (text, finish) == ReadReply(parse, body, provider)
  {
    text, finish := None, None;
    var parsed := parse(UpToNul(body));
    if parsed.None? {
      return;
    }
    var root := parsed.value;
    match provider {
      case OpenAICompatible =>
        var choice := FirstItem(Get(root, "choices"));
        if choice.Some? {
          var message := Get(choice.value, "message");
          if message.Some? {
            text := GetString(message.value, "content");
          }
          finish := GetString(choice.value, "finish_reason");
        }
      case GoogleGemini =>
        var candidate := FirstItem(Get(root, "candidates"));
        if candidate.Some? {
          var content := Get(candidate.value, "content");
          if content.Some? {
            var parts := Get(content.value, "parts");
            if parts.Some? && parts.value.JArray? && |parts.value.items| > 0 {
              text := FirstText(parts.value.items);
            }
          }
          finish := GetString(candidate.value, "finishReason");
        }
        if finish.None? {
          var feedback := Get(root, "promptFeedback");
          if feedback.Some? {
            finish := GetString(feedback.value, "finishReason");
          }
        }
      case Anthropic =>
        var block := FirstItem(Get(root, "content"));
        if block.Some? && block.value.JObject? {
          text := GetString(block.value, "text");
        }
        finish := GetString(root, "stop_reason");
      case OtherProvider(_) =>
    }
  }

  /** The Gemini loop over the parts: the "text" of the first part that has a string one. */
  method FirstText(items: seq<Json>) returns (text: Option<string>)
    ensures text == (match FirstTextIndex(items) case Some(i) => GetString(items[i], "text") case None => None)
  {
    text := None;
    var i := 0;
    while i < |items|
      invariant 0 <= i <= |items| && text.None?
      invariant forall j :: 0 <= j < i ==> GetString(items[j], "text").None?
    {
      var t := GetString(items[i], "text");
      if t.Some? {
        text := t;
        break;
      }
      i := i + 1;
    }
    assert text.Some? ==> FirstTextIndex(items) == Some(i);
  }

  // ---------------------------------------------------------------------
  // Reply shapes each provider sends, read back
  // ---------------------------------------------------------------------

  /** A one-choice chat completion carrying `text` with finish reason `finish`. */
  function OpenAIReply(text: string, finish: string): Json {
    JObject([("choices", JArray([JObject([("index", JNumber(0.0)),
                                          ("message", JObject([("role", JString("assistant")), ("content", JString(text))])),
                                          ("finish_reason", JString(finish))])]))])
  }

  /** A one-candidate Gemini reply whose single part carries `text`. */
  function GeminiReply(text: string, finish: string): Json {
    JObject([("candidates", JArray([JObject([("content", JObject([("parts", JArray([JObject([("text", JString(text))])])),
                                                                  ("role", JString("model"))])),
                                             ("finishReason", JString(finish))])]))])
  }

  /** A Gemini reply to a blocked prompt: no candidates, only prompt feedback. */
  function GeminiBlockedReply(finish: string): Json {
    JObject([("promptFeedback", JObject([("finishReason", JString(finish))]))])
  }

  /** An Anthropic message whose first content block is the text block `text`. */
  function AnthropicReply(text: string, stop: string): Json {
    JObject([("type", JString("message")), ("role", JString("assistant")),
             ("content", JArray([JObject([("type", JString("text")), ("text", JString(text))])])),
             ("stop_reason", JString(stop))])
  }

  /** The OpenAI reader reads back the text and the finish reason of a chat completion. */
  lemma OpenAIReplyReadsBack(text: string, finish: string)
    ensures Extraction(OpenAICompatible, OpenAIReply(text, finish)) == (Some(text), Some(finish))
  {
    var choice := OpenAIReply(text, finish).fields[0].1.items[0];
    var message := choice.fields[1].1;
    LookupFirst(choice.fields, "message", 1);
    LookupFirst(choice.fields, "finish_reason", 2);
    LookupFirst(message.fields, "content", 1);
  }

  /** The Gemini reader reads back the text and the finish reason of a candidate. */
  lemma GeminiReplyReadsBack(text: string, finish: string)
    ensures Extraction(GoogleGemini, GeminiReply(text, finish)) == (Some(text), Some(finish))
  {
    var candidate := GeminiReply(text, finish).fields[0].1.items[0];
    LookupFirst(candidate.fields, "finishReason", 1);
    var parts := candidate.fields[0].1.fields[0].1.items;
    assert FirstTextIndex(parts) == Some(0);
  }

  /** A blocked Gemini prompt yields no text and the prompt feedback's finish reason. */
  lemma GeminiBlockedReadsReason(finish: string)
    ensures Extraction(GoogleGemini, GeminiBlockedReply(finish)) == (None, Some(finish))
  {
    LookupMissing(GeminiBlockedReply(finish).fields, "candidates");
  }

  /**
   * The Gemini text is the first part with a string "text", whatever parts
   * come before it; and without a candidate reason the prompt feedback's
   * reason is reported.
   */
  lemma GeminiReadsFirstTextPart(root: Json, parts: seq<Json>, k: nat)
    requires Get(root, "candidates").Some? && Get(root, "candidates").value.JArray?
    requires |Get(root, "candidates").value.items| > 0
    requires var candidate := Get(root, "candidates").value.items[0];
      Get(candidate, "content").Some? && Get(Get(candidate, "content").value, "parts") == Some(JArray(parts))
    requires k < |parts| && GetString(parts[k], "text").Some?
    requires forall j :: 0 <= j < k ==> GetString(parts[j], "text").None?
    ensures Extraction(GoogleGemini, root).0 == GetString(parts[k], "text")
  {
  }

  /** The Anthropic reader reads back the first text block and the stop reason. */
  lemma AnthropicReplyReadsBack(text: string, stop: string)
    ensures Extraction(Anthropic, AnthropicReply(text, stop)) == (Some(text), Some(stop))
  {
    var reply := AnthropicReply(text, stop);
    LookupFirst(reply.fields, "content", 2);
    LookupFirst(reply.fields, "stop_reason", 3);
    var block := reply.fields[2].1.items[0];
    LookupFirst(block.fields, "text", 1);
  }

  /** Each reader looks only at its own provider's shape: an OpenAI reply gives Anthropic's reader no text. */
  lemma ReadersDoNotCrossProviders(text: string, finish: string)
    ensures Extraction(Anthropic, OpenAIReply(text, finish)) == (None, None)
    ensures Extraction(GoogleGemini, OpenAIReply(text, finish)) == (None, None)
  {
    var reply := OpenAIReply(text, finish);
    LookupMissing(reply.fields, "content");
    LookupMissing(reply.fields, "stop_reason");
    LookupMissing(reply.fields, "candidates");
    LookupMissing(reply.fields, "promptFeedback");
  }

  // ---------------------------------------------------------------------
  // dp_perform_completion
  // ---------------------------------------------------------------------

  const InvalidArguments := "Invalid arguments to dp_perform_completion."
  const StreamNotAllowed := "dp_perform_completion called with stream=true. Use streaming functions instead."
  const PayloadFailed := "Failed to build JSON payload for Disaster Party."

  /** The message when curl_easy_perform itself fails. */
  function TransferFailure(t: Transfer): string {
    "curl_easy_perform() failed: " + t.curlError + " (HTTP status: " + NatToString(t.httpStatus) + ")"
  }

  /**
   * A 2xx reply with no text: the error body's message, else at most 200
   * characters of the body followed by "...".
   */
  function UnreadableReply(parse: Parser, status: nat, body: string): (m: string)
    ensures StreamResult.BufferedErrorMessage(parse, body).Some? ==>
      m == "API error (HTTP " + NatToString(status) + "): " + StreamResult.BufferedErrorMessage(parse, body).value
    ensures StreamResult.BufferedErrorMessage(parse, body).None? ==>
      StartsWith(m, "Failed to parse successful response or extract text (HTTP " + NatToString(status) + "). Body: ")
    ensures StreamResult.BufferedErrorMessage(parse, body).None? ==>
      m == "Failed to parse successful response or extract text (HTTP " + NatToString(status) + "). Body: "
        + Prefix(UpToNul(body), 200) + "..."
  {
    match StreamResult.BufferedErrorMessage(parse, body)
    case Some(message) => "API error (HTTP " + NatToString(status) + "): " + message
    case None =>
      var head := "Failed to parse successful response or extract text (HTTP " + NatToString(status) + "). Body: ";
      var m := head + Prefix(UpToNul(body), 200) + "...";
      assert m[..|head|] == head;
      m
  }

  /** A non-2xx reply: the error body's message, else at most 500 characters of the body. */
  function HttpFailure(parse: Parser, status: nat, body: string): (m: string)
    ensures StartsWith(m, "HTTP error " + NatToString(status))
    ensures StreamResult.BufferedErrorMessage(parse, body).Some? ==>
      m == "HTTP error " + NatToString(status) + ": " + StreamResult.BufferedErrorMessage(parse, body).value
    ensures StreamResult.BufferedErrorMessage(parse, body).None? ==>
      m == "HTTP error " + NatToString(status) + ". Body: " + Prefix(UpToNul(body), 500)
  {
    var head := "HTTP error " + NatToString(status);
    var m :=
      match StreamResult.BufferedErrorMessage(parse, body)
      case Some(message) => head + ": " + message
      case None => head + ". Body: " + Prefix(UpToNul(body), 500);
    assert m[..|head|] == head;
    m
  }

  /**
   * The response once a provider's body has been sent and the transfer is
   * over: the status is recorded; a 2xx reply's text becomes the single
   * part; the finish reason is whatever the reader found, even with no text.
   */
  function Outcome(parse: Parser, provider: Provider, t: Transfer): Response {
    if !t.ok then Response([], Some(TransferFailure(t)), t.httpStatus, None)
    else if 200 <= t.httpStatus < 300 then
      var (text, finish) := ReadReply(parse, t.body, provider);
      if text.Some? then Response([text.value], None, t.httpStatus, finish)
      else Response([], Some(UnreadableReply(parse, t.httpStatus, t.body)), t.httpStatus, finish)
    else Response([], Some(HttpFailure(parse, t.httpStatus, t.body)), t.httpStatus, None)
  }

  /**
   * dp_perform_completion. `prior` is the caller's response (None for a
   * NULL response); `sent` is the body handed to curl. Invalid arguments
   * and stream=true only set the error message of the caller's response;
   * past them the response is cleared and rebuilt.
   */
  method PerformCompletion(context: Option<Provider>, config: Option<RequestConfig>, prior: Option<Response>,
                           parse: Parser, transfer: Transfer)
    returns (code: int, response: Option<Response>, sent: Option<Json>)
    ensures code == -1 || code == 0
    ensures code == 0 <==> response.Some? && response.value.error.None?
    ensures context.None? || config.None? || prior.None? ==>
      response == (if prior.Some? then Some(prior.value.(error := Some(InvalidArguments))) else None) && sent.None?
    ensures context.Some? && config.Some? && prior.Some? && config.value.stream ==>
      response == Some(prior.value.(error := Some(StreamNotAllowed))) && sent.None?
    ensures context.Some? && config.Some? && prior.Some? && !config.value.stream && context.value.OtherProvider? ==>
      response == Some(EmptyResponse.(error := Some(PayloadFailed))) && sent.None?
    ensures context.Some? && config.Some? && prior.Some? && !config.value.stream && !context.value.OtherProvider? ==>
      response == Some(Outcome(parse, context.value, transfer)) && sent == Request.Payload(context.value, config.value)
  {
    sent := None;
    if context.None? || config.None? || prior.None? {
      response := if prior.Some? then Some(prior.value.(error := Some(InvalidArguments))) else None;
      return -1, response, sent;
    }
    if config.value.stream {
      return -1, Some(prior.value.(error := Some(StreamNotAllowed))), sent;
    }
    var provider := context.value;
    var r := EmptyResponse;
    sent := Request.Payload(provider, config.value);
    if sent.None? {
      return -1, Some(r.(error := Some(PayloadFailed))), sent;
    }
    r := r.(httpStatus := transfer.httpStatus);
    if !transfer.ok {
      r := r.(error := Some(TransferFailure(transfer)));
    } else if 200 <= transfer.httpStatus < 300 {
      var text, finish := ExtractText(parse, transfer.body, provider);
      r := r.(finish := finish);
      if text.Some? {
        r := r.(parts := [text.value]);
      } else {
        r := r.(error := Some(UnreadableReply(parse, transfer.httpStatus, transfer.body)));
      }
    } else {
      r := r.(error := Some(HttpFailure(parse, transfer.httpStatus, transfer.body)));
    }
    code := if r.error.Some? then -1 else 0;
    response := Some(r);
  }

  // ---------------------------------------------------------------------
  // Properties of a completion
  // ---------------------------------------------------------------------

  /**
   * A completion succeeds exactly when the transfer completes with a 2xx
   * status and the reader finds text; the text is then the only part.
   */
  lemma CompletionSucceedsIff(parse: Parser, provider: Provider, t: Transfer)
    ensures var r := Outcome(parse, provider, t);
      && (r.error.None? <==> t.ok && 200 <= t.httpStatus < 300 && ReadReply(parse, t.body, provider).0.Some?)
      && (r.error.None? ==> r.parts == [ReadReply(parse, t.body, provider).0.value])
      && (r.error.Some? ==> r.parts == [])
      && r.httpStatus == t.httpStatus
  {
  }

  /** A reply the server sends back as written is read back into the response. */
  lemma CompletionReadsReply(parse: Parser, provider: Provider, t: Transfer, text: string, finish: string)
    requires t.ok && 200 <= t.httpStatus < 300
    requires provider == OpenAICompatible ==> parse(UpToNul(t.body)) == Some(OpenAIReply(text, finish))
    requires provider == GoogleGemini ==> parse(UpToNul(t.body)) == Some(GeminiReply(text, finish))
    requires provider == Anthropic ==> parse(UpToNul(t.body)) == Some(AnthropicReply(text, finish))
    requires !provider.OtherProvider?
    ensures Outcome(parse, provider, t) == Response([text], None, t.httpStatus, Some(finish))
  {
    match provider
    case OpenAICompatible => OpenAIReplyReadsBack(text, finish);
    case GoogleGemini => GeminiReplyReadsBack(text, finish);
    case Anthropic => AnthropicReplyReadsBack(text, finish);
  }

  /** A non-2xx reply whose body carries an error message is reported with that message. */
  lemma HttpErrorReported(parse: Parser, provider: Provider, t: Transfer, message: string)
    requires t.ok && !(200 <= t.httpStatus < 300)
    requires StreamResult.BufferedErrorMessage(parse, t.body) == Some(message)
    ensures Outcome(parse, provider, t).error == Some("HTTP error " + NatToString(t.httpStatus) + ": " + message)
  {
  }

  /** The rate-limit body's message, as the error-body reader finds it. */
  lemma RateLimitMessage(parse: Parser, body: string)
    requires parse(UpToNul(body)) == Some(MockServer.RateLimitError)
    ensures StreamResult.BufferedErrorMessage(parse, body) == Some("Rate limit exceeded")
  {
    var error := MockServer.RateLimitError.fields[0].1;
    assert error.fields[0] == ("message", JString("Rate limit exceeded"));
  }

  /** The Anthropic authentication body's top-level message, as the error-body reader finds it. */
  lemma AnthropicAuthMessage(parse: Parser, body: string)
    requires parse(UpToNul(body)) == Some(MockServer.AnthropicAuthError)
    ensures StreamResult.BufferedErrorMessage(parse, body) == Some("Authentication Error")
  {
    LookupFirst(MockServer.AnthropicAuthError.fields, "message", 1);
    LookupMissing(MockServer.AnthropicAuthError.fields, "error");
  }

  /** The reply of the mock server's RATE_LIMIT_COMPLETION scenario is reported with its message. */
  lemma RateLimitReported(parse: Parser, provider: Provider, t: Transfer)
    requires t.ok && t.httpStatus == 429 && parse(UpToNul(t.body)) == Some(MockServer.RateLimitError)
    ensures Outcome(parse, provider, t).error == Some("HTTP error " + NatToString(t.httpStatus) + ": " + "Rate limit exceeded")
  {
    RateLimitMessage(parse, t.body);
    HttpErrorReported(parse, provider, t, "Rate limit exceeded");
  }

  /** The Anthropic mock's authentication failure (a top-level "type":"error") is reported with its message. */
  lemma AnthropicAuthFailureReported(parse: Parser, t: Transfer)
    requires t.ok && t.httpStatus == 401 && parse(UpToNul(t.body)) == Some(MockServer.AnthropicAuthError)
    ensures Outcome(parse, Anthropic, t).error == Some("HTTP error " + NatToString(t.httpStatus) + ": " + "Authentication Error")
  {
    AnthropicAuthMessage(parse, t.body);
    HttpErrorReported(parse, Anthropic, t, "Authentication Error");
  }

  /**
   * The mock's answer when no scenario is selected has a string "error",
   * which carries no "message": the report quotes the body instead.
   */
  lemma NoScenarioQuotesBody(parse: Parser, provider: Provider, t: Transfer, detail: string)
    requires t.ok && t.httpStatus == 400 && parse(UpToNul(t.body)) == Some(MockServer.NoScenario(detail))
    ensures Outcome(parse, provider, t).error == Some("HTTP error " + NatToString(t.httpStatus) + ". Body: " + Prefix(UpToNul(t.body), 500))
  {
  }
}
