/**
 * The two streaming entry points of src/dp_stream.c
 * (dp_perform_streaming_completion and
 * dp_perform_anthropic_streaming_completion): argument checks, one write
 * callback per chunk the transfer delivers, and the end-of-stream
 * resolution of the final callback, finish reason and error message.
 */
module StreamResult {
  import opened Wrappers
  import opened Json
  import opened Text
  import opened Types
  import Stream
  import AnthropicStream

  /**
   * How the transfer ended: whether curl_easy_perform returned CURLE_OK,
   * curl_easy_strerror's text for its result, and the HTTP status.
   */
  datatype Ending = Ending(ok: bool, curlError: string, httpStatus: nat)

  const StreamHttpError := "HTTP error occurred during stream"
  const AnthropicHttpErrorJson := "{\"error\":{\"type\":\"http_error\"," + "\"message\":\"" + StreamHttpError + "\"}}"
  const StreamRequired := "dp_perform_streaming_completion requires stream=true in config for OpenAI and Anthropic."
  const PayloadFailed := "Payload build failed for streaming."
  const NotAnthropic := "dp_perform_anthropic_streaming_completion called with non-Anthropic provider."
  const AnthropicStreamRequired := "dp_perform_anthropic_streaming_completion requires stream=true in config."

  /**
   * The message of an error body: `error.message` when the body has an
   * `error` member, else `message` of an object whose `type` is "error".
   */
  function ErrorBodyMessage(j: Json): (m: Option<string>)
    ensures Has(j, "error") ==> m == GetString(Get(j, "error").value, "message")
    ensures !Has(j, "error") ==> (m.Some? <==> GetString(j, "type") == Some("error") && GetString(j, "message").Some?)
    ensures !Has(j, "error") && m.Some? ==> m == GetString(j, "message")
  {
    match Get(j, "error")
    case Some(err) => GetString(err, "message")
    case None => if GetString(j, "type") == Some("error") then GetString(j, "message") else None
  }

  /** The message of the buffered body, when it parses as an error body. */
  function BufferedErrorMessage(parse: Parser, buffer: string): Option<string> {
    match parse(UpToNul(buffer))
    case Some(j) => ErrorBodyMessage(j)
    case None => None
  }

  /**
   * The message for a non-2xx answer nobody has explained yet: the status
   * with the body's error message, else with at most 200 characters of the
   * body, else noting the empty body.
   */
  function HttpErrorMessage(parse: Parser, status: nat, buffer: string): (m: string)
    ensures StartsWith(m, "HTTP error " + NatToString(status))
    ensures |buffer| > 0 && BufferedErrorMessage(parse, buffer).Some? ==>
      m == "HTTP error " + NatToString(status) + ": " + BufferedErrorMessage(parse, buffer).value
    ensures |buffer| == 0 ==> m == "HTTP error " + NatToString(status) + " (empty body)"
  {
    var head := "HTTP error " + NatToString(status);
    var msg := if |buffer| > 0 then BufferedErrorMessage(parse, buffer) else None;
    var m :=
      if msg.Some? then head + ": " + msg.value
      else if |buffer| > 0 then head + ". Body hint: " + Prefix(UpToNul(buffer), 200)
      else head + " (empty body)";
    assert m[..|head|] == head;
    m
  }

  /**
   * The stream error joins the error message: appended after "; Stream
   * processing error: " unless the message already contains it, or taken
   * as the message when there is none.
   */
  function CombineStreamError(message: Option<string>, accError: Option<string>): (r: Option<string>)
    ensures accError.None? ==> r == message
    ensures accError.Some? ==> r.Some? && Contains(r.value, accError.value)
    ensures message.Some? ==> r.Some? && StartsWith(r.value, message.value)
  {
    if accError.None? then message
    else if message.None? then
      assert OccursAt(accError.value, accError.value, 0);
      accError
    else if Contains(message.value, accError.value) then message
    else
      var m := message.value + "; Stream processing error: " + accError.value;
      assert OccursAt(m, accError.value, |m| - |accError.value|);
      assert m[..|message.value|] == message.value;
      Some(m)
  }

  /** The finish reason: the captured one, else "completed" for a clean 2xx transfer. */
  function FinishReason(e: Ending, finish: Option<string>, accError: Option<string>): (r: Option<string>)
    ensures finish.Some? ==> r == finish
    ensures finish.None? ==> (r == Some("completed") <==> e.ok && IsSuccessStatus(e.httpStatus) && accError.None?)
    ensures finish.None? && r != Some("completed") ==> r.None?
  {
    if finish.Some? then finish
    else if e.ok && IsSuccessStatus(e.httpStatus) && accError.None? then Some("completed")
    else None
  }

  /** What dp_perform_*_streaming_completion leaves behind besides its return value. */
  datatype Resolution<C> = Resolution(finalCall: Option<C>, finish: Option<string>, error: Option<string>)

  /**
   * The end of a generic stream that was not stopped: the error handed to
   * the final callback, and the error message already set on the way (the
   * bare message of a non-2xx error body).
   */
  function RunningEnd(parse: Parser, e: Ending, accError: Option<string>, buffer: string): (r: (Option<string>, Option<string>))
    ensures accError.Some? ==> r == (accError, None)
    ensures accError.None? && !e.ok ==> r == (Some(e.curlError), None)
    ensures accError.None? && e.ok && IsSuccessStatus(e.httpStatus) ==> r == (None, None)
    ensures accError.None? && e.ok && !IsSuccessStatus(e.httpStatus) ==> r.0.Some? && r.1 == BufferedErrorMessage(parse, buffer)
  {
    if accError.Some? then (accError, None)
    else if !e.ok then (Some(e.curlError), None)
    else if !IsSuccessStatus(e.httpStatus) then
      var msg := BufferedErrorMessage(parse, buffer);
      if msg.Some? then (msg, msg)
      else if |buffer| > 0 then (Some(UpToNul(buffer)), None)
      else (Some(StreamHttpError), None)
    else (None, None)
  }

  /** The end-of-stream resolution of dp_perform_streaming_completion. */
  function ResolveGeneric(parse: Parser, e: Ending, st: Stream.Progress): Resolution<Stream.Call> {
    var (streamError, early) := if st.stop then (None, None) else RunningEnd(parse, e, st.accError, st.pending);
    var message :=
      if !e.ok && early.None? then Some("curl_easy_perform() failed: " + e.curlError)
      else if !IsSuccessStatus(e.httpStatus) && early.None? then Some(HttpErrorMessage(parse, e.httpStatus, st.pending))
      else early;
    Resolution(
      if st.stop then None else Some(Stream.Call(None, true, streamError)),
      FinishReason(e, st.finish, st.accError),
      CombineStreamError(message, st.accError))
  }

  /**
   * The generic stream fails exactly when the transfer failed, the status
   * is not 2xx, or the stream reported an error, which then appears in the
   * message; whatever is left in the buffer (a cut-off last event) does
   * not matter to a clean transfer.
   */
  lemma GenericFailsIffTrouble(parse: Parser, e: Ending, st: Stream.Progress)
    ensures var r := ResolveGeneric(parse, e, st);
      && (r.error.None? <==> e.ok && IsSuccessStatus(e.httpStatus) && st.accError.None?)
      && (st.accError.Some? ==> Contains(r.error.value, st.accError.value))
      && (!e.ok && st.accError.None? ==> r.error == Some("curl_easy_perform() failed: " + e.curlError))
      && (r.finalCall.Some? <==> !st.stop)
      && (st.finish.None? ==> (r.finish == Some("completed") <==> r.error.None?))
  {
  }

  /**
   * A non-2xx answer whose body carries an error message: a running stream
   * reports the bare message (and hands it to the final callback), a
   * stopped one the "HTTP error <status>: " form.
   */
  lemma GenericHttpErrorMessage(parse: Parser, e: Ending, st: Stream.Progress, msg: string)
    requires e.ok && !IsSuccessStatus(e.httpStatus) && st.accError.None?
    requires |st.pending| > 0 && BufferedErrorMessage(parse, st.pending) == Some(msg)
    ensures !st.stop ==> ResolveGeneric(parse, e, st) == Resolution(Some(Stream.Call(None, true, Some(msg))), st.finish, Some(msg))
    ensures st.stop ==> ResolveGeneric(parse, e, st).error == Some("HTTP error " + NatToString(e.httpStatus) + ": " + msg)
  {
  }

  /** The final event a running Anthropic stream delivers at its end, with the error passed alongside. */
  function AnthropicRunningEnd(e: Ending, accError: Option<string>, buffer: string): (r: (AnthropicStream.StreamEvent, Option<string>))
    ensures accError.None? && e.ok && IsSuccessStatus(e.httpStatus) ==> r == (AnthropicStream.StreamEvent(AnthropicStream.MessageStopEvent, None), None)
    ensures accError.None? && !(e.ok && IsSuccessStatus(e.httpStatus)) ==> r.0.kind == AnthropicStream.ErrorEvent && r.1.Some? && r.0.raw.Some?
    ensures accError.Some? ==> r == (AnthropicStream.StreamEvent(AnthropicStream.UnknownEvent, None), accError)
  {
    if accError.Some? then (AnthropicStream.StreamEvent(AnthropicStream.UnknownEvent, None), accError)
    else if !e.ok then (AnthropicStream.StreamEvent(AnthropicStream.ErrorEvent, Some(e.curlError)), Some(e.curlError))
    else if !IsSuccessStatus(e.httpStatus) then
      var body := if |buffer| > 0 then UpToNul(buffer) else AnthropicHttpErrorJson;
      var message := if |buffer| > 0 then UpToNul(buffer) else StreamHttpError;
      (AnthropicStream.StreamEvent(AnthropicStream.ErrorEvent, Some(body)), Some(message))
    else (AnthropicStream.StreamEvent(AnthropicStream.MessageStopEvent, None), None)
  }

  /** The final callback of a running Anthropic stream: made when the event is known or an error is passed. */
  function AnthropicFinalCall(e: Ending, st: AnthropicStream.Progress): (r: Option<(AnthropicStream.StreamEvent, Option<string>)>)
    ensures r.Some? <==> !st.stop
  {
    if st.stop then None
    else
      var (event, error) := AnthropicRunningEnd(e, st.accError, st.pending);
      if event.kind != AnthropicStream.UnknownEvent || error.Some? then Some((event, error)) else None
  }

  /**
   * The end-of-stream resolution of dp_perform_anthropic_streaming_completion
   * as written: a non-2xx status sets no error message (that branch is an
   * empty placeholder), and a stream error is never combined into an
   * existing message.
   */
  function ResolveAnthropicAsWritten(e: Ending, st: AnthropicStream.Progress): Resolution<(AnthropicStream.StreamEvent, Option<string>)> {
    var message := if !e.ok then Some("curl_easy_perform() failed: " + e.curlError) else None;
    var message' := if st.accError.Some? && message.None? then st.accError else message;
    Resolution(AnthropicFinalCall(e, st), FinishReason(e, st.finish, st.accError), message')
  }

  /**
   * The discrepancy: an Anthropic stream answered with a non-2xx status
   * (the mock's AUTH_FAILURE_ANTHROPIC 401, say) over a clean transfer
   * resolves with no error message, so the function returns 0, although
   * the status is an error and no finish reason is reported.
   */
  lemma AnthropicHttpErrorUnreported(e: Ending, st: AnthropicStream.Progress)
    requires e.ok && !IsSuccessStatus(e.httpStatus) && st.accError.None? && st.finish.None?
    ensures ResolveAnthropicAsWritten(e, st).error.None?
    ensures ResolveAnthropicAsWritten(e, st).finish.None?
  {
  }

  /**
   * The resolution as the placeholder comments describe it: the HTTP error
   * message populated as in the generic stream, and the stream error
   * combined into it.
   */
  function ResolveAnthropic(parse: Parser, e: Ending, st: AnthropicStream.Progress): Resolution<(AnthropicStream.StreamEvent, Option<string>)> {
    var message :=
      if !e.ok then Some("curl_easy_perform() failed: " + e.curlError)
      else if !IsSuccessStatus(e.httpStatus) then Some(HttpErrorMessage(parse, e.httpStatus, st.pending))
      else None;
    Resolution(AnthropicFinalCall(e, st), FinishReason(e, st.finish, st.accError), CombineStreamError(message, st.accError))
  }

  /**
   * With the placeholder filled in, the Anthropic stream fails exactly when
   * the generic one would: a failed transfer, a non-2xx status or a stream
   * error, which then appears in the message.
   */
  lemma AnthropicFailsIffTrouble(parse: Parser, e: Ending, st: AnthropicStream.Progress)
    ensures var r := ResolveAnthropic(parse, e, st);
      && (r.error.None? <==> e.ok && IsSuccessStatus(e.httpStatus) && st.accError.None?)
      && (st.accError.Some? ==> Contains(r.error.value, st.accError.value))
      && (e.ok && !IsSuccessStatus(e.httpStatus) ==> StartsWith(r.error.value, "HTTP error " + NatToString(e.httpStatus)))
      && (r.finalCall.Some? <==> !st.stop)
      && (st.finish.None? ==> (r.finish == Some("completed") <==> r.error.None?))
  {
  }

  /** A running Anthropic stream that ends cleanly closes with a message_stop event and no error. */
  lemma AnthropicCleanEnd(parse: Parser, e: Ending, st: AnthropicStream.Progress)
    requires !st.stop && e.ok && IsSuccessStatus(e.httpStatus) && st.accError.None?
    ensures ResolveAnthropic(parse, e, st).finalCall == Some((AnthropicStream.StreamEvent(AnthropicStream.MessageStopEvent, None), None))
  {
  }

  /**
   * dp_perform_streaming_completion over a transfer that delivers `chunks`
   * and then ends as `e`: the checks, the processor fed chunk by chunk,
   * and the resolution. `prior` is the caller's response: the
   * stream-required rejection only sets its error message, while every
   * later path starts from a zeroed response. Returns the result code, the
   * response and every callback made.
   */
  method PerformStreamingCompletion(provider: Provider, config: RequestConfig, parse: Parser,
                                    reply: seq<Stream.Call> -> int, chunks: seq<string>, e: Ending, prior: Response)
    returns (code: int, response: Response, calls: seq<Stream.Call>)
    ensures code == (if response.error.Some? then -1 else 0)
    ensures provider != GoogleGemini && !config.stream ==> response == prior.(error := Some(StreamRequired)) && calls == []
    ensures provider.OtherProvider? && config.stream ==> response == EmptyResponse.(error := Some(PayloadFailed)) && calls == []
    ensures !provider.OtherProvider? && (provider == GoogleGemini || config.stream) ==>
      var setup := Stream.Setup(provider, parse, reply);
      var st := Stream.FeedAll(setup, Stream.Progress("", false, None, None, []), chunks);
      var r := ResolveGeneric(parse, e, st);
      && response == Response([], r.error, e.httpStatus, r.finish)
      && calls == st.calls + (if r.finalCall.Some? then [r.finalCall.value] else [])
  {
    if provider != GoogleGemini && !config.stream {
      return -1, prior.(error := Some(StreamRequired)), [];
    }
    if provider.OtherProvider? {
      return -1, EmptyResponse.(error := Some(PayloadFailed)), [];
    }
    var setup := Stream.Setup(provider, parse, reply);
    var processor := new Stream.StreamProcessor(setup);
    var i := 0;
    while i < |chunks|
      invariant 0 <= i <= |chunks|
      invariant processor.Valid() && processor.setup == setup && fresh(processor) && fresh(processor.buffer)
      invariant processor.State() == Stream.FeedAll(setup, Stream.Progress("", false, None, None, []), chunks[..i])
    {
      assert chunks[..i + 1][..i] == chunks[..i];
      var _ := processor.Write(chunks[i]);
      i := i + 1;
    }
    assert chunks[..i] == chunks;
    var st := Stream.Progress(processor.buffer[..processor.bufferSize], processor.stop, processor.finish, processor.accError, processor.calls);
    var r := ResolveGeneric(parse, e, st);
    response := Response([], r.error, e.httpStatus, r.finish);
    calls := st.calls + (if r.finalCall.Some? then [r.finalCall.value] else []);
    code := if response.error.Some? then -1 else 0;
  }

  /**
   * The argument checks of dp_perform_anthropic_streaming_completion: a
   * provider other than Anthropic, or stream=false, only sets the error
   * message of the caller's response.
   */
  function AnthropicRejection(provider: Provider, config: RequestConfig, prior: Response): (r: Option<Response>)
    ensures r.None? <==> provider == Anthropic && config.stream
    ensures provider != Anthropic ==> r == Some(prior.(error := Some(NotAnthropic)))
    ensures provider == Anthropic && !config.stream ==> r == Some(prior.(error := Some(AnthropicStreamRequired)))
  {
    if provider != Anthropic then Some(prior.(error := Some(NotAnthropic)))
    else if !config.stream then Some(prior.(error := Some(AnthropicStreamRequired)))
    else None
  }

  /**
   * The Anthropic detailed processor fed every chunk of the transfer, in
   * order, from a fresh 8192-byte buffer.
   */
  method StreamAnthropicEvents(setup: AnthropicStream.Setup, chunks: seq<string>) returns (st: AnthropicStream.Progress)
    ensures st == AnthropicStream.FeedAll(setup, AnthropicStream.Progress("", false, None, None, []), chunks)
  {
    var processor := new AnthropicStream.DetailedProcessor(setup);
    var i := 0;
    while i < |chunks|
      invariant 0 <= i <= |chunks|
      invariant processor.Valid() && processor.setup == setup && fresh(processor) && fresh(processor.buffer)
      invariant processor.State() == AnthropicStream.FeedAll(setup, AnthropicStream.Progress("", false, None, None, []), chunks[..i])
    {
      assert chunks[..i + 1][..i] == chunks[..i];
      var _ := processor.Write(chunks[i]);
      i := i + 1;
    }
    assert chunks[..i] == chunks;
    st := AnthropicStream.Progress(processor.buffer[..processor.bufferSize], processor.stop, processor.finish, processor.accError, processor.calls);
  }

  /**
   * dp_perform_anthropic_streaming_completion as written, over a transfer
   * that delivers `chunks` and then ends as `e`: the end is resolved by
   * ResolveAnthropicAsWritten, so a clean transfer answered with a non-2xx
   * status and no stream error returns 0. Returns the result code, the
   * response, every event delivered and the final callback, if any.
   */
  method PerformAnthropicStreamingCompletionAsWritten(provider: Provider, config: RequestConfig, parse: Parser,
                                                      reply: seq<AnthropicStream.StreamEvent> -> int, chunks: seq<string>,
                                                      e: Ending, prior: Response)
    returns (code: int, response: Response, events: seq<AnthropicStream.StreamEvent>,
             finalCall: Option<(AnthropicStream.StreamEvent, Option<string>)>)
    ensures code == (if response.error.Some? then -1 else 0)
    ensures AnthropicRejection(provider, config, prior).Some? ==>
      response == AnthropicRejection(provider, config, prior).value && events == [] && finalCall.None?
    ensures AnthropicRejection(provider, config, prior).None? ==>
      var setup := AnthropicStream.Setup(parse, reply);
      var st := AnthropicStream.FeedAll(setup, AnthropicStream.Progress("", false, None, None, []), chunks);
      var r := ResolveAnthropicAsWritten(e, st);
      && response == Response([], r.error, e.httpStatus, r.finish)
      && events == st.calls && finalCall == r.finalCall
      && (e.ok && !IsSuccessStatus(e.httpStatus) && st.accError.None? ==> code == 0)
  {
    var rejected := AnthropicRejection(provider, config, prior);
    if rejected.Some? {
      return -1, rejected.value, [], None;
    }
    var st := StreamAnthropicEvents(AnthropicStream.Setup(parse, reply), chunks);
    var r := ResolveAnthropicAsWritten(e, st);
    response := Response([], r.error, e.httpStatus, r.finish);
    events, finalCall := st.calls, r.finalCall;
    code := if response.error.Some? then -1 else 0;
  }

  /**
   * dp_perform_anthropic_streaming_completion with the end resolved as the
   * placeholder comments intend (ResolveAnthropic): the same checks and
   * events as the as-written method, and a non-2xx status reported as an
   * error. Returns the result code, the response, every event delivered
   * and the final callback, if any.
   */
  method PerformAnthropicStreamingCompletion(provider: Provider, config: RequestConfig, parse: Parser,
                                             reply: seq<AnthropicStream.StreamEvent> -> int, chunks: seq<string>,
                                             e: Ending, prior: Response)
    returns (code: int, response: Response, events: seq<AnthropicStream.StreamEvent>,
             finalCall: Option<(AnthropicStream.StreamEvent, Option<string>)>)
    ensures code == (if response.error.Some? then -1 else 0)
    ensures AnthropicRejection(provider, config, prior).Some? ==>
      response == AnthropicRejection(provider, config, prior).value && events == [] && finalCall.None?
    ensures AnthropicRejection(provider, config, prior).None? ==>
      var setup := AnthropicStream.Setup(parse, reply);
      var st := AnthropicStream.FeedAll(setup, AnthropicStream.Progress("", false, None, None, []), chunks);
      var r := ResolveAnthropic(parse, e, st);
      && response == Response([], r.error, e.httpStatus, r.finish)
      && events == st.calls && finalCall == r.finalCall
      && (code == 0 <==> e.ok && IsSuccessStatus(e.httpStatus) && st.accError.None?)
  {
    var rejected := AnthropicRejection(provider, config, prior);
    if rejected.Some? {
      return -1, rejected.value, [], None;
    }
    var st := StreamAnthropicEvents(AnthropicStream.Setup(parse, reply), chunks);
    var r := ResolveAnthropic(parse, e, st);
    AnthropicFailsIffTrouble(parse, e, st);
    response := Response([], r.error, e.httpStatus, r.finish);
    events, finalCall := st.calls, r.finalCall;
    code := if response.error.Some? then -1 else 0;
  }
}
