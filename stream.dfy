/**
 * The generic streaming parser of src/dp_stream.c (streaming_write_callback):
 * chunks from the transport are appended to a growable buffer, complete
 * events are cut off the front, their `event: ` and `data: ` lines are read,
 * and at most one user callback fires per event. The functions below are the
 * specification; `StreamProcessor` is the in-place implementation.
 */
module Stream {
  import opened Wrappers
  import opened Json
  import opened Text
  import opened Types
  import opened SseFraming

  /** One invocation of the user's dp_stream_callback_t: (token, is_final, error). */
  datatype Call = Call(token: Option<string>, final: bool, error: Option<string>)

  /**
   * The fixed parts of a stream processor: the provider, cJSON_Parse, and
   * the user callback's return value, given as a function of all calls made
   * so far (the last one being the call it answers).
   */
  datatype Setup = Setup(provider: Provider, parse: Parser, reply: seq<Call> -> int)

  /**
   * What the line loop accumulates for one event: the extracted token, the
   * event's final flag, the Anthropic event name, the processor's finish
   * reason and stream error, and whether `data: [DONE]` ended the loop.
   */
  datatype Scan = Scan(
    token: Option<string>,
    final: bool,
    eventType: Option<string>,
    finish: Option<string>,
    accError: Option<string>,
    done: bool)

  function StartScan(finish: Option<string>, accError: Option<string>): Scan {
    Scan(None, false, None, finish, accError, false)
  }

  /** A capture that is only made when none was made before. */
  function KeepFirst(current: Option<string>, candidate: Option<string>): (r: Option<string>)
    ensures current.Some? ==> r == current
    ensures current.None? ==> r == candidate
  {
    if current.Some? then current else candidate
  }

  predicate NonEmptyToken(t: Option<string>) {
    t.Some? ==> |t.value| > 0
  }

  /** OpenAI chunk: token from choices[0].delta.content, finish from choices[0].finish_reason. */
  function OpenAIChunk(j: Json, sc: Scan): (r: Scan)
    requires NonEmptyToken(sc.token)
    ensures NonEmptyToken(r.token)
    ensures sc.finish.Some? ==> r.finish == sc.finish && r.final == sc.final
    ensures r.finish != sc.finish ==> r.final
    ensures r.eventType == sc.eventType && r.accError == sc.accError && r.done == sc.done
  {
    var choice := FirstItem(Get(j, "choices"));
    if choice.None? then sc
    else
      var delta := Get(choice.value, "delta");
      var content := if delta.Some? then GetString(delta.value, "content") else None;
      var sc1 := if content.Some? && |content.value| > 0 then sc.(token := content) else sc;
      var reason := GetString(choice.value, "finish_reason");
      if sc1.finish.None? && reason.Some? then sc1.(finish := reason, final := true) else sc1
  }

  /** The concatenation of the non-empty string `text` members of Gemini parts. */
  function GeminiText(parts: seq<Json>): string {
    if |parts| == 0 then ""
    else
      var t := GetString(parts[0], "text");
      (if t.Some? then t.value else "") + GeminiText(parts[1..])
  }

  /**
   * Gemini chunk: token from the parts of candidates[0].content, finish from
   * candidates[0].finishReason or promptFeedback.finishReason; either reason
   * makes the event final even when a reason was captured before.
   */
  function GeminiChunk(j: Json, sc: Scan): (r: Scan)
    requires NonEmptyToken(sc.token)
    ensures NonEmptyToken(r.token)
    ensures sc.finish.Some? ==> r.finish == sc.finish
    ensures r.finish != sc.finish ==> r.final
    ensures r.eventType == sc.eventType && r.accError == sc.accError && r.done == sc.done
  {
    var candidate := FirstItem(Get(j, "candidates"));
    var sc1 :=
      if candidate.None? then sc
      else
        var content := Get(candidate.value, "content");
        var parts := if content.Some? then Get(content.value, "parts") else None;
        var text := if parts.Some? && parts.value.JArray? then GeminiText(parts.value.items) else "";
        var sc0 := if |text| > 0 then sc.(token := Some(text)) else sc;
        var reason := GetString(candidate.value, "finishReason");
        if reason.Some? then sc0.(finish := KeepFirst(sc0.finish, reason), final := true) else sc0;
    var feedback := Get(j, "promptFeedback");
    var reason := if feedback.Some? then GetString(feedback.value, "finishReason") else None;
    if reason.Some? then sc1.(finish := KeepFirst(sc1.finish, reason), final := true) else sc1
  }

  /** Anthropic chunk, interpreted by the name of the last `event: ` line before it. */
  function AnthropicChunk(j: Json, sc: Scan): (r: Scan)
    requires NonEmptyToken(sc.token)
    ensures NonEmptyToken(r.token)
    ensures sc.finish.Some? ==> r.finish == sc.finish
    ensures sc.accError.Some? ==> r.accError == sc.accError
    ensures r.accError != sc.accError ==> r.final && sc.eventType == Some("error")
    ensures r.token != sc.token ==> sc.eventType == Some("content_block_delta")
    ensures sc.final ==> r.final
    ensures r.eventType == sc.eventType && r.done == sc.done
  {
    if sc.eventType == Some("content_block_delta") then
      var delta := Get(j, "delta");
      if delta.Some? && GetString(delta.value, "type") == Some("text_delta") then
        var text := GetString(delta.value, "text");
        if text.Some? && |text.value| > 0 then sc.(token := text) else sc
      else sc
    else if sc.eventType == Some("message_delta") then
      if sc.finish.Some? then sc
      else
        var usage := Get(j, "usage");
        var holder := if usage.Some? then usage else Get(j, "delta");
        var reason := if holder.Some? then GetString(holder.value, "stop_reason") else None;
        if reason.Some? then sc.(finish := reason) else sc
    else if sc.eventType == Some("message_stop") then sc.(final := true)
    else if sc.eventType == Some("error") then
      var err := Get(j, "error");
      var kind := if err.Some? then GetString(err.value, "type") else None;
      var message := if err.Some? then GetString(err.value, "message") else None;
      var sc1 :=
        if kind.Some? && message.Some? then
          sc.(accError := KeepFirst(sc.accError, Some("Anthropic Stream Error (" + kind.value + "): " + message.value)))
        else sc;
      sc1.(final := true)
    else sc
  }

  /** One line of an event (already split off and stripped of its CR). */
  function ScanLine(setup: Setup, sc: Scan, line: string): (r: Scan)
    requires NonEmptyToken(sc.token)
    ensures NonEmptyToken(r.token)
    ensures !StartsWith(line, "data: ") && !(setup.provider == Anthropic && StartsWith(line, "event: ")) ==> r == sc
    ensures setup.provider != Anthropic ==> r.eventType == sc.eventType && r.accError == sc.accError
    ensures setup.provider == OpenAICompatible && line == "data: [DONE]" ==>
      r.final && r.done && r.finish == Some(sc.finish.GetOr("done_marker"))
    ensures !sc.done && r.done ==> setup.provider == OpenAICompatible
    ensures sc.finish.Some? ==> r.finish == sc.finish
    ensures sc.accError.Some? ==> r.accError == sc.accError
    ensures sc.final ==> r.final
  {
    if setup.provider == Anthropic && StartsWith(line, "event: ") then
      sc.(eventType := Some(line[7..]))
    else if StartsWith(line, "data: ") then
      var payload := line[6..];
      if setup.provider == OpenAICompatible && payload == "[DONE]" then
        sc.(final := true, finish := KeepFirst(sc.finish, Some("done_marker")), done := true)
      else
        match setup.parse(payload)
        case None => sc
        case Some(j) =>
          match setup.provider
          case OpenAICompatible => OpenAIChunk(j, sc)
          case GoogleGemini => GeminiChunk(j, sc)
          case Anthropic => AnthropicChunk(j, sc)
          case OtherProvider(_) => sc
    else sc
  }

  /**
   * The line loop over one event's text: split at each LF, strip one CR
   * before it, stop at the end of the text or after `data: [DONE]`.
   */
  function ScanText(setup: Setup, sc: Scan, text: string): (r: Scan)
    requires NonEmptyToken(sc.token) && !sc.done
    ensures NonEmptyToken(r.token)
    ensures setup.provider != Anthropic ==> r.eventType == sc.eventType && r.accError == sc.accError
    ensures sc.finish.Some? ==> r.finish == sc.finish
    ensures sc.accError.Some? ==> r.accError == sc.accError
    ensures sc.final ==> r.final
    decreases |text|
  {
    if |text| == 0 then sc
    else match IndexOf(text, '\n')
      case None => ScanLine(setup, sc, text)
      case Some(k) =>
        var sc1 := ScanLine(setup, sc, StripCR(text[..k]));
        if sc1.done then sc1 else ScanText(setup, sc1, text[k + 1..])
  }

  /** The observable state of a processor: unconsumed text, stop flag, captures, calls so far. */
  datatype Progress = Progress(
    pending: string,
    stop: bool,
    finish: Option<string>,
    accError: Option<string>,
    calls: seq<Call>)

  /** Invoke the callback; a non-zero answer raises the stop flag. */
  function Dispatch(setup: Setup, st: Progress, call: Call): (r: Progress)
    ensures r.calls == st.calls + [call]
    ensures r.stop <==> st.stop || setup.reply(st.calls + [call]) != 0
    ensures r.pending == st.pending && r.finish == st.finish && r.accError == st.accError
  {
    var calls := st.calls + [call];
    st.(calls := calls, stop := st.stop || setup.reply(calls) != 0)
  }

  /** The effect of one complete event: scan its lines, then dispatch at most one callback. */
  function EventOutcome(setup: Setup, st: Progress, segment: string): (r: Progress)
    ensures r.pending == st.pending
    ensures st.finish.Some? ==> r.finish == st.finish
    ensures setup.provider != Anthropic ==> r.accError == st.accError
    ensures |st.calls| <= |r.calls| && r.calls[..|st.calls|] == st.calls
  {
    var sc := ScanText(setup, StartScan(st.finish, st.accError), segment);
    var st1 := st.(finish := sc.finish, accError := sc.accError);
    var st2 :=
      if sc.token.Some? then Dispatch(setup, st1, Call(sc.token, sc.final, None))
      else if sc.final then Dispatch(setup, st1, Call(None, true, sc.accError))
      else st1;
    if sc.final then st2.(stop := true) else st2
  }

  /**
   * Each event makes at most one callback: a token call when a token was
   * extracted (non-empty, with no error), otherwise a final call carrying
   * the stream error when the event is final; a final event always stops
   * the stream, and a stopped stream stays stopped.
   */
  lemma AtMostOneCallPerEvent(setup: Setup, st: Progress, segment: string)
    ensures var r := EventOutcome(setup, st, segment);
      var sc := ScanText(setup, StartScan(st.finish, st.accError), segment);
      && |st.calls| <= |r.calls| <= |st.calls| + 1 && r.calls[..|st.calls|] == st.calls
      && (sc.token.Some? <==> |r.calls| > |st.calls| && r.calls[|st.calls|].token.Some?)
      && (|r.calls| > |st.calls| ==> var c := r.calls[|st.calls|];
            (c.token.Some? ==> |c.token.value| > 0 && c.error.None? && c.final == sc.final)
            && (c.token.None? ==> c.final && c.error == sc.accError))
      && (sc.final <==> |r.calls| > |st.calls| && r.calls[|st.calls|].final)
      && (sc.final ==> r.stop) && (st.stop ==> r.stop)
      && r.finish == sc.finish && r.accError == sc.accError
  {
  }

  /** The event loop: handle complete events from the front until none is left or the stream stops. */
  function Drain(setup: Setup, st: Progress): (r: Progress)
    ensures r.stop || NextEvent(r.pending).None?
    ensures st.stop ==> r == st
    ensures st.finish.Some? ==> r.finish == st.finish
    ensures setup.provider != Anthropic ==> r.accError == st.accError
    ensures |st.calls| <= |r.calls| && r.calls[..|st.calls|] == st.calls
    decreases |st.pending|
  {
    if st.stop then st
    else match NextEvent(st.pending)
      case None => st
      case Some((len, sepLen)) =>
        var rest := st.pending[len + sepLen..];
        var st1 := EventOutcome(setup, st.(pending := rest), st.pending[..len]);
        Drain(setup, st1)
  }

  /**
   * One turn of the event loop: handling the earliest event and keeping
   * the text behind it leaves the rest of the loop's work unchanged.
   */
  lemma LoopStep(setup: Setup, before: Progress, len: nat, sepLen: nat, segment: string, after: Progress)
    requires !before.stop && NextEvent(before.pending) == Some((len, sepLen))
    requires len + sepLen <= |before.pending| && segment == before.pending[..len]
    requires after == EventOutcome(setup, before.(pending := []), segment).(pending := before.pending[len + sepLen..])
    ensures Drain(setup, after) == Drain(setup, before)
  {
    var rest := before.pending[len + sepLen..];
    assert before.(pending := rest).(pending := []) == before.(pending := []);
  }

  /** The event loop handles the earliest complete event first. */
  lemma DrainStep(setup: Setup, st: Progress, len: nat, sepLen: nat)
    requires !st.stop && NextEvent(st.pending) == Some((len, sepLen))
    ensures len + sepLen <= |st.pending|
    ensures Drain(setup, st) == Drain(setup, EventOutcome(setup, st.(pending := st.pending[len + sepLen..]), st.pending[..len]))
  {
  }

  /** With the stream stopped or no complete event buffered, the loop does nothing. */
  lemma DrainIdle(setup: Setup, st: Progress)
    requires st.stop || NextEvent(st.pending).None?
    ensures Drain(setup, st) == st
  {
  }

  /** `t` is what is left of `s` after some prefix was consumed. */
  predicate IsSuffix(t: string, s: string) {
    |t| <= |s| && t == s[|s| - |t|..]
  }

  /**
   * What the event loop leaves in the buffer is the tail of what it was
   * given: the bytes after the last consumed separator.
   */
  lemma {:induction false} DrainLeavesSuffix(setup: Setup, st: Progress)
    ensures IsSuffix(Drain(setup, st).pending, st.pending)
    decreases |st.pending|
  {
    if st.stop || NextEvent(st.pending).None? {
      DrainIdle(setup, st);
    } else {
      var len, sepLen := NextEvent(st.pending).value.0, NextEvent(st.pending).value.1;
      DrainStep(setup, st, len, sepLen);
      var rest := st.pending[len + sepLen..];
      var st1 := EventOutcome(setup, st.(pending := rest), st.pending[..len]);
      DrainLeavesSuffix(setup, st1);
      assert st1.pending == rest;
      SuffixOfSuffix(Drain(setup, st1).pending, rest, st.pending);
    }
  }

  lemma SuffixOfSuffix(r: string, t: string, s: string)
    requires IsSuffix(r, t) && IsSuffix(t, s)
    ensures IsSuffix(r, s)
  {
    assert t[|t| - |r|..] == s[|s| - |r|..];
  }

  /** One write callback: ignored once stopped, else append and drain. */
  function Feed(setup: Setup, st: Progress, chunk: string): (r: Progress)
    ensures r.stop || NextEvent(r.pending).None?
    ensures st.stop ==> r == st
  {
    if st.stop then st else Drain(setup, st.(pending := st.pending + chunk))
  }

  /** The write callbacks of a whole transfer, one per chunk, in order. */
  function FeedAll(setup: Setup, st: Progress, chunks: seq<string>): Progress
    decreases |chunks|
  {
    if |chunks| == 0 then st else Feed(setup, FeedAll(setup, st, chunks[..|chunks| - 1]), chunks[|chunks| - 1])
  }

  /** The generic stream processor (stream_processor_t) and its write callback. */
  class StreamProcessor {
    const setup: Setup
    var buffer: array<char>
    var capacity: nat
    var bufferSize: nat
    var stop: bool
    var finish: Option<string>
    var accError: Option<string>
    var calls: seq<Call>

    ghost predicate Valid()
      reads this
    {
      capacity == buffer.Length && bufferSize < capacity
    }

    ghost function State(): Progress
      reads this, buffer
      requires Valid()
    {
      Progress(buffer[..bufferSize], stop, finish, accError, calls)
    }

    /** The processor as dp_perform_streaming_completion sets it up. */
    constructor (setup: Setup)
      ensures Valid() && this.setup == setup && capacity == InitialCapacity && fresh(buffer)
      ensures State() == Progress("", false, None, None, [])
    {
      this.setup := setup;
      buffer := new char[InitialCapacity];
      capacity := InitialCapacity;
      bufferSize := 0;
      stop := false;
      finish := None;
      accError := None;
      calls := [];
      new;
      buffer[0] := '\0';
    }

    /**
     * streaming_write_callback: always reports the whole chunk consumed;
     * the new state is the specification's `Feed`, and the capacity grows
     * by `NewCapacity` only when the stream was still running.
     */
    method Write(chunk: string) returns (consumed: nat)
      requires Valid()
      modifies this, buffer
      ensures Valid() && consumed == |chunk| && (buffer == old(buffer) || fresh(buffer))
      ensures capacity == if old(stop) then old(capacity) else NewCapacity(old(capacity), old(bufferSize) + |chunk| + 1)
      ensures State() == Feed(setup, old(State()), chunk)
    {
      consumed := |chunk|;
      if stop {
        return;
      }
      AppendAndDrain(chunk);
    }

    /** The running stream's part of the write callback: buffer the chunk, drain events, compact. */
    method AppendAndDrain(chunk: string)
      requires Valid() && !stop
      modifies this, buffer
      ensures Valid() && (buffer == old(buffer) || fresh(buffer))
      ensures capacity == NewCapacity(old(capacity), old(bufferSize) + |chunk| + 1)
      ensures State() == Drain(setup, old(State()).(pending := old(State()).pending + chunk))
    {
      Append(chunk);
      DrainAndCompact();
    }

    /** Handle every complete buffered event, then move the unconsumed tail to the front. */
    method DrainAndCompact()
      requires Valid()
      modifies this`stop, this`finish, this`accError, this`calls, this`bufferSize, buffer
      ensures Valid() && capacity == old(capacity)
      ensures State() == Drain(setup, old(State()))
    {
      var start := DrainEvents();
      Compact(start, bufferSize - start);
    }

    /**
     * The event loop over the buffer: returns the offset of the first
     * unconsumed byte (current_event_start); the buffer itself is not
     * changed, and the processor's fields end as `Drain` says.
     */
    method DrainEvents() returns (start: nat)
      requires Valid()
      modifies this`stop, this`finish, this`accError, this`calls
      ensures start <= bufferSize
      ensures Progress(buffer[start..bufferSize], stop, finish, accError, calls) == Drain(setup, old(State()))
    {
      start := 0;
      var idle := false;
      while !idle
        invariant start <= bufferSize
        invariant Drain(setup, Progress(buffer[start..bufferSize], stop, finish, accError, calls)) == Drain(setup, old(State()))
        invariant idle ==> Progress(buffer[start..bufferSize], stop, finish, accError, calls) == Drain(setup, old(State()))
        decreases bufferSize - start, !idle
      {
        start, idle := NextStep(start);
      }
    }

    /**
     * One turn of the event loop: stop when the stream is stopped or no
     * complete event is left, else handle the earliest event and step
     * past its separator.
     */
    method NextStep(start: nat) returns (next: nat, idle: bool)
      requires Valid() && start <= bufferSize
      modifies this`stop, this`finish, this`accError, this`calls
      ensures next <= bufferSize && (idle ==> next == start) && (!idle ==> start < next)
      ensures var before := old(Progress(buffer[start..bufferSize], stop, finish, accError, calls));
        var now := Progress(buffer[next..bufferSize], stop, finish, accError, calls);
        Drain(setup, now) == Drain(setup, before) && (idle ==> now == before && Drain(setup, before) == before)
    {
      next, idle := start, true;
      if stop {
        DrainIdle(setup, State().(pending := buffer[start..bufferSize]));
        return;
      }
      var found := NextEvent(buffer[start..bufferSize]);
      if found.None? {
        DrainIdle(setup, State().(pending := buffer[start..bufferSize]));
        return;
      }
      next := Consume(start, found.value.0, found.value.1);
      idle := false;
    }

    /** Handle the event of `len` bytes at `start` and step past its separator. */
    method Consume(start: nat, len: nat, sepLen: nat) returns (next: nat)
      requires Valid() && start <= bufferSize && !stop
      requires NextEvent(buffer[start..bufferSize]) == Some((len, sepLen))
      modifies this`stop, this`finish, this`accError, this`calls
      ensures start < next <= bufferSize
      ensures Drain(setup, Progress(buffer[next..bufferSize], stop, finish, accError, calls))
        == old(Drain(setup, Progress(buffer[start..bufferSize], stop, finish, accError, calls)))
    {
      var segment := buffer[start..start + len];
      ghost var before := Progress(buffer[start..bufferSize], stop, finish, accError, calls);
      assert before.pending[..len] == segment;
      next := start + len + sepLen;
      assert buffer[next..bufferSize] == before.pending[len + sepLen..];
      HandleEvent(segment);
      LoopStep(setup, before, len, sepLen, segment, Progress(buffer[next..bufferSize], stop, finish, accError, calls));
    }

    /** The per-event part of the loop body: scan the lines, then at most one callback. */
    method HandleEvent(segment: string)
      modifies this`stop, this`finish, this`accError, this`calls
      ensures Progress([], stop, finish, accError, calls) == EventOutcome(setup, Progress([], old(stop), old(finish), old(accError), old(calls)), segment)
    {
      var sc := ScanEvent(setup, StartScan(finish, accError), segment);
      finish, accError := sc.finish, sc.accError;
      if sc.token.Some? {
        calls := calls + [Call(sc.token, sc.final, None)];
        if setup.reply(calls) != 0 {
          stop := true;
        }
      } else if sc.final {
        calls := calls + [Call(None, true, sc.accError)];
        if setup.reply(calls) != 0 {
          stop := true;
        }
      }
      if sc.final {
        stop := true;
      }
    }

    /** Grow the buffer when needed, then copy the chunk in after the pending text. */
    method Append(chunk: string)
      requires Valid() && !stop
      modifies this, buffer
      ensures Valid() && (buffer == old(buffer) || fresh(buffer))
      ensures capacity == NewCapacity(old(capacity), old(bufferSize) + |chunk| + 1)
      ensures State() == old(State()).(pending := old(State()).pending + chunk)
    {
      Grow(bufferSize + |chunk| + 1);
      CopyIn(chunk);
    }

    /** Reallocate to NewCapacity when `needed` bytes do not fit, keeping the pending text. */
    method Grow(needed: nat)
      requires Valid() && needed > bufferSize
      modifies this`buffer, this`capacity
      ensures Valid() && (buffer == old(buffer) || fresh(buffer))
      ensures capacity == NewCapacity(old(capacity), needed) && needed <= capacity
      ensures buffer[..bufferSize] == old(buffer[..bufferSize])
    {
      if capacity < needed {
        var newCapacity := if needed > capacity * 2 then needed else capacity * 2;
        if newCapacity < 1024 {
          newCapacity := 1024;
        }
        var grown := new char[newCapacity];
        forall i | 0 <= i < bufferSize {
          grown[i] := buffer[i];
        }
        buffer := grown;
        capacity := newCapacity;
      }
    }

    /** Copy the chunk in after the pending text and terminate it. */
    method CopyIn(chunk: string)
      requires Valid() && bufferSize + |chunk| < capacity
      modifies this`bufferSize, buffer
      ensures Valid() && buffer[..bufferSize] == old(buffer[..bufferSize]) + chunk
    {
      forall i | 0 <= i < |chunk| {
        buffer[bufferSize + i] := chunk[i];
      }
      bufferSize := bufferSize + |chunk|;
      buffer[bufferSize] := '\0';
    }

    /** Move the unconsumed tail to the front of the buffer (the memmove). */
    method Compact(start: nat, remaining: nat)
      requires Valid() && start + remaining == bufferSize
      modifies this`bufferSize, buffer
      ensures Valid() && bufferSize == remaining
      ensures buffer[..bufferSize] == old(buffer[start..start + remaining])
    {
      if remaining > 0 && start < bufferSize {
        forall i | 0 <= i < remaining {
          buffer[i] := buffer[start + i];
        }
      }
      bufferSize := remaining;
      if bufferSize < capacity {
        buffer[bufferSize] := '\0';
      }
    }
  }

  /** The line loop of one event, over its text as strchr walks it. */
  method ScanEvent(setup: Setup, init: Scan, segment: string) returns (sc: Scan)
    requires NonEmptyToken(init.token) && !init.done
    ensures sc == ScanText(setup, init, segment)
  {
    sc := init;
    var line := segment;
    var last := false;
    while |line| > 0 && !last
      invariant !last ==> NonEmptyToken(sc.token) && !sc.done && ScanText(setup, sc, line) == ScanText(setup, init, segment)
      invariant last ==> sc == ScanText(setup, init, segment)
      decreases |line|, !last
    {
      sc, line, last := ScanOneLine(setup, sc, line);
    }
  }

  /** One turn of the line loop: scan the line up to the next LF, or the last line, or stop at [DONE]. */
  method ScanOneLine(setup: Setup, sc: Scan, text: string) returns (sc': Scan, rest: string, last: bool)
    requires NonEmptyToken(sc.token) && !sc.done && |text| > 0
    ensures |rest| < |text| || (last && rest == text)
    ensures last ==> sc' == ScanText(setup, sc, text)
    ensures !last ==> NonEmptyToken(sc'.token) && !sc'.done && ScanText(setup, sc', rest) == ScanText(setup, sc, text)
  {
    var next := IndexOf(text, '\n');
    if next.None? {
      return ScanLine(setup, sc, text), text, true;
    }
    var k := next.value;
    sc' := ScanLine(setup, sc, StripCR(text[..k]));
    rest := text[k + 1..];
    last := sc'.done;
  }
}
