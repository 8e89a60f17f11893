/**
 * The detailed Anthropic streaming parser of src/dp_stream.c
 * (anthropic_detailed_stream_write_callback): the same buffering and event
 * framing as the generic parser, but every complete event is handed to the
 * user whole, as its classified type and the raw text of its last `data: `
 * line. The functions below are the specification; `DetailedProcessor` is
 * the in-place implementation.
 */
module AnthropicStream {
  import opened Wrappers
  import opened Json
  import opened Text
  import opened SseFraming

  /** dp_anthropic_event_type_t. */
  datatype EventKind =
    | UnknownEvent
    | MessageStartEvent
    | ContentBlockStartEvent
    | PingEvent
    | ContentBlockDeltaEvent
    | ContentBlockStopEvent
    | MessageDeltaEvent
    | MessageStopEvent
    | ErrorEvent

  /** dp_anthropic_stream_event_t: the event's type and its raw JSON text, if any. */
  datatype StreamEvent = StreamEvent(kind: EventKind, raw: Option<string>)

  /**
   * The fixed parts of a detailed processor: cJSON_Parse, and the user
   * callback's return value as a function of all events delivered so far.
   */
  datatype Setup = Setup(parse: Parser, reply: seq<StreamEvent> -> int)

  /** The strcmp chain on the last `event: ` name; a missing or unlisted name is UNKNOWN. */
  function Classify(name: Option<string>): (k: EventKind)
    ensures name.None? ==> k == UnknownEvent
    ensures name == Some("message_stop") <==> k == MessageStopEvent
    ensures name == Some("error") <==> k == ErrorEvent
    ensures name == Some("ping") <==> k == PingEvent
  {
    if name.None? then UnknownEvent
    else
      var n := name.value;
      if n == "message_start" then MessageStartEvent
      else if n == "content_block_start" then ContentBlockStartEvent
      else if n == "ping" then PingEvent
      else if n == "content_block_delta" then ContentBlockDeltaEvent
      else if n == "content_block_stop" then ContentBlockStopEvent
      else if n == "message_delta" then MessageDeltaEvent
      else if n == "message_stop" then MessageStopEvent
      else if n == "error" then ErrorEvent
      else UnknownEvent
  }

  /** What the line loop keeps of one event: the last event name and the last data payload. */
  datatype Fields = Fields(name: Option<string>, data: Option<string>)

  /** One line: `event: ` replaces the name, `data: ` the payload, anything else is ignored. */
  function ReadLine(f: Fields, line: string): (r: Fields)
    ensures StartsWith(line, "event: ") ==> r == f.(name := Some(line[7..]))
    ensures !StartsWith(line, "event: ") && StartsWith(line, "data: ") ==> r == f.(data := Some(line[6..]))
    ensures !StartsWith(line, "event: ") && !StartsWith(line, "data: ") ==> r == f
  {
    if StartsWith(line, "event: ") then f.(name := Some(line[7..]))
    else if StartsWith(line, "data: ") then f.(data := Some(line[6..]))
    else f
  }

  /**
   * The line loop over one event's text: split at each LF, strip one CR
   * before it, and read every line up to the end of the text.
   */
  function ReadLines(f: Fields, text: string): Fields
    decreases |text|
  {
    if |text| == 0 then f
    else match IndexOf(text, '\n')
      case None => ReadLine(f, text)
      case Some(k) => ReadLines(ReadLine(f, StripCR(text[..k])), text[k + 1..])
  }

  /** An event name only comes from an `event: ` line of the text. */
  lemma {:induction false} NameFromEventLine(f: Fields, text: string)
    ensures var r := ReadLines(f, text);
      r.name.Some? ==> r.name == f.name || Contains(text, "event: ")
    decreases |text|
  {
    if |text| > 0 {
      match IndexOf(text, '\n')
      case None =>
        ContainsWithin(text, |text|, text, "event: ");
      case Some(k) =>
        var line := StripCR(text[..k]);
        ContainsWithin(text, k, line, "event: ");
        NameFromEventLine(ReadLine(f, line), text[k + 1..]);
        ContainsTail(text, k + 1, "event: ");
    }
  }

  /** An occurrence in the front part (up to `k`, possibly shortened) is one in the whole. */
  lemma ContainsWithin(text: string, k: nat, line: string, pat: string)
    requires k <= |text| && |line| <= k && line == text[..|line|]
    ensures StartsWith(line, pat) ==> Contains(text, pat)
  {
    if StartsWith(line, pat) {
      assert text[0..|pat|] == line[..|pat|];
      assert OccursAt(text, pat, 0);
    }
  }

  /** An occurrence in a tail is one in the whole. */
  lemma ContainsTail(text: string, k: nat, pat: string)
    requires k <= |text|
    ensures Contains(text[k..], pat) ==> Contains(text, pat)
  {
    if Contains(text[k..], pat) {
      var i :| 0 <= i <= |text[k..]| - |pat| && OccursAt(text[k..], pat, i);
      assert text[k..][i..i + |pat|] == text[k + i..k + i + |pat|];
      assert OccursAt(text, pat, k + i);
    }
  }

  /** The event a segment delivers: classified by its last name, carrying its last payload. */
  function ParseEvent(segment: string): (e: StreamEvent)
    ensures !Contains(segment, "event: ") ==> e.kind == UnknownEvent
  {
    var f := ReadLines(Fields(None, None), segment);
    NameFromEventLine(Fields(None, None), segment);
    StreamEvent(Classify(f.name), f.data)
  }

  /**
   * The finish reason a message_stop or error event captures when none was
   * captured yet and its payload parses: "message_stop_event" for
   * message_stop; for error, the string `error.type`, else "error_event",
   * and nothing when the payload has no `error` member.
   */
  function StopReason(setup: Setup, finish: Option<string>, e: StreamEvent): (r: Option<string>)
    requires e.kind == MessageStopEvent || e.kind == ErrorEvent
    ensures finish.Some? ==> r == finish
    ensures finish.None? && e.kind == MessageStopEvent ==>
      (r == Some("message_stop_event") <==> e.raw.Some? && setup.parse(e.raw.value).Some?)
    ensures r != finish ==> e.raw.Some? && setup.parse(e.raw.value).Some?
  {
    if finish.Some? || e.raw.None? then finish
    else match setup.parse(e.raw.value)
      case None => finish
      case Some(j) =>
        if e.kind == MessageStopEvent then Some("message_stop_event")
        else match Get(j, "error")
          case None => finish
          case Some(err) =>
            match GetString(err, "type")
            case Some(t) => Some(t)
            case None => Some("error_event")
  }

  /** The observable state of a processor: unconsumed text, stop flag, finish capture, events delivered. */
  datatype Progress = Progress(
    pending: string,
    stop: bool,
    finish: Option<string>,
    accError: Option<string>,
    calls: seq<StreamEvent>)

  /**
   * The effect of one complete event: message_stop and error capture a
   * finish reason and raise the stop flag, then the callback receives the
   * event, and a non-zero answer raises the stop flag too.
   */
  function EventOutcome(setup: Setup, st: Progress, segment: string): (r: Progress)
    ensures r.pending == st.pending && r.accError == st.accError
    ensures st.finish.Some? ==> r.finish == st.finish
    ensures |r.calls| == |st.calls| + 1 && r.calls[..|st.calls|] == st.calls
  {
    var e := ParseEvent(segment);
    var ending := e.kind == MessageStopEvent || e.kind == ErrorEvent;
    var finish := if ending then StopReason(setup, st.finish, e) else st.finish;
    var calls := st.calls + [e];
    st.(finish := finish, calls := calls, stop := st.stop || ending || setup.reply(calls) != 0)
  }

  /**
   * Each complete event is delivered exactly once, after the events before
   * it; message_stop and error always stop the stream, other events only
   * through the callback's answer, and only those two capture a finish
   * reason.
   */
  lemma OneCallPerEvent(setup: Setup, st: Progress, segment: string)
    ensures var r := EventOutcome(setup, st, segment);
      var e := ParseEvent(segment);
      && r.calls == st.calls + [e]
      && (r.stop <==> st.stop || e.kind == MessageStopEvent || e.kind == ErrorEvent || setup.reply(r.calls) != 0)
      && (r.finish != st.finish ==> e.kind == MessageStopEvent || e.kind == ErrorEvent)
  {
  }

  /** The event loop: handle complete events from the front until none is left or the stream stops. */
  function Drain(setup: Setup, st: Progress): (r: Progress)
    ensures r.stop || NextEvent(r.pending).None?
    ensures st.stop ==> r == st
    ensures st.finish.Some? ==> r.finish == st.finish
    ensures r.accError == st.accError
    ensures |st.calls| <= |r.calls| && r.calls[..|st.calls|] == st.calls
    decreases |st.pending|
  {
    if st.stop then st
    else match NextEvent(st.pending)
      case None => st
      case Some((len, sepLen)) =>
        var rest := st.pending[len + sepLen..];
        Drain(setup, EventOutcome(setup, st.(pending := rest), st.pending[..len]))
  }

  /** The event loop handles the earliest complete event first. */
  lemma DrainStep(setup: Setup, st: Progress, len: nat, sepLen: nat)
    requires !st.stop && NextEvent(st.pending) == Some((len, sepLen))
    ensures len + sepLen <= |st.pending|
    ensures Drain(setup, st) == Drain(setup, EventOutcome(setup, st.(pending := st.pending[len + sepLen..]), st.pending[..len]))
  {
  }

  /** With the stream stopped or no complete event buffered, the loop does nothing. */
  lemma DrainIdle(setup: Setup, st: Progress)
    requires st.stop || NextEvent(st.pending).None?
    ensures Drain(setup, st) == st
  {
  }

  /**
   * One turn of the event loop: handling the earliest event and keeping
   * the text behind it leaves the rest of the loop's work unchanged.
   */
  lemma LoopStep(setup: Setup, before: Progress, len: nat, sepLen: nat, segment: string, after: Progress)
    requires !before.stop && NextEvent(before.pending) == Some((len, sepLen))
    requires len + sepLen <= |before.pending| && segment == before.pending[..len]
    requires after == EventOutcome(setup, before.(pending := []), segment).(pending := before.pending[len + sepLen..])
    ensures Drain(setup, after) == Drain(setup, before)
  {
    var rest := before.pending[len + sepLen..];
    assert before.(pending := rest).(pending := []) == before.(pending := []);
  }

  /** One write callback: ignored once stopped, else append and drain. */
  function Feed(setup: Setup, st: Progress, chunk: string): (r: Progress)
    ensures r.stop || NextEvent(r.pending).None?
    ensures st.stop ==> r == st
  {
    if st.stop then st else Drain(setup, st.(pending := st.pending + chunk))
  }

  /** The write callbacks of a whole transfer, one per chunk, in order. */
  function FeedAll(setup: Setup, st: Progress, chunks: seq<string>): Progress
    decreases |chunks|
  {
    if |chunks| == 0 then st else Feed(setup, FeedAll(setup, st, chunks[..|chunks| - 1]), chunks[|chunks| - 1])
  }

  /**
   * A message_stop or error event always ends the stream, whatever the
   * callback answers: a loop that ends with the stream running delivered
   * neither.
   */
  lemma {:induction false} EndingEventStops(setup: Setup, st: Progress)
    ensures var r := Drain(setup, st);
      !r.stop ==> forall i :: |st.calls| <= i < |r.calls| ==> r.calls[i].kind != MessageStopEvent && r.calls[i].kind != ErrorEvent
    decreases |st.pending|
  {
    if st.stop || NextEvent(st.pending).None? {
      DrainIdle(setup, st);
    } else {
      var len, sepLen := NextEvent(st.pending).value.0, NextEvent(st.pending).value.1;
      DrainStep(setup, st, len, sepLen);
      var rest := st.pending[len + sepLen..];
      var st1 := EventOutcome(setup, st.(pending := rest), st.pending[..len]);
      OneCallPerEvent(setup, st.(pending := rest), st.pending[..len]);
      EndingEventStops(setup, st1);
      var r := Drain(setup, st1);
      if !r.stop {
        forall i | |st.calls| <= i < |r.calls|
          ensures r.calls[i].kind != MessageStopEvent && r.calls[i].kind != ErrorEvent
        {
          if i == |st.calls| {
            assert r.calls[i] == r.calls[..|st1.calls|][i] == st1.calls[i];
          }
        }
      }
    }
  }

  /** The detailed processor (anthropic_stream_processor_t) and its write callback. */
  class DetailedProcessor {
    const setup: Setup
    var buffer: array<char>
    var capacity: nat
    var bufferSize: nat
    var stop: bool
    var finish: Option<string>
    var accError: Option<string>
    var calls: seq<StreamEvent>

    ghost predicate Valid()
      reads this
    {
      capacity == buffer.Length && bufferSize < capacity
    }

    ghost function State(): Progress
      reads this, buffer
      requires Valid()
    {
      Progress(buffer[..bufferSize], stop, finish, accError, calls)
    }

    /** The processor as dp_perform_anthropic_streaming_completion sets it up. */
    constructor (setup: Setup)
      ensures Valid() && this.setup == setup && capacity == InitialCapacity && fresh(buffer)
      ensures State() == Progress("", false, None, None, [])
    {
      this.setup := setup;
      buffer := new char[InitialCapacity];
      capacity := InitialCapacity;
      bufferSize := 0;
      stop := false;
      finish := None;
      accError := None;
      calls := [];
      new;
      buffer[0] := '\0';
    }

    /**
     * anthropic_detailed_stream_write_callback: always reports the whole
     * chunk consumed; the new state is the specification's `Feed`, and the
     * capacity grows by `NewCapacity` only when the stream was still running.
     */
    method Write(chunk: string) returns (consumed: nat)
      requires Valid()
      modifies this, buffer
      ensures Valid() && consumed == |chunk| && (buffer == old(buffer) || fresh(buffer))
      ensures capacity == if old(stop) then old(capacity) else NewCapacity(old(capacity), old(bufferSize) + |chunk| + 1)
      ensures State() == Feed(setup, old(State()), chunk)
    {
      consumed := |chunk|;
      if stop {
        return;
      }
      Append(chunk);
      DrainAndCompact();
    }

    /** Handle every complete buffered event, then move the unconsumed tail to the front. */
    method DrainAndCompact()
      requires Valid()
      modifies this`stop, this`finish, this`calls, this`bufferSize, buffer
      ensures Valid() && capacity == old(capacity)
      ensures State() == Drain(setup, old(State()))
    {
      var start := DrainEvents();
      Compact(start, bufferSize - start);
    }

    /**
     * The event loop over the buffer: returns the offset of the first
     * unconsumed byte (current_event_start); the buffer itself is not
     * changed, and the processor's fields end as `Drain` says.
     */
    method DrainEvents() returns (start: nat)
      requires Valid()
      modifies this`stop, this`finish, this`calls
      ensures start <= bufferSize
      ensures Progress(buffer[start..bufferSize], stop, finish, accError, calls) == Drain(setup, old(State()))
    {
      start := 0;
      var idle := false;
      while !idle
        invariant start <= bufferSize
        invariant Drain(setup, Progress(buffer[start..bufferSize], stop, finish, accError, calls)) == Drain(setup, old(State()))
        invariant idle ==> Progress(buffer[start..bufferSize], stop, finish, accError, calls) == Drain(setup, old(State()))
        decreases bufferSize - start, !idle
      {
        start, idle := NextStep(start);
      }
    }

    /**
     * One turn of the event loop: stop when the stream is stopped or no
     * complete event is left, else handle the earliest event and step past
     * its separator.
     */
    method NextStep(start: nat) returns (next: nat, idle: bool)
      requires Valid() && start <= bufferSize
      modifies this`stop, this`finish, this`calls
      ensures next <= bufferSize && (idle ==> next == start) && (!idle ==> start < next)
      ensures var before := old(Progress(buffer[start..bufferSize], stop, finish, accError, calls));
        var now := Progress(buffer[next..bufferSize], stop, finish, accError, calls);
        Drain(setup, now) == Drain(setup, before) && (idle ==> now == before && Drain(setup, before) == before)
    {
      next, idle := start, true;
      if stop {
        DrainIdle(setup, State().(pending := buffer[start..bufferSize]));
        return;
      }
      var found := NextEvent(buffer[start..bufferSize]);
      if found.None? {
        DrainIdle(setup, State().(pending := buffer[start..bufferSize]));
        return;
      }
      next := Consume(start, found.value.0, found.value.1);
      idle := false;
    }

    /** Handle the event of `len` bytes at `start` and step past its separator. */
    method Consume(start: nat, len: nat, sepLen: nat) returns (next: nat)
      requires Valid() && start <= bufferSize && !stop
      requires NextEvent(buffer[start..bufferSize]) == Some((len, sepLen))
      modifies this`stop, this`finish, this`calls
      ensures start < next <= bufferSize
      ensures Drain(setup, Progress(buffer[next..bufferSize], stop, finish, accError, calls))
        == old(Drain(setup, Progress(buffer[start..bufferSize], stop, finish, accError, calls)))
    {
      var segment := buffer[start..start + len];
      ghost var before := Progress(buffer[start..bufferSize], stop, finish, accError, calls);
      assert before.pending[..len] == segment;
      next := start + len + sepLen;
      assert buffer[next..bufferSize] == before.pending[len + sepLen..];
      HandleEvent(segment);
      LoopStep(setup, before, len, sepLen, segment, Progress(buffer[next..bufferSize], stop, finish, accError, calls));
    }

    /** The per-event part of the loop body: read the lines, classify, capture, call back. */
    method HandleEvent(segment: string)
      modifies this`stop, this`finish, this`calls
      ensures Progress([], stop, finish, accError, calls) == EventOutcome(setup, Progress([], old(stop), old(finish), accError, old(calls)), segment)
    {
      var fields := ReadEventLines(segment);
      var event := StreamEvent(Classify(fields.name), fields.data);
      if event.kind == MessageStopEvent || event.kind == ErrorEvent {
        finish := StopReason(setup, finish, event);
        stop := true;
      }
      calls := calls + [event];
      if setup.reply(calls) != 0 {
        stop := true;
      }
    }

    /** Grow the buffer when needed, then copy the chunk in after the pending text. */
    method Append(chunk: string)
      requires Valid() && !stop
      modifies this, buffer
      ensures Valid() && (buffer == old(buffer) || fresh(buffer))
      ensures capacity == NewCapacity(old(capacity), old(bufferSize) + |chunk| + 1)
      ensures State() == old(State()).(pending := old(State()).pending + chunk)
    {
      Grow(bufferSize + |chunk| + 1);
      CopyIn(chunk);
    }

    /** Reallocate to NewCapacity when `needed` bytes do not fit, keeping the pending text. */
    method Grow(needed: nat)
      requires Valid() && needed > bufferSize
      modifies this`buffer, this`capacity
      ensures Valid() && (buffer == old(buffer) || fresh(buffer))
      ensures capacity == NewCapacity(old(capacity), needed) && needed <= capacity
      ensures buffer[..bufferSize] == old(buffer[..bufferSize])
    {
      if capacity < needed {
        var newCapacity := if needed > capacity * 2 then needed else capacity * 2;
        if newCapacity < 1024 {
          newCapacity := 1024;
        }
        var grown := new char[newCapacity];
        forall i | 0 <= i < bufferSize {
          grown[i] := buffer[i];
        }
        buffer := grown;
        capacity := newCapacity;
      }
    }

    /** Copy the chunk in after the pending text and terminate it. */
    method CopyIn(chunk: string)
      requires Valid() && bufferSize + |chunk| < capacity
      modifies this`bufferSize, buffer
      ensures Valid() && buffer[..bufferSize] == old(buffer[..bufferSize]) + chunk
    {
      forall i | 0 <= i < |chunk| {
        buffer[bufferSize + i] := chunk[i];
      }
      bufferSize := bufferSize + |chunk|;
      buffer[bufferSize] := '\0';
    }

    /** Move the unconsumed tail to the front of the buffer (the memmove). */
    method Compact(start: nat, remaining: nat)
      requires Valid() && start + remaining == bufferSize
      modifies this`bufferSize, buffer
      ensures Valid() && bufferSize == remaining
      ensures buffer[..bufferSize] == old(buffer[start..start + remaining])
    {
      if remaining > 0 && start < bufferSize {
        forall i | 0 <= i < remaining {
          buffer[i] := buffer[start + i];
        }
      }
      bufferSize := remaining;
      if bufferSize < capacity {
        buffer[bufferSize] := '\0';
      }
    }
  }

  /** The line loop of one event, over its text as strchr walks it. */
  method ReadEventLines(segment: string) returns (f: Fields)
    ensures f == ReadLines(Fields(None, None), segment)
  {
    f := Fields(None, None);
    var line := segment;
    var last := false;
    while |line| > 0 && !last
      invariant !last ==> ReadLines(f, line) == ReadLines(Fields(None, None), segment)
      invariant last ==> f == ReadLines(Fields(None, None), segment)
      decreases |line|, !last
    {
      f, line, last := ReadOneLine(f, line);
    }
  }

  /** One turn of the line loop: read the line up to the next LF, or the last line. */
  method ReadOneLine(f: Fields, text: string) returns (f': Fields, rest: string, last: bool)
    requires |text| > 0
    ensures |rest| < |text| || (last && rest == text)
    ensures last ==> f' == ReadLines(f, text)
    ensures !last ==> ReadLines(f', rest) == ReadLines(f, text)
  {
    var next := IndexOf(text, '\n');
    if next.None? {
      return ReadLine(f, text), text, true;
    }
    var k := next.value;
    f', rest, last := ReadLine(f, StripCR(text[..k])), text[k + 1..], false;
  }
}
