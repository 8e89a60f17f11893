/**
 * The mock server's Anthropic event streams (tests/mock-server/main.py)
 * fed, one frame per write callback, to the detailed Anthropic parser of
 * src/dp_stream.c: every frame is one complete event, delivered whole and
 * in order.
 */
module MockStreamReplay {
  import opened Wrappers
  import opened Text
  import opened SseFraming
  import opened AnthropicStream
  import MockServer

  /** A fresh processor: nothing buffered, running, nothing captured or delivered. */
  const Start := Progress("", false, None, None, [])

  /** A callback that always asks to continue, as the test programs' handlers do. */
  ghost predicate Quiet(setup: Setup) {
    forall calls :: setup.reply(calls) == 0
  }

  /** The mock events that end a stream in the parser. */
  predicate Ending(e: MockServer.Event) {
    e.name == MockServer.MessageStopName || e.name == MockServer.ErrorName
  }

  /** The parser's event type for each name the mock streams use. */
  function KindOf(name: MockServer.EventName): EventKind {
    match name
    case MessageStartName => MessageStartEvent
    case ContentBlockStartName => ContentBlockStartEvent
    case ContentBlockDeltaName => ContentBlockDeltaEvent
    case PingName => PingEvent
    case MessageDeltaName => MessageDeltaEvent
    case MessageStopName => MessageStopEvent
    case ErrorName => ErrorEvent
  }

  /** Every mock event name is one the parser recognises, as the type of that name. */
  lemma NameClassifies(name: MockServer.EventName)
    ensures Classify(Some(name.Text())) == KindOf(name)
  {
    match name
    case MessageStartName =>
    case ContentBlockStartName =>
    case ContentBlockDeltaName =>
    case PingName =>
    case MessageDeltaName =>
    case MessageStopName =>
    case ErrorName =>
  }

  /** The event the parser hands on for a mock event: its name classified, its data as raw text. */
  function Delivered(e: MockServer.Event): (d: StreamEvent)
    ensures d == StreamEvent(KindOf(e.name), Some(e.data))
    ensures Ending(e) <==> d.kind == MessageStopEvent || d.kind == ErrorEvent
  {
    NameClassifies(e.name);
    StreamEvent(Classify(Some(e.name.Text())), Some(e.data))
  }

  function DeliveredAll(events: seq<MockServer.Event>): seq<StreamEvent> {
    seq(|events|, i requires 0 <= i < |events| => Delivered(events[i]))
  }

  /** Mock events whose names and data hold no line break and no NUL. */
  predicate PlainEvents(events: seq<MockServer.Event>) {
    forall i :: 0 <= i < |events| ==> Plain(events[i].name.Text()) && Plain(events[i].data)
  }

  /** The first LF of `a` + LF + `b` is the one after `a`. */
  lemma FirstLineBreak(a: string, b: string)
    requires '\n' !in a
    ensures IndexOf(a + "\n" + b, '\n') == Some(|a|)
  {
    assert (a + "\n" + b)[|a|] == '\n';
  }

  /** The text of a plain frame reads back as its name and its data. */
  lemma FrameParses(name: string, data: string)
    requires Plain(name) && Plain(data)
    ensures ParseEvent(EventText(name, data)) == StreamEvent(Classify(Some(name)), Some(data))
  {
    var text := EventText(name, data);
    var head := "event: " + name;
    var rest := "data: " + data;
    assert text == head + "\n" + rest;
    assert '\n' !in head by {
      forall i | 0 <= i < |head| ensures head[i] != '\n' {
        if i >= 7 { assert head[i] == name[i - 7]; }
      }
    }
    FirstLineBreak(head, rest);
    assert text[..|head|] == head && text[|head| + 1..] == rest;
    assert head[|head| - 1] != '\r' by {
      if |name| > 0 { assert head[|head| - 1] == name[|name| - 1]; }
    }
    assert StripCR(head) == head;
    var f := ReadLine(Fields(None, None), head);
    assert StartsWith(head, "event: ") && head[7..] == name;
    assert f == Fields(Some(name), None);
    assert '\n' !in rest by {
      forall i | 0 <= i < |rest| ensures rest[i] != '\n' {
        if i >= 6 { assert rest[i] == data[i - 6]; }
      }
    }
    assert IndexOf(rest, '\n').None?;
    assert !StartsWith(rest, "event: ") by { assert rest[0] == 'd'; }
    assert StartsWith(rest, "data: ") && rest[6..] == data;
    assert ReadLines(f, rest) == ReadLine(f, rest);
    assert ReadLines(Fields(None, None), text) == ReadLines(f, rest);
  }

  /** Writing one plain frame to an empty running processor handles exactly its event. */
  lemma FeedFrame(setup: Setup, st: Progress, e: MockServer.Event)
    requires !st.stop && st.pending == []
    requires Plain(e.name.Text()) && Plain(e.data)
    ensures Feed(setup, st, MockServer.Frame(e)) == EventOutcome(setup, st, EventText(e.name.Text(), e.data))
    ensures ParseEvent(EventText(e.name.Text(), e.data)) == Delivered(e)
  {
    var text := EventText(e.name.Text(), e.data);
    assert st.pending + MockServer.Frame(e) == text + LF;
    FrameIsOneEvent(e.name.Text(), e.data);
    var buffered := st.(pending := text + LF);
    DrainStep(setup, buffered, |text|, 2);
    assert buffered.pending[|text| + 2..] == [] && buffered.pending[..|text|] == text;
    assert buffered.(pending := []) == st;
    var after := EventOutcome(setup, st, text);
    assert NextEvent(after.pending).None?;
    DrainIdle(setup, after);
    FrameParses(e.name.Text(), e.data);
  }

  /**
   * Replaying a stream of plain frames, none but the last of which ends the
   * stream, to a quiet callback: each frame's event is delivered once and in
   * order, nothing stays buffered, the stream stops exactly when the last
   * event is message_stop or error, and only that event can capture a
   * finish reason.
   */
  lemma {:induction false} ReplayFrames(setup: Setup, events: seq<MockServer.Event>)
    requires Quiet(setup) && PlainEvents(events)
    requires forall i :: 0 <= i < |events| - 1 ==> !Ending(events[i])
    ensures var r := FeedAll(setup, Start, MockServer.Frames(events));
      && r.pending == [] && r.accError.None?
      && r.calls == DeliveredAll(events)
      && (r.stop <==> |events| > 0 && Ending(events[|events| - 1]))
      && (r.finish.Some? ==> |events| > 0 && Ending(events[|events| - 1]))
      && (|events| > 0 && Ending(events[|events| - 1]) ==> r.finish == StopReason(setup, None, Delivered(events[|events| - 1])))
    decreases |events|
  {
    if |events| > 0 {
      var n := |events|;
      var front := events[..n - 1];
      ReplayFrames(setup, front);
      var st := FeedAll(setup, Start, MockServer.Frames(front));
      assert !st.stop by {
        if n - 1 > 0 { assert front[n - 2] == events[n - 2]; }
      }
      SplitLast(setup, events);
      ReplayStep(setup, st, events[n - 1]);
    } else {
      assert DeliveredAll(events) == [];
    }
  }

  /** Replaying a stream is replaying all but its last frame, then that frame. */
  lemma SplitLast(setup: Setup, events: seq<MockServer.Event>)
    requires |events| > 0
    ensures var front := events[..|events| - 1];
      && FeedAll(setup, Start, MockServer.Frames(events))
        == Feed(setup, FeedAll(setup, Start, MockServer.Frames(front)), MockServer.Frame(events[|events| - 1]))
      && DeliveredAll(events) == DeliveredAll(front) + [Delivered(events[|events| - 1])]
  {
    var n := |events|;
    assert MockServer.Frames(events)[..n - 1] == MockServer.Frames(events[..n - 1]);
    assert DeliveredAll(events) == DeliveredAll(events[..n - 1]) + [Delivered(events[n - 1])];
  }

  /** One frame of the replay: its event is delivered, and only an ending event stops the stream. */
  lemma ReplayStep(setup: Setup, st: Progress, e: MockServer.Event)
    requires Quiet(setup) && !st.stop && st.pending == []
    requires Plain(e.name.Text()) && Plain(e.data)
    ensures var r := Feed(setup, st, MockServer.Frame(e));
      && r.pending == [] && r.accError == st.accError
      && r.calls == st.calls + [Delivered(e)]
      && (r.stop <==> Ending(e))
      && r.finish == (if Ending(e) then StopReason(setup, st.finish, Delivered(e)) else st.finish)
  {
    FeedFrame(setup, st, e);
  }

  /** Every character of the text lies outside CR, LF and NUL. */
  lemma PlainJoin(a: string, b: string)
    requires Plain(a) && Plain(b)
    ensures Plain(a + b)
  {
    forall i | 0 <= i < |a + b| ensures (a + b)[i] != '\n' && (a + b)[i] != '\r' && (a + b)[i] != '\0' {
      if i >= |a| { assert (a + b)[i] == b[i - |a|]; }
    }
  }

  /** The mock event names hold no line break and no NUL. */
  lemma NamePlain(name: MockServer.EventName)
    ensures Plain(name.Text())
  {
    match name
    case MessageStartName =>
    case ContentBlockStartName =>
    case ContentBlockDeltaName =>
    case PingName =>
    case MessageDeltaName =>
    case MessageStopName =>
    case ErrorName =>
  }

  lemma MessageStartPlain(model: string)
    requires Plain(model)
    ensures Plain(MockServer.MessageStart(model).data)
  {
    var p1 := "{\"message\":{\"id\":\"msg_01J1.1\",";
    var p2 := "\"type\":\"message\",\"role\":\"assistant\",";
    var p3 := "\"model\":\"";
    assert Plain(p1) && Plain(p2) && Plain(p3);
    PlainJoin(p1, p2);
    PlainJoin(p1 + p2, p3);
    PlainJoin(p1 + p2 + p3, model);
    MessageStartTail(p1 + p2 + p3 + model);
  }

  lemma MessageStartTail(head: string)
    requires Plain(head)
    ensures Plain(head + "\",\"stop_reason\":null," + "\"stop_sequence\":null,"
      + "\"usage\":{\"input_tokens\":10," + "\"output_tokens\":1}}}")
  {
    var p4 := "\",\"stop_reason\":null,";
    var p5 := "\"stop_sequence\":null,";
    var p6 := "\"usage\":{\"input_tokens\":10,";
    var p7 := "\"output_tokens\":1}}}";
    assert Plain(p4) && Plain(p5) && Plain(p6) && Plain(p7);
    PlainJoin(head, p4);
    PlainJoin(head + p4, p5);
    PlainJoin(head + p4 + p5, p6);
    PlainJoin(head + p4 + p5 + p6, p7);
  }

  lemma TextDeltaPlain(text: string)
    requires Plain(text)
    ensures Plain(MockServer.TextDelta(text).data)
  {
    var p1 := "{\"delta\":{\"type\":\"text_delta\",\"text\":\"";
    var p2 := "\"},\"index\":0}";
    assert Plain(p1) && Plain(p2);
    PlainJoin(p1, text);
    PlainJoin(p1 + text, p2);
  }

  lemma BlockStartPlain()
    ensures Plain(MockServer.BlockStart.data)
  {
    var p1 := "{\"content_block\":";
    var p2 := "{\"type\":\"text\",\"text\":\"\"},";
    var p3 := "\"index\":0}";
    assert Plain(p1) && Plain(p2) && Plain(p3);
    PlainJoin(p1, p2);
    PlainJoin(p1 + p2, p3);
  }

  lemma FinalDeltaPlain()
    ensures Plain(MockServer.FinalDelta.data)
  {
    var p1 := "{\"usage\":{\"output_tokens\":2},";
    var p2 := "\"stop_reason\":\"end_turn\",";
    var p3 := "\"stop_sequence\":null}";
    assert Plain(p1) && Plain(p2) && Plain(p3);
    PlainJoin(p1, p2);
    PlainJoin(p1 + p2, p3);
  }

  lemma StreamErrorPlain()
    ensures Plain(MockServer.StreamError.data)
  {
    var p1 := "{\"message\":";
    var p2 := "\"Simulated mid-stream error.\"}";
    assert Plain(p1) && Plain(p2);
    PlainJoin(p1, p2);
  }

  /** The frames of STREAM_PING_ANTHROPIC are plain. */
  lemma PingEventsPlain()
    ensures PlainEvents(MockServer.PingStreamEvents())
  {
    var events := MockServer.PingStreamEvents();
    assert Plain("claude-3-opus-20240229") && Plain("Hello") && Plain(" World!") && Plain("{}");
    MessageStartPlain("claude-3-opus-20240229");
    TextDeltaPlain("Hello");
    TextDeltaPlain(" World!");
    BlockStartPlain();
    FinalDeltaPlain();
    forall i | 0 <= i < 7 ensures Plain(events[i].name.Text()) && Plain(events[i].data) {
      NamePlain(events[i].name);
    }
  }

  /** The frames of STREAM_ERROR_ANTHROPIC are plain. */
  lemma ErrorEventsPlain()
    ensures PlainEvents(MockServer.ErrorStreamEvents())
  {
    var events := MockServer.ErrorStreamEvents();
    assert Plain("claude-3-haiku-20240307") && Plain("Partial");
    MessageStartPlain("claude-3-haiku-20240307");
    TextDeltaPlain("Partial");
    BlockStartPlain();
    StreamErrorPlain();
    forall i | 0 <= i < 4 ensures Plain(events[i].name.Text()) && Plain(events[i].data) {
      NamePlain(events[i].name);
    }
  }

  function Kinds(calls: seq<StreamEvent>): seq<EventKind> {
    seq(|calls|, i requires 0 <= i < |calls| => calls[i].kind)
  }

  /** The replayed events carry the types of the mock event names, in order. */
  lemma ReplayedKinds(events: seq<MockServer.Event>)
    ensures Kinds(DeliveredAll(events)) == seq(|events|, i requires 0 <= i < |events| => KindOf(events[i].name))
  {
  }

  lemma PingKinds()
    ensures var events := MockServer.PingStreamEvents();
      seq(|events|, i requires 0 <= i < |events| => KindOf(events[i].name))
        == [MessageStartEvent, ContentBlockStartEvent, ContentBlockDeltaEvent, PingEvent,
            ContentBlockDeltaEvent, MessageDeltaEvent, MessageStopEvent]
  {
  }

  /**
   * STREAM_PING_ANTHROPIC replayed to a quiet callback yields, in order,
   * message_start, content_block_start, a delta carrying "Hello", a ping
   * carrying "{}", a delta carrying " World!", message_delta and
   * message_stop; the stream then stops, and the finish reason is
   * "message_stop_event" exactly when "{}" parses.
   */
  lemma PingStreamDelivers(setup: Setup)
    requires Quiet(setup)
    ensures var r := FeedAll(setup, Start, MockServer.Frames(MockServer.PingStreamEvents()));
      && Kinds(r.calls)
        == [MessageStartEvent, ContentBlockStartEvent, ContentBlockDeltaEvent, PingEvent,
            ContentBlockDeltaEvent, MessageDeltaEvent, MessageStopEvent]
      && r.calls[2].raw == Some(MockServer.TextDelta("Hello").data)
      && r.calls[3].raw == Some("{}")
      && r.calls[4].raw == Some(MockServer.TextDelta(" World!").data)
      && r.stop && r.pending == []
      && (r.finish == Some("message_stop_event") <==> setup.parse("{}").Some?)
  {
    var events := MockServer.PingStreamEvents();
    PingEventsPlain();
    ReplayFrames(setup, events);
    ReplayedKinds(events);
    PingKinds();
  }

  lemma ErrorKinds()
    ensures var events := MockServer.ErrorStreamEvents();
      seq(|events|, i requires 0 <= i < |events| => KindOf(events[i].name))
        == [MessageStartEvent, ContentBlockStartEvent, ContentBlockDeltaEvent, ErrorEvent]
  {
  }

  /**
   * STREAM_ERROR_ANTHROPIC replayed to a quiet callback yields
   * message_start, content_block_start, a delta carrying "Partial" and an
   * error event, after which the stream is stopped; no message_stop is
   * ever delivered.
   */
  lemma ErrorStreamDelivers(setup: Setup)
    requires Quiet(setup)
    ensures var r := FeedAll(setup, Start, MockServer.Frames(MockServer.ErrorStreamEvents()));
      && Kinds(r.calls) == [MessageStartEvent, ContentBlockStartEvent, ContentBlockDeltaEvent, ErrorEvent]
      && r.calls[2].raw == Some(MockServer.TextDelta("Partial").data)
      && r.calls[3].raw == Some(MockServer.StreamError.data)
      && r.stop && r.pending == []
  {
    var events := MockServer.ErrorStreamEvents();
    ErrorEventsPlain();
    ReplayFrames(setup, events);
    ReplayedKinds(events);
    ErrorKinds();
  }
}
