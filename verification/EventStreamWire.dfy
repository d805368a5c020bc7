/**
 * The wire between server and browser: events printed as server-sent-event frames, and the
 * incremental reader that recovers them from whatever chunks the network delivers.
 * The frame format is that of the WHATWG HTML Standard, section 9.2 ("Server-sent events").
 */
module EventStreamWire {
  import opened AgentModels
  import opened Numerals
  import opened Outcomes

  // ---- line ends, blank lines ----

  /** Length of the line end that stands at `i`: a line feed, with or without a carriage return; 0 for none. */
  function LineEndAt(s: string, i: nat): nat {
    if i < |s| && s[i] == '\n' then 1
    else if i + 1 < |s| && s[i] == '\r' && s[i + 1] == '\n' then 2
    else 0
  }

  /** Length of the two line ends in a row that stand at `i`, or 0. */
  function BlankLineAt(s: string, i: nat): nat {
    var a := LineEndAt(s, i);
    if a == 0 then 0
    else
      var b := LineEndAt(s, i + a);
      if b == 0 then 0 else a + b
  }

  function FirstBlankLine(s: string, from: nat): (r: Option<nat>)
    requires from <= |s|
    ensures r.Some? ==> from <= r.value < |s| && BlankLineAt(s, r.value) > 0
    ensures r.Some? ==> forall i | from <= i < r.value :: BlankLineAt(s, i) == 0
    ensures r.None? ==> forall i | from <= i < |s| :: BlankLineAt(s, i) == 0
    decreases |s| - from
  {
    if from == |s| then None
    else if BlankLineAt(s, from) > 0 then Some(from)
    else FirstBlankLine(s, from + 1)
  }

  /** A text cut at every blank line: the complete frames, and apart from them the unfinished rest. */
  function Frames(s: string): (seq<string>, string)
    decreases |s|
  {
    var cut := FirstBlankLine(s, 0);
    if cut.None? then ([], s)
    else
      var more := Frames(s[cut.value + BlankLineAt(s, cut.value)..]);
      ([s[..cut.value]] + more.0, more.1)
  }

  function FirstLineEnd(s: string, from: nat): (r: Option<nat>)
    requires from <= |s|
    ensures r.Some? ==> from <= r.value < |s| && LineEndAt(s, r.value) > 0
    ensures r.Some? ==> forall i | from <= i < r.value :: LineEndAt(s, i) == 0
    ensures r.None? ==> forall i | from <= i < |s| :: LineEndAt(s, i) == 0
    decreases |s| - from
  {
    if from == |s| then None
    else if LineEndAt(s, from) > 0 then Some(from)
    else FirstLineEnd(s, from + 1)
  }

  /** The lines of a frame. */
  function Lines(s: string): seq<string>
    decreases |s|
  {
    var cut := FirstLineEnd(s, 0);
    if cut.None? then [s] else [s[..cut.value]] + Lines(s[cut.value + LineEndAt(s, cut.value)..])
  }

  // ---- framing does not depend on the chunks ----

  /** A blank line that is complete stays the first one when more text arrives. */
  lemma FirstBlankLineIsFinal(a: string, b: string)
    requires FirstBlankLine(a, 0).Some?
    ensures FirstBlankLine(a + b, 0) == FirstBlankLine(a, 0)
    ensures var i := FirstBlankLine(a, 0).value;
            BlankLineAt(a + b, i) == BlankLineAt(a, i) && i + BlankLineAt(a, i) <= |a|
  {
    var i := FirstBlankLine(a, 0).value;
    assert forall k | 0 <= k < |a| :: (a + b)[k] == a[k];
    assert BlankLineAt(a + b, i) == BlankLineAt(a, i);
    forall j | 0 <= j < i ensures BlankLineAt(a + b, j) == 0 {
      assert BlankLineAt(a, j) == 0;
    }
  }

  function AfterBlank(s: string, i: nat): string
    requires i + BlankLineAt(s, i) <= |s|
  {
    s[i + BlankLineAt(s, i)..]
  }

  lemma FramesUnfold(s: string)
    ensures match FirstBlankLine(s, 0)
            case None => Frames(s) == ([], s)
            case Some(i) =>
              i + BlankLineAt(s, i) <= |s|
              && Frames(s).0 == [s[..i]] + Frames(AfterBlank(s, i)).0 && Frames(s).1 == Frames(AfterBlank(s, i)).1
  {
  }

  /** Splitting a prefix, then the rest of it together with what follows, splits the whole. */
  lemma {:induction false} FramesResume(a: string, b: string)
    ensures Frames(a + b).0 == Frames(a).0 + Frames(Frames(a).1 + b).0
    ensures Frames(a + b).1 == Frames(Frames(a).1 + b).1
    decreases |a|
  {
    hide Frames;
    FramesUnfold(a);
    var cut := FirstBlankLine(a, 0);
    if cut.Some? {
      var i := cut.value;
      FirstBlankLineIsFinal(a, b);
      FramesUnfold(a + b);
      assert AfterBlank(a + b, i) == AfterBlank(a, i) + b;
      assert (a + b)[..i] == a[..i];
      FramesResume(AfterBlank(a, i), b);
      Regroup([a[..i]], Frames(AfterBlank(a, i)).0, Frames(Frames(a).1 + b).0);
    }
  }

  lemma Regroup(a: seq<string>, b: seq<string>, c: seq<string>)
    ensures a + (b + c) == (a + b) + c
    ensures [] + c == c
  {
  }

  // ---- one frame ----

  predicate IsJsSpace(c: char) {
    || '\t' <= c <= '\r' || c == ' ' || c == '\U{a0}' || c == '\U{feff}' || c == '\U{1680}'
    || '\U{2000}' <= c <= '\U{200a}' || c == '\U{2028}' || c == '\U{2029}' || c == '\U{202f}'
    || c == '\U{205f}' || c == '\U{3000}'
  }

  function TrimStart(s: string): string {
    if s != [] && IsJsSpace(s[0]) then TrimStart(s[1..]) else s
  }

  const DATA: string := "data:"

  /** The `data:` lines of a frame, each trimmed on the left, joined by line feeds. */
  function DataOf(lines: seq<string>): seq<string> {
    if lines == [] then []
    else (if DATA <= lines[0] then [TrimStart(lines[0][5..])] else []) + DataOf(lines[1..])
  }

  function Join(parts: seq<string>): string {
    if parts == [] then "" else if |parts| == 1 then parts[0] else parts[0] + "\n" + Join(parts[1..])
  }

  datatype ReadError = MalformedEvent | MultipleTerminal | NoClosingEvent

  datatype Reader = Reader(
    delivered: seq<AgentEvent>,
    terminal: Option<AgentResponse>,
    waiting: Option<AgentEvent>,
    error: Option<ReadError>)

  datatype Closing = Response(response: AgentResponse) | AwaitInput(event: AgentEvent)

  datatype ReadResult = ReadResult(delivered: seq<AgentEvent>, closing: Outcome<Closing, ReadError>)

  const FRESH: Reader := Reader([], None, None, None)

  /** An event is handed to the consumer first and only then checked against an earlier terminal one. */
  function Deliver(r: Reader, e: AgentEvent): Reader {
    Reader(
      r.delivered + [e],
      if e.response.Some? && r.terminal.None? then e.response else r.terminal,
      if e.data.RunWaiting? then Some(e) else r.waiting,
      if e.response.Some? && r.terminal.Some? then Some(MultipleTerminal) else None)
  }

  /** Source: `consumeFrame`. `decode` is JSON parsing followed by the event schema check. */
  function ConsumeFrame(r: Reader, frame: string, decode: string -> Option<AgentEvent>): Reader {
    var data := Join(DataOf(Lines(frame)));
    if r.error.Some? || data == "" then r
    else if decode(data).None? then r.(error := Some(MalformedEvent))
    else Deliver(r, decode(data).value)
  }

  function ConsumeAll(r: Reader, frames: seq<string>, decode: string -> Option<AgentEvent>): Reader
    decreases |frames|
  {
    if frames == [] then r else ConsumeAll(ConsumeFrame(r, frames[0], decode), frames[1..], decode)
  }

  function Close(r: Reader): ReadResult {
    ReadResult(r.delivered,
      if r.error.Some? then Raised(r.error.value)
      else if r.terminal.Some? then Returned(Response(r.terminal.value))
      else if r.waiting.Some? then Returned(AwaitInput(r.waiting.value))
      else Raised(NoClosingEvent))
  }

  /** The reader's answer on a whole text, split once. */
  function ReadText(text: string, decode: string -> Option<AgentEvent>): ReadResult {
    var (frames, rest) := Frames(text);
    var r := ConsumeAll(FRESH, frames, decode);
    Close(if TrimStart(rest) != "" then ConsumeFrame(r, rest, decode) else r)
  }

  function Flatten(chunks: seq<string>): string {
    if chunks == [] then "" else Flatten(chunks[..|chunks| - 1]) + chunks[|chunks| - 1]
  }

  lemma {:induction false} ConsumeMore(r: Reader, a: seq<string>, b: seq<string>, decode: string -> Option<AgentEvent>)
    ensures ConsumeAll(r, a + b, decode) == ConsumeAll(ConsumeAll(r, a, decode), b, decode)
    decreases |a|
  {
    if a == [] {
      assert a + b == b;
    } else {
      assert (a + b)[1..] == a[1..] + b;
      ConsumeMore(ConsumeFrame(r, a[0], decode), a[1..], b, decode);
    }
  }

  /** Source: the reading loop. Whatever the chunks, it answers as if the whole text came at once. */
  method ReadAgentEventStream(chunks: seq<string>, decode: string -> Option<AgentEvent>) returns (result: ReadResult)
    ensures result == ReadText(Flatten(chunks), decode)
  {
    var buffer := "";
    var r := FRESH;
    ghost var seen: seq<string> := [];
    for n := 0 to |chunks|
      invariant Frames(Flatten(chunks[..n])) == (seen, buffer)
      invariant r == ConsumeAll(FRESH, seen, decode)
    {
      assert chunks[..n + 1][..n] == chunks[..n];
      FramesResume(Flatten(chunks[..n]), chunks[n]);
      buffer := buffer + chunks[n];
      var (frames, rest) := Frames(buffer);
      buffer := rest;
      ConsumeMore(FRESH, seen, frames, decode);
      var k := 0;
      while k < |frames|
        invariant 0 <= k <= |frames|
        invariant ConsumeAll(r, frames[k..], decode) == ConsumeAll(FRESH, seen + frames, decode)
      {
        r := ConsumeFrame(r, frames[k], decode);
        assert frames[k..][1..] == frames[k + 1..];
        k := k + 1;
      }
      seen := seen + frames;
    }
    assert chunks[..|chunks|] == chunks;
    if TrimStart(buffer) != "" {
      r := ConsumeFrame(r, buffer, decode);
    }
    return Close(r);
  }

  // ---- printing ----

  predicate IsLine(s: string) {
    s != [] && forall i | 0 <= i < |s| :: s[i] != '\n' && s[i] != '\r'
  }

  function TypeName(d: EventData): (s: string)
    ensures IsLine(s)
  {
    match d
    case RunStarted => "run_started"
    case RunWaiting(_) => "run_waiting"
    case RunResumed(_) => "run_resumed"
    case RunCompleted => "run_completed"
    case RunFailed(_) => "run_failed"
    case _ => WorkTypeName(d)
  }

  function WorkTypeName(d: EventData): (s: string)
    ensures IsLine(s)
  {
    match d
    case ContextResolved => "context_resolved"
    case PlanUpdated(_) => "plan_updated"
    case StepStarted(_, _) => "step_started"
    case AnswerSynthesizing(_) => "answer_synthesizing"
    case _ => ToolTypeName(d)
  }

  function ToolTypeName(d: EventData): (s: string)
    ensures IsLine(s)
  {
    match d
    case ToolStarted(_, _, _) => "tool_started"
    case ToolCompleted(_, _, _, _, _) => "tool_completed"
    case ObservationRecorded(_, _, _, _, _) => "observation_recorded"
    case _ => "progress"
  }

  function Frame(e: AgentEvent, encode: AgentEvent -> string): string {
    "id: " + Decimal(e.sequence) + "\n" + ("event: " + TypeName(e.data) + "\n" + ("data: " + encode(e)))
  }

  /** Source: `_sse_response`. */
  function Print(events: seq<AgentEvent>, encode: AgentEvent -> string): string {
    if events == [] then "" else Frame(events[0], encode) + "\n\n" + Print(events[1..], encode)
  }

  /**
   * What is asked of the JSON codec: an object's text has no raw line break (RFC 8259, section 7),
   * does not start with white space, and decodes to the object it encodes.
   */
  ghost predicate Codec(encode: AgentEvent -> string, decode: string -> Option<AgentEvent>) {
    forall e :: ValidEvent(e) ==>
      IsLine(encode(e)) && !IsJsSpace(encode(e)[0]) && decode(encode(e)) == Some(e)
  }

  function DeliverAll(r: Reader, events: seq<AgentEvent>): Reader
    decreases |events|
  {
    if events == [] || r.error.Some? then r else DeliverAll(Deliver(r, events[0]), events[1..])
  }

  lemma LinesOfLine(x: string)
    requires IsLine(x)
    ensures Lines(x) == [x]
  {
  }

  lemma LinesCut(x: string, y: string)
    requires IsLine(x)
    ensures Lines(x + "\n" + y) == [x] + Lines(y)
  {
    var s := x + "\n" + y;
    assert forall i | 0 <= i < |x| :: s[i] == x[i];
    assert s[|x|] == '\n' && s[|x| + 1..] == y && s[..|x|] == x;
    assert LineEndAt(s, |x|) == 1;
  }

  /** Text of lines joined by single line feeds, followed by a blank line, is one frame. */
  lemma FrameCut(body: string, tail: string)
    requires body != [] && body[|body| - 1] != '\n' && body[|body| - 1] != '\r'
    requires forall i | 0 <= i < |body| :: BlankLineAt(body, i) == 0
    ensures Frames(body + "\n\n" + tail) == ([body] + Frames(tail).0, Frames(tail).1)
  {
    var s := body + "\n\n" + tail;
    assert forall i | 0 <= i < |body| :: s[i] == body[i];
    assert s[|body|] == '\n' && s[|body| + 1] == '\n';
    forall i | 0 <= i < |body| ensures BlankLineAt(s, i) == 0 {
      assert BlankLineAt(body, i) == 0;
    }
    assert BlankLineAt(s, |body|) == 2;
    assert s[..|body|] == body && s[|body| + 2..] == tail;
  }

  lemma FrameShape(e: AgentEvent, encode: AgentEvent -> string)
    requires IsLine(encode(e))
    ensures var body := Frame(e, encode);
            && body != [] && body[|body| - 1] != '\n' && body[|body| - 1] != '\r'
            && (forall i | 0 <= i < |body| :: BlankLineAt(body, i) == 0)
            && Lines(body) == ["id: " + Decimal(e.sequence), "event: " + TypeName(e.data), "data: " + encode(e)]
  {
    hide Lines, TypeName, BlankLineAt;
    var a, b, c := "id: " + Decimal(e.sequence), "event: " + TypeName(e.data), "data: " + encode(e);
    assert IsLine(a) && IsLine(b) && IsLine(c);
    LinesCut(a, b + "\n" + c);
    LinesCut(b, c);
    LinesOfLine(c);
    JoinedLinesHaveNoBlank(a, b, c);
    assert Frame(e, encode) == a + "\n" + (b + "\n" + c);
  }

  lemma JoinedLinesHaveNoBlank(a: string, b: string, c: string)
    requires IsLine(a) && IsLine(b) && IsLine(c)
    ensures var body := a + "\n" + (b + "\n" + c);
            && body[|body| - 1] == c[|c| - 1]
            && forall i | 0 <= i < |body| :: BlankLineAt(body, i) == 0
  {
    var body := a + "\n" + (b + "\n" + c);
    var p, q := |a|, |a| + 1 + |b|;
    forall i | 0 <= i < |body| && i != p && i != q ensures body[i] != '\n' && body[i] != '\r' {
      assert i < p ==> body[i] == a[i];
      assert p < i < q ==> body[i] == b[i - p - 1];
      assert q < i ==> body[i] == c[i - q - 1];
    }
    assert body[p] == '\n' && body[q] == '\n';
  }

  lemma DataOfThree(a: string, b: string, c: string, json: string)
    requires !(DATA <= a) && !(DATA <= b) && c == "data: " + json
    requires json != [] && !IsJsSpace(json[0])
    ensures DataOf([a, b, c]) == [json]
  {
    assert DATA <= c && c[5..] == " " + json;
    assert c[5..][1..] == json;
    assert TrimStart(c[5..]) == TrimStart(json);
    assert [a, b, c][1..] == [b, c] && [b, c][1..] == [c];
    assert DataOf([c]) == [json];
  }

  lemma FrameCarriesData(e: AgentEvent, encode: AgentEvent -> string)
    requires IsLine(encode(e)) && !IsJsSpace(encode(e)[0])
    ensures Join(DataOf(Lines(Frame(e, encode)))) == encode(e)
  {
    FrameShape(e, encode);
    var a, b, c := "id: " + Decimal(e.sequence), "event: " + TypeName(e.data), "data: " + encode(e);
    assert a[0] == 'i' && b[0] == 'e' && DATA[0] == 'd';
    DataOfThree(a, b, c, encode(e));
  }

  lemma {:induction false} PrintedFrames(
      r: Reader, events: seq<AgentEvent>, encode: AgentEvent -> string, decode: string -> Option<AgentEvent>)
    requires Codec(encode, decode) && forall e | e in events :: ValidEvent(e)
    ensures Frames(Print(events, encode)).1 == ""
    ensures ConsumeAll(r, Frames(Print(events, encode)).0, decode) == DeliverAll(r, events)
    decreases |events|
  {
    if events != [] {
      var e, tail := events[0], Print(events[1..], encode);
      assert e in events;
      FrameShape(e, encode);
      FrameCarriesData(e, encode);
      FrameCut(Frame(e, encode), tail);
      var frames := Frames(Print(events, encode)).0;
      assert frames[0] == Frame(e, encode) && frames[1..] == Frames(tail).0;
      PrintedFrames(ConsumeFrame(r, frames[0], decode), events[1..], encode, decode);
      if r.error.Some? {
        NothingAfterError(r, events[1..]);
      }
    }
  }

  lemma NothingAfterError(r: Reader, events: seq<AgentEvent>)
    requires r.error.Some?
    ensures DeliverAll(r, events) == r
  {
  }

  /**
   * The round trip: however the printed events are cut into chunks, reading them back does
   * exactly what handing over the events one by one would do.
   */
  lemma PrintThenRead(
      events: seq<AgentEvent>, chunks: seq<string>, encode: AgentEvent -> string, decode: string -> Option<AgentEvent>)
    requires Codec(encode, decode) && forall e | e in events :: ValidEvent(e)
    requires Flatten(chunks) == Print(events, encode)
    ensures ReadText(Flatten(chunks), decode) == Close(DeliverAll(FRESH, events))
  {
    PrintedFrames(FRESH, events, encode, decode);
  }

  // ---- what one leg of a run delivers ----

  lemma {:induction false} QuietDelivery(r: Reader, events: seq<AgentEvent>)
    requires r.error.None? && forall e | e in events :: e.response.None? && !e.data.RunWaiting?
    ensures DeliverAll(r, events) == r.(delivered := r.delivered + events)
    decreases |events|
  {
    if events == [] {
      assert r.delivered + events == r.delivered;
    } else {
      assert forall e | e in events[1..] :: e in events;
      assert events[0] in events;
      QuietDelivery(Deliver(r, events[0]), events[1..]);
      assert r.delivered + [events[0]] + events[1..] == r.delivered + events;
    }
  }

  lemma {:induction false} DeliverMore(r: Reader, a: seq<AgentEvent>, b: seq<AgentEvent>)
    ensures DeliverAll(r, a + b) == DeliverAll(DeliverAll(r, a), b)
    decreases |a|
  {
    if a == [] {
      assert a + b == b;
    } else if r.error.None? {
      assert (a + b)[1..] == a[1..] + b;
      DeliverMore(Deliver(r, a[0]), a[1..], b);
    }
  }

  /** Source: `_collect_run_result`, the server-side reader that wants exactly one closing event. */
  method CollectRunResult(events: seq<AgentEvent>) returns (closing: Outcome<Closing, ReadError>)
    requires forall e | e in events :: ValidEvent(e)
    ensures closing.Returned? <==> exists i: nat :: OnlyClosing(events, i)
    ensures forall i: nat | OnlyClosing(events, i) :: closing == Returned(ClosingOf(events[i]))
  {
    var found: Option<AgentEvent> := None;
    ghost var at := 0;
    for n := 0 to |events|
      invariant found.Some? ==> OnlyClosing(events[..n], at) && found == Some(events[at])
      invariant found.None? ==> forall i | 0 <= i < n :: !IsStreamClosing(events[i].data)
    {
      if IsStreamClosing(events[n].data) {
        if found.Some? {
          assert at < n && IsStreamClosing(events[at].data) && IsStreamClosing(events[n].data);
          return Raised(MultipleTerminal);
        }
        found := Some(events[n]);
        at := n;
      }
    }
    assert events[..|events|] == events;
    if found.None? {
      return Raised(NoClosingEvent);
    }
    assert OnlyClosing(events, at) && events[at] in events;
    return Returned(ClosingOf(found.value));
  }

  ghost predicate OnlyClosing(events: seq<AgentEvent>, i: nat) {
    && i < |events| && IsStreamClosing(events[i].data)
    && forall j | 0 <= j < |events| && j != i :: !IsStreamClosing(events[j].data)
  }

  function ClosingOf(e: AgentEvent): Closing {
    if e.response.Some? then Response(e.response.value) else AwaitInput(e)
  }

  /** On every stream with one closing event the browser's reader and the server's collector agree. */
  lemma ReadersAgree(events: seq<AgentEvent>, i: nat)
    requires forall e | e in events :: ValidEvent(e)
    requires OnlyClosing(events, i)
    ensures Close(DeliverAll(FRESH, events)) == ReadResult(events, Returned(ClosingOf(events[i])))
  {
    var before, e, after := events[..i], events[i], events[i + 1..];
    assert events == before + ([e] + after);
    assert e in events && ValidEvent(e);
    forall x | x in before || x in after ensures x.response.None? && !x.data.RunWaiting? {
      assert x in events;
    }
    DeliverMore(FRESH, before, [e] + after);
    QuietDelivery(FRESH, before);
    var r := FRESH.(delivered := before);
    assert FRESH.delivered + before == before;
    assert ([e] + after)[1..] == after;
    QuietDelivery(Deliver(r, e), after);
    assert before + [e] + after == events;
  }
}
