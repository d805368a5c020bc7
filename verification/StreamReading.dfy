/**
 * What the incremental reader makes of any text: how it is cut into frames and lines, which payloads the
 * frames carry, and what the events in them lead to.
 */
module StreamReading {
  import opened AgentModels
  import opened EventStreamWire
  import opened Outcomes

  // ---- cutting a text ----

  const LINE_ENDS := ["\n", "\r\n"]

  const BLANK_LINES := ["\n\n", "\n\r\n", "\r\n\n", "\r\n\r\n"]

  predicate StandsAt(s: string, mark: string, i: nat) {
    i + |mark| <= |s| && s[i..i + |mark|] == mark
  }

  /** One of the marks stands at the position. */
  predicate Marked(s: string, marks: seq<string>, i: nat) {
    exists m | m in marks :: StandsAt(s, m, i)
  }

  predicate Unmarked(s: string, marks: seq<string>) {
    forall i | 0 <= i < |s| :: !Marked(s, marks, i)
  }

  /** The pieces, each ended by the first mark after its start, and a rest without a mark. */
  ghost predicate Cut(s: string, marks: seq<string>, pieces: seq<string>, ends: seq<string>, rest: string)
    decreases |pieces|
  {
    && |pieces| == |ends|
    && if pieces == [] then s == rest && Unmarked(rest, marks)
       else
         var n := |pieces[0]| + |ends[0]|;
         && ends[0] in marks && n <= |s| && s[..n] == pieces[0] + ends[0]
         && (forall i | 0 <= i < |pieces[0]| :: !Marked(s, marks, i))
         && Cut(s[n..], marks, pieces[1..], ends[1..], rest)
  }

  lemma OneEnd(s: string, i: nat)
    ensures StandsAt(s, "\n", i) <==> LineEndAt(s, i) == 1
    ensures StandsAt(s, "\r\n", i) <==> LineEndAt(s, i) == 2
  {
    if StandsAt(s, "\n", i) {
      assert s[i] == s[i..i + 1][0];
    }
    if StandsAt(s, "\r\n", i) {
      assert s[i] == s[i..i + 2][0] && s[i + 1] == s[i..i + 2][1];
    }
    if LineEndAt(s, i) == 1 {
      assert s[i..i + 1] == "\n";
    }
    if LineEndAt(s, i) == 2 {
      assert s[i..i + 2] == "\r\n";
    }
  }

  lemma LineEndIs(s: string, i: nat)
    ensures LineEndAt(s, i) > 0 <==> Marked(s, LINE_ENDS, i)
    ensures LineEndAt(s, i) > 0 ==> i + LineEndAt(s, i) <= |s| && s[i..i + LineEndAt(s, i)] in LINE_ENDS
  {
    OneEnd(s, i);
    assert LINE_ENDS[0] == "\n" && LINE_ENDS[1] == "\r\n";
    assert Marked(s, LINE_ENDS, i) <==> StandsAt(s, "\n", i) || StandsAt(s, "\r\n", i);
  }

  lemma TwoEnds(s: string, i: nat, a: string, b: string)
    ensures StandsAt(s, a + b, i) <==> StandsAt(s, a, i) && StandsAt(s, b, i + |a|)
  {
    var m, n := i + |a|, i + |a| + |b|;
    if n <= |s| {
      assert s[i..n] == s[i..m] + s[m..n];
      if s[i..n] == a + b {
        assert s[i..m] == s[i..n][..|a|] && s[m..n] == s[i..n][|a|..];
      }
    }
  }

  lemma BlankLineIs(s: string, i: nat)
    ensures BlankLineAt(s, i) > 0 <==> Marked(s, BLANK_LINES, i)
    ensures BlankLineAt(s, i) > 0 ==>
              i + BlankLineAt(s, i) <= |s| && s[i..i + BlankLineAt(s, i)] in BLANK_LINES
  {
    assert BLANK_LINES[0] == "\n" + "\n" && BLANK_LINES[1] == "\n" + "\r\n";
    assert BLANK_LINES[2] == "\r\n" + "\n" && BLANK_LINES[3] == "\r\n" + "\r\n";
    TwoEnds(s, i, "\n", "\n");
    TwoEnds(s, i, "\n", "\r\n");
    TwoEnds(s, i, "\r\n", "\n");
    TwoEnds(s, i, "\r\n", "\r\n");
    OneEnd(s, i);
    OneEnd(s, i + 1);
    OneEnd(s, i + 2);
    hide LineEndAt, StandsAt;
    if BlankLineAt(s, i) > 0 {
      StandsIs(s, i, BlankLineAt(s, i));
    }
  }

  lemma StandsIs(s: string, i: nat, n: nat)
    ensures forall m :: StandsAt(s, m, i) && |m| == n ==> s[i..i + n] == m
  {
  }

  lemma CutMore(
    s: string, marks: seq<string>, i: nat, n: nat, pieces: seq<string>, ends: seq<string>, rest: string)
    requires i + n <= |s| && s[i..i + n] in marks && forall j | 0 <= j < i :: !Marked(s, marks, j)
    requires Cut(s[i + n..], marks, pieces, ends, rest)
    ensures Cut(s, marks, [s[..i]] + pieces, [s[i..i + n]] + ends, rest)
  {
    hide Marked;
    assert s[..i + n] == s[..i] + s[i..i + n];
    assert ([s[..i]] + pieces)[1..] == pieces && ([s[i..i + n]] + ends)[1..] == ends;
  }

  lemma NoCut(s: string, marks: seq<string>)
    requires Unmarked(s, marks)
    ensures Cut(s, marks, [], [], s)
  {
  }

  /** The frames of a text are its pieces between blank lines, and the rest holds none. */
  lemma {:induction false} FramesCut(s: string) returns (ends: seq<string>)
    ensures Cut(s, BLANK_LINES, Frames(s).0, ends, Frames(s).1)
    decreases |s|
  {
    hide BlankLineAt, Marked, Cut, Frames, FirstBlankLine;
    var cut := FirstBlankLine(s, 0);
    forall i | 0 <= i < |s| && (cut.Some? ==> i < cut.value) ensures !Marked(s, BLANK_LINES, i) {
      BlankLineIs(s, i);
    }
    FramesUnfold(s);
    if cut.None? {
      ends := [];
      NoCut(s, BLANK_LINES);
    } else {
      var i, n := cut.value, BlankLineAt(s, cut.value);
      BlankLineIs(s, i);
      var more := FramesCut(AfterBlank(s, i));
      CutMore(s, BLANK_LINES, i, n, Frames(AfterBlank(s, i)).0, more, Frames(AfterBlank(s, i)).1);
      ends := [s[i..i + n]] + more;
    }
  }

  lemma LinesUnfold(s: string)
    ensures match FirstLineEnd(s, 0)
            case None => Lines(s) == [s]
            case Some(i) => i + LineEndAt(s, i) <= |s| && Lines(s) == [s[..i]] + Lines(s[i + LineEndAt(s, i)..])
    ensures Lines(s) != []
  {
  }

  /** The lines of a frame are its pieces between line ends, the last one what is left. */
  lemma {:induction false} LinesCutAt(s: string) returns (ends: seq<string>)
    ensures Lines(s) != []
    ensures var n := |Lines(s)| - 1; Cut(s, LINE_ENDS, Lines(s)[..n], ends, Lines(s)[n])
    decreases |s|
  {
    hide LineEndAt, Marked, Cut, Lines, FirstLineEnd;
    var cut := FirstLineEnd(s, 0);
    forall i | 0 <= i < |s| && (cut.Some? ==> i < cut.value) ensures !Marked(s, LINE_ENDS, i) {
      LineEndIs(s, i);
    }
    LinesUnfold(s);
    if cut.None? {
      ends := [];
      NoCut(s, LINE_ENDS);
      assert Lines(s)[..0] == [];
    } else {
      var i, n := cut.value, LineEndAt(s, cut.value);
      LineEndIs(s, i);
      var tail := Lines(s[i + n..]);
      var more := LinesCutAt(s[i + n..]);
      CutMore(s, LINE_ENDS, i, n, tail[..|tail| - 1], more, tail[|tail| - 1]);
      ends := [s[i..i + n]] + more;
      assert Lines(s)[..|Lines(s)| - 1] == [s[..i]] + tail[..|tail| - 1];
    }
  }

  // ---- the payload of a frame ----

  predicate AllSpace(s: string) {
    forall i | 0 <= i < |s| :: IsJsSpace(s[i])
  }

  /** Trimming takes the leading blanks off, all of them, and nothing else. */
  lemma {:induction false} TrimIs(s: string) returns (blanks: string)
    ensures s == blanks + TrimStart(s) && AllSpace(blanks)
    ensures TrimStart(s) != "" ==> !IsJsSpace(TrimStart(s)[0])
  {
    blanks := "";
    if s != [] && IsJsSpace(s[0]) {
      var more := TrimIs(s[1..]);
      blanks := [s[0]] + more;
      assert s == [s[0]] + s[1..];
    }
  }

  /** The lines that carry data. */
  function DataLines(lines: seq<string>): seq<string> {
    if lines == [] then []
    else
      DataLines(lines[..|lines| - 1]) + if "data:" <= lines[|lines| - 1] then [lines[|lines| - 1]] else []
  }

  lemma {:induction false} DataLinesCons(line: string, lines: seq<string>)
    ensures DataLines([line] + lines) == (if "data:" <= line then [line] else []) + DataLines(lines)
    decreases |lines|
  {
    var all := [line] + lines;
    if lines != [] {
      assert all[..|all| - 1] == [line] + lines[..|lines| - 1];
      DataLinesCons(line, lines[..|lines| - 1]);
    } else {
      assert all[..0] == [];
    }
  }

  /** The payload has one part for each data line, in order: what follows the field name, trimmed. */
  lemma {:induction false} DataIs(lines: seq<string>)
    ensures |DataOf(lines)| == |DataLines(lines)|
    ensures forall k | 0 <= k < |DataOf(lines)| ::
              "data:" <= DataLines(lines)[k] && DataOf(lines)[k] == TrimStart(DataLines(lines)[k][5..])
  {
    if lines != [] {
      DataIs(lines[1..]);
      assert lines == [lines[0]] + lines[1..];
      DataLinesCons(lines[0], lines[1..]);
    }
  }

  predicate OneLine(s: string) {
    forall i | 0 <= i < |s| :: s[i] != '\n' && s[i] != '\r'
  }

  lemma LineAlone(x: string)
    requires OneLine(x)
    ensures Lines(x) == [x]
  {
  }

  lemma LineThen(x: string, y: string)
    requires OneLine(x)
    ensures Lines(x + "\n" + y) == [x] + Lines(y)
  {
    var s := x + "\n" + y;
    assert forall i | 0 <= i < |x| :: s[i] == x[i];
    assert s[|x|] == '\n' && s[|x| + 1..] == y && s[..|x|] == x;
    assert LineEndAt(s, |x|) == 1;
  }

  /** Joined by line feeds, lines come back as they were. */
  lemma {:induction false} JoinedLinesComeBack(parts: seq<string>)
    requires parts != [] && forall p | p in parts :: OneLine(p)
    ensures Lines(Join(parts)) == parts
  {
    hide Lines, OneLine;
    assert parts == [parts[0]] + parts[1..] && parts[0] in parts;
    if |parts| == 1 {
      LineAlone(parts[0]);
    } else {
      assert forall p | p in parts[1..] :: p in parts;
      JoinedLinesComeBack(parts[1..]);
      LineThen(parts[0], Join(parts[1..]));
    }
  }

  // ---- the events in the frames ----

  function PayloadOf(frame: string): string {
    Join(DataOf(Lines(frame)))
  }

  /** The payloads of the frames that carry one. */
  function Payloads(frames: seq<string>): seq<string> {
    if frames == [] then []
    else (if PayloadOf(frames[0]) == "" then [] else [PayloadOf(frames[0])]) + Payloads(frames[1..])
  }

  /** The events up to the first payload that is none. */
  function Decoded(payloads: seq<string>, decode: string -> Option<AgentEvent>): (r: seq<AgentEvent>)
    ensures |r| <= |payloads|
    ensures forall k | 0 <= k < |r| :: decode(payloads[k]) == Some(r[k])
    ensures |r| < |payloads| ==> decode(payloads[|r|]).None?
  {
    if payloads == [] || decode(payloads[0]).None? then []
    else [decode(payloads[0]).value] + Decoded(payloads[1..], decode)
  }

  /** Frames are handed over as their events are, up to a malformed one. */
  lemma {:induction false} ConsumedIs(r: Reader, frames: seq<string>, decode: string -> Option<AgentEvent>)
    requires r.error.None?
    ensures var payloads := Payloads(frames);
            var events := Decoded(payloads, decode);
            var d := DeliverAll(r, events);
            ConsumeAll(r, frames, decode)
            == if d.error.None? && |events| < |payloads| then d.(error := Some(MalformedEvent)) else d
    decreases |frames|
  {
    if frames != [] {
      var frame, rest := frames[0], frames[1..];
      var next := ConsumeFrame(r, frame, decode);
      var payloads := Payloads(frames);
      if PayloadOf(frame) == "" {
        assert payloads == Payloads(rest);
        ConsumedIs(r, rest, decode);
      } else {
        assert payloads == [PayloadOf(frame)] + Payloads(rest) && payloads[1..] == Payloads(rest);
        if next.error.Some? {
          StoppedStays(next, rest, decode);
          NothingMore(next, Decoded(Payloads(rest), decode));
        } else {
          ConsumedIs(next, rest, decode);
        }
        if decode(PayloadOf(frame)).Some? {
          var e, more := decode(PayloadOf(frame)).value, Decoded(Payloads(rest), decode);
          assert Decoded(payloads, decode) == [e] + more && ([e] + more)[1..] == more;
        }
      }
    }
  }

  lemma {:induction false} StoppedStays(r: Reader, frames: seq<string>, decode: string -> Option<AgentEvent>)
    requires r.error.Some?
    ensures ConsumeAll(r, frames, decode) == r
    decreases |frames|
  {
    if frames != [] {
      StoppedStays(r, frames[1..], decode);
    }
  }

  lemma NothingMore(r: Reader, events: seq<AgentEvent>)
    requires r.error.Some?
    ensures DeliverAll(r, events) == r
  {
  }

  /**
   * The answer to any text: its frames and, if it is not blank, the unfinished rest carry payloads; the
   * events before the first malformed one are handed over; a second response stops the stream first.
   */
  lemma ReadTextIs(text: string, decode: string -> Option<AgentEvent>)
    ensures var (frames, rest) := Frames(text);
            var payloads := Payloads(frames + if TrimStart(rest) == "" then [] else [rest]);
            var events := Decoded(payloads, decode);
            var d := DeliverAll(FRESH, events);
            ReadText(text, decode)
            == if d.error.None? && |events| < |payloads| then ReadResult(d.delivered, Raised(MalformedEvent))
               else Close(d)
  {
    var (frames, rest) := Frames(text);
    var all := frames + if TrimStart(rest) == "" then [] else [rest];
    ConsumedIs(FRESH, all, decode);
    if TrimStart(rest) == "" {
      assert all == frames;
    } else {
      ConsumeMore(FRESH, frames, [rest], decode);
      assert [rest][1..] == [];
      hide ConsumeFrame;
      assert ConsumeAll(ConsumeAll(FRESH, frames, decode), [rest], decode)
             == ConsumeFrame(ConsumeAll(FRESH, frames, decode), rest, decode);
    }
  }

  // ---- what the events lead to ----

  /** The position of the first event that carries a response, and of the last that waits. */
  ghost predicate FirstResponse(events: seq<AgentEvent>, i: int) {
    0 <= i < |events| && events[i].response.Some? && forall j | 0 <= j < i :: events[j].response.None?
  }

  ghost predicate LastWait(events: seq<AgentEvent>, i: int) {
    0 <= i < |events| && events[i].data.RunWaiting? && forall j | i < j < |events| :: !events[j].data.RunWaiting?
  }

  predicate OneResponse(events: seq<AgentEvent>) {
    forall i, j | 0 <= i < j < |events| :: events[i].response.None? || events[j].response.None?
  }

  /** What a reader that met no error remembers of the events. */
  ghost predicate Remembers(r: Reader, events: seq<AgentEvent>) {
    && r.error.None? && r.delivered == events
    && (r.terminal.None? <==> forall i | 0 <= i < |events| :: events[i].response.None?)
    && (r.waiting.None? <==> forall i | 0 <= i < |events| :: !events[i].data.RunWaiting?)
    && (forall i | FirstResponse(events, i) :: r.terminal == events[i].response)
    && (forall i | LastWait(events, i) :: r.waiting == Some(events[i]))
  }

  lemma DeliverOne(r: Reader, e: AgentEvent)
    requires r.error.None?
    ensures DeliverAll(r, [e]) == Deliver(r, e)
  {
    assert [e][1..] == [];
  }

  lemma RemembersNext(r: Reader, init: seq<AgentEvent>, e: AgentEvent)
    requires Remembers(r, init) && OneResponse(init + [e])
    ensures Remembers(Deliver(r, e), init + [e])
  {
    var events, n := init + [e], |init|;
    assert events[n] == e && forall i | 0 <= i < n :: events[i] == init[i];
    assert e.response.Some? ==> forall i | 0 <= i < n :: events[i].response.None?;
    forall i | FirstResponse(events, i) ensures Deliver(r, e).terminal == events[i].response {
      if i < n {
        assert FirstResponse(init, i);
      }
    }
    forall i | LastWait(events, i) ensures Deliver(r, e).waiting == Some(events[i]) {
      if i < n {
        assert LastWait(init, i);
      }
    }
  }

  lemma NothingRemembered()
    ensures Remembers(FRESH, [])
  {
  }

  lemma {:induction false} DeliveredSoFar(events: seq<AgentEvent>)
    requires OneResponse(events)
    ensures Remembers(DeliverAll(FRESH, events), events)
  {
    if events == [] {
      NothingRemembered();
    } else {
      var init, e := events[..|events| - 1], events[|events| - 1];
      assert events == init + [e];
      DeliveredSoFar(init);
      DeliverMore(FRESH, init, [e]);
      RemembersFine(DeliverAll(FRESH, init), init);
      DeliverOne(DeliverAll(FRESH, init), e);
      RemembersNext(DeliverAll(FRESH, init), init, e);
      hide Remembers, DeliverAll, Deliver;
    }
  }

  lemma RemembersFine(r: Reader, events: seq<AgentEvent>)
    requires Remembers(r, events)
    ensures r.error.None?
  {
  }

  /**
   * What a list of events comes to. With one response at most, all are handed over, and the answer is the
   * response, or else the last wait, or else that nothing closed the stream.
   */
  lemma EventsComeTo(events: seq<AgentEvent>)
    requires OneResponse(events)
    ensures var r := Close(DeliverAll(FRESH, events));
            && r.delivered == events
            && (forall i | FirstResponse(events, i) :: r.closing == Returned(Response(events[i].response.value)))
            && (forall i | LastWait(events, i) && (forall j | 0 <= j < |events| :: events[j].response.None?) ::
                  r.closing == Returned(AwaitInput(events[i])))
            && (r.closing.Raised? <==>
                  forall j | 0 <= j < |events| :: events[j].response.None? && !events[j].data.RunWaiting?)
            && (r.closing.Raised? ==> r.closing.error.NoClosingEvent?)
  {
    DeliveredSoFar(events);
  }

  /** A second response is handed over too, and ends the reading with an error. */
  lemma SecondResponseStops(before: seq<AgentEvent>, e: AgentEvent, after: seq<AgentEvent>)
    requires OneResponse(before) && !OneResponse(before + [e])
    ensures Close(DeliverAll(FRESH, before + [e] + after))
            == ReadResult(before + [e], Raised(MultipleTerminal))
  {
    DeliveredSoFar(before);
    var longer := before + [e];
    var i, j :| 0 <= i < j < |longer| && longer[i].response.Some? && longer[j].response.Some?;
    assert j == |before| && before[i].response.Some?;
    DeliverMore(FRESH, before, [e]);
    assert [e][1..] == [];
    var r := DeliverAll(FRESH, before);
    assert DeliverAll(FRESH, longer) == Deliver(r, e);
    DeliverMore(FRESH, longer, after);
    NothingMore(Deliver(r, e), after);
  }
}
