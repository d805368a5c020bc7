/**
 * The inline markdown tokenizer: text, `**strong**` and backtick code. Parsing and printing
 * are inverse to each other, between all texts and the canonical segment lists.
 */
module InlineMarkdown {
  import opened Outcomes

  datatype Segment = Text(text: string) | Strong(text: string) | Code(text: string)

  /** The marker `**` (strong) or a single backtick (code) stands at position `i`. */
  predicate MarkerAt(s: string, strong: bool, i: nat) {
    if strong then i + 1 < |s| && s[i] == '*' && s[i + 1] == '*' else i < |s| && s[i] == '`'
  }

  function MarkerText(strong: bool): string {
    if strong then "**" else "`"
  }

  function Length(strong: bool): nat {
    if strong then 2 else 1
  }

  /** The first position at or after `from` where the marker stands, if any. */
  function IndexOf(s: string, strong: bool, from: nat): (r: Option<nat>)
    ensures r.Some? ==> from <= r.value && MarkerAt(s, strong, r.value)
    decreases |s| - from
  {
    if from >= |s| then None
    else if MarkerAt(s, strong, from) then Some(from)
    else IndexOf(s, strong, from + 1)
  }

  lemma IndexIsFirst(s: string, strong: bool, from: nat)
    ensures var r := IndexOf(s, strong, from);
            forall i: nat | from <= i && (r.Some? ==> i < r.value) :: !MarkerAt(s, strong, i)
    decreases |s| - from
  {
    if from < |s| && !MarkerAt(s, strong, from) {
      IndexIsFirst(s, strong, from + 1);
    }
  }

  datatype Marker = Marker(strong: bool, index: nat)

  /** Source: `nearestMarker`. */
  function NearestMarker(code: Option<nat>, strong: Option<nat>): Option<Marker> {
    if code.None? && strong.None? then None
    else if code.None? then Some(Marker(true, strong.value))
    else if strong.None? || code.value < strong.value then Some(Marker(false, code.value))
    else Some(Marker(true, strong.value))
  }

  function FirstMarker(s: string): Option<Marker> {
    NearestMarker(IndexOf(s, false, 0), IndexOf(s, true, 0))
  }

  function CloseOf(s: string, m: Marker): Option<nat> {
    IndexOf(s, m.strong, m.index + Length(m.strong))
  }

  function Marked(strong: bool, content: string): Segment {
    if strong then Strong(content) else Code(content)
  }

  function TextBefore(s: string, rest: seq<Segment>): seq<Segment> {
    if s == "" then rest else [Text(s)] + rest
  }

  predicate HasSpan(s: string) {
    FirstMarker(s).Some? && CloseOf(s, FirstMarker(s).value).Some?
  }

  /** The segments of a text, one marked span at a time. */
  function Segments(s: string): seq<Segment>
    decreases |s|, 1
  {
    if !HasSpan(s) then TextBefore(s, [])
    else
      var m := FirstMarker(s).value;
      var close := CloseOf(s, m).value;
      TextBefore(s[..m.index], Rest(s, m, close))
  }

  /** The marked span and what follows it. */
  function Rest(s: string, m: Marker, close: nat): seq<Segment>
    requires m.index + Length(m.strong) <= close && close + Length(m.strong) <= |s|
    decreases |s|, 0
  {
    [Marked(m.strong, s[m.index + Length(m.strong)..close])] + Segments(s[close + Length(m.strong)..])
  }

  function Parse(s: string): seq<Segment> {
    if s == "" then [Text("")] else Segments(s)
  }

  // ---- the loop ----

  /** Source: `appendText`, which extends the last segment when that is text. */
  function AppendText(segments: seq<Segment>, text: string): seq<Segment> {
    if text == "" then segments
    else if segments != [] && segments[|segments| - 1].Text? then
      segments[|segments| - 1 := Text(segments[|segments| - 1].text + text)]
    else segments + [Text(text)]
  }

  lemma IndexOfSuffix(s: string, strong: bool, from: nat, i: nat)
    requires from <= |s|
    ensures var a, b := IndexOf(s, strong, from + i), IndexOf(s[from..], strong, i);
            a.None? == b.None? && (a.Some? ==> a.value == from + b.value)
  {
    assert forall j: nat :: MarkerAt(s[from..], strong, j) == MarkerAt(s, strong, from + j);
    var a, b := IndexOf(s, strong, from + i), IndexOf(s[from..], strong, i);
    IndexIsFirst(s, strong, from + i);
    IndexIsFirst(s[from..], strong, i);
    if a.Some? {
      assert MarkerAt(s[from..], strong, a.value - from);
    }
    if b.Some? {
      assert MarkerAt(s, strong, from + b.value);
    }
  }

  function NextMarker(text: string, cursor: nat): Option<Marker> {
    NearestMarker(IndexOf(text, false, cursor), IndexOf(text, true, cursor))
  }

  function Shift(m: Marker, offset: nat): Marker {
    Marker(m.strong, m.index + offset)
  }

  lemma NextMarkerInSuffix(text: string, cursor: nat)
    requires cursor <= |text|
    ensures var m := FirstMarker(text[cursor..]);
            NextMarker(text, cursor) == if m.None? then None else Some(Shift(m.value, cursor))
  {
    IndexOfSuffix(text, false, cursor, 0);
    IndexOfSuffix(text, true, cursor, 0);
  }

  lemma CloseInSuffix(text: string, cursor: nat, m: Marker)
    requires cursor <= |text|
    ensures var c := CloseOf(text[cursor..], m);
            CloseOf(text, Shift(m, cursor)) == if c.None? then None else Some(cursor + c.value)
  {
    IndexOfSuffix(text, m.strong, cursor, m.index + Length(m.strong));
  }

  lemma RestInSuffix(text: string, cursor: nat, m: Marker, close: nat)
    requires cursor <= m.index && m.index + Length(m.strong) <= close && close + Length(m.strong) <= |text|
    ensures Rest(text, m, close) == Rest(text[cursor..], Marker(m.strong, m.index - cursor), close - cursor)
  {
    hide Segments, Marked;
    var s, n := text[cursor..], Length(m.strong);
    assert text[m.index + n..close] == s[m.index - cursor + n..close - cursor];
    assert text[close + n..] == s[close - cursor + n..];
  }

  lemma Unfold(s: string, m: Marker, close: nat, t: string, rest: seq<Segment>)
    requires FirstMarker(s) == Some(m) && CloseOf(s, m) == Some(close)
    requires t == s[..m.index] && rest == Rest(s, m, close)
    ensures Segments(s) == TextBefore(t, rest)
  {
  }

  /** The marker and its close, seen from the cursor. */
  ghost predicate SpanAfter(text: string, cursor: nat, m: Marker, close: nat) {
    && cursor <= |text| && cursor <= m.index && cursor <= close
    && FirstMarker(text[cursor..]) == Some(Marker(m.strong, m.index - cursor))
    && CloseOf(text[cursor..], Marker(m.strong, m.index - cursor)) == Some(close - cursor)
  }

  lemma TurnInSuffix(text: string, cursor: nat, m: Marker, close: nat)
    requires cursor <= |text| && NextMarker(text, cursor) == Some(m) && CloseOf(text, m) == Some(close)
    ensures SpanAfter(text, cursor, m, close)
  {
    NextMarkerInSuffix(text, cursor);
    CloseInSuffix(text, cursor, FirstMarker(text[cursor..]).value);
  }

  /** One turn of the loop, as a split of the remaining text. */
  lemma NextSpan(text: string, cursor: nat, m: Marker, close: nat)
    requires SpanAfter(text, cursor, m, close)
    requires m.index + Length(m.strong) <= close && close + Length(m.strong) <= |text|
    ensures Segments(text[cursor..]) == TextBefore(text[cursor..m.index], Rest(text, m, close))
  {
    var at := Marker(m.strong, m.index - cursor);
    RestInSuffix(text, cursor, m, close);
    assert text[cursor..m.index] == text[cursor..][..at.index];
    Unfold(text[cursor..], at, close - cursor, text[cursor..m.index], Rest(text, m, close));
  }

  lemma NoSpanLeft(text: string, cursor: nat)
    requires cursor < |text|
    requires NextMarker(text, cursor).Some? ==> CloseOf(text, NextMarker(text, cursor).value).None?
    ensures Segments(text[cursor..]) == [Text(text[cursor..])]
  {
    NextMarkerInSuffix(text, cursor);
    var m := FirstMarker(text[cursor..]);
    if m.Some? {
      CloseInSuffix(text, cursor, m.value);
    }
  }

  /** Source: `parseInlineSegments`. */
  method ParseInlineSegments(text: string) returns (segments: seq<Segment>)
    ensures segments == Parse(text)
  {
    segments := [];
    var cursor := 0;
    assert text[0..] == text;
    while cursor < |text|
      invariant Reads(text, cursor, segments)
      invariant segments == [] ==> cursor == 0
      decreases |text| - cursor
    {
      var next := NearestMarker(IndexOf(text, false, cursor), IndexOf(text, true, cursor));
      if next.None? {
        LastText(text, cursor, segments);
        return AppendText(segments, text[cursor..]);
      }
      var m := next.value;
      var close := CloseOf(text, m);
      if close.None? {
        LastText(text, cursor, segments);
        return AppendText(AppendText(segments, text[cursor..m.index]), text[m.index..]);
      }
      ghost var cursor', segments' := cursor, segments;
      segments := AppendText(segments, text[cursor..m.index]);
      segments := segments + [Marked(m.strong, text[m.index + Length(m.strong)..close.value])];
      cursor := close.value + Length(m.strong);
      NextTurn(text, cursor', segments', m, close.value, cursor, segments);
    }
    NothingLeft(text, cursor, segments);
    if segments == [] {
      segments := [Text(text)];
    }
  }

  /** The loop's state: what is left to read completes the segments so far. */
  ghost predicate Reads(text: string, cursor: nat, segments: seq<Segment>) {
    && cursor <= |text|
    && (segments != [] ==> !segments[|segments| - 1].Text?)
    && segments + Segments(text[cursor..]) == Segments(text)
  }

  lemma NextTurn(
      text: string, cursor: nat, segments: seq<Segment>, m: Marker, close: nat,
      next: nat, longer: seq<Segment>)
    requires Reads(text, cursor, segments) && NextMarker(text, cursor) == Some(m) && CloseOf(text, m) == Some(close)
    requires cursor <= m.index && m.index + Length(m.strong) <= close && next == close + Length(m.strong) <= |text|
    requires longer == AppendText(segments, text[cursor..m.index])
                     + [Marked(m.strong, text[m.index + Length(m.strong)..close])]
    ensures Reads(text, next, longer)
  {
    hide Segments, Rest, AppendText, CloseOf, FirstMarker;
    TurnInSuffix(text, cursor, m, close);
    NextSpan(text, cursor, m, close);
    AppendThenSpan(segments, text[cursor..m.index], Rest(text, m, close));
    AppendRest(AppendText(segments, text[cursor..m.index]), text, m, close);
  }

  lemma AppendRest(segments: seq<Segment>, text: string, m: Marker, close: nat)
    requires m.index + Length(m.strong) <= close && close + Length(m.strong) <= |text|
    ensures segments + Rest(text, m, close)
         == segments + [Marked(m.strong, text[m.index + Length(m.strong)..close])]
             + Segments(text[close + Length(m.strong)..])
  {
  }

  lemma AppendThenSpan(segments: seq<Segment>, t: string, rest: seq<Segment>)
    requires segments != [] ==> !segments[|segments| - 1].Text?
    ensures segments + TextBefore(t, rest) == AppendText(segments, t) + rest
  {
  }

  lemma LastText(text: string, cursor: nat, segments: seq<Segment>)
    requires Reads(text, cursor, segments) && cursor < |text|
    requires NextMarker(text, cursor).Some? ==> CloseOf(text, NextMarker(text, cursor).value).None?
    ensures AppendText(segments, text[cursor..]) == Parse(text)
    ensures NextMarker(text, cursor).Some? ==>
              var i := NextMarker(text, cursor).value.index;
              cursor <= i <= |text| && AppendText(AppendText(segments, text[cursor..i]), text[i..]) == Parse(text)
  {
    NoSpanLeft(text, cursor);
    if NextMarker(text, cursor).Some? {
      var i := NextMarker(text, cursor).value.index;
      assert text[cursor..] == text[cursor..i] + text[i..];
      AppendTwice(segments, text[cursor..i], text[i..]);
    }
  }

  lemma AppendTwice(segments: seq<Segment>, a: string, b: string)
    requires segments != [] ==> !segments[|segments| - 1].Text?
    ensures AppendText(AppendText(segments, a), b) == AppendText(segments, a + b)
  {
    if a == "" {
      assert a + b == b;
    } else if b == "" {
      assert a + b == a;
    }
  }

  lemma NothingLeft(text: string, cursor: nat, segments: seq<Segment>)
    requires Reads(text, cursor, segments) && cursor == |text|
    ensures segments == Segments(text)
  {
    assert text[cursor..] == "" && segments + [] == segments;
  }

  // ---- printing ----

  function PrintSegment(g: Segment): string {
    match g
    case Text(t) => t
    case Strong(t) => "**" + t + "**"
    case Code(t) => "`" + t + "`"
  }

  function Print(segments: seq<Segment>): string {
    if segments == [] then "" else PrintSegment(segments[0]) + Print(segments[1..])
  }

  lemma PrintCons(g: Segment, rest: seq<Segment>)
    ensures Print([g] + rest) == PrintSegment(g) + Print(rest)
  {
    assert ([g] + rest)[1..] == rest;
  }

  lemma PrintSpan(s: string, m: Marker, close: nat)
    requires MarkerAt(s, m.strong, m.index) && MarkerAt(s, m.strong, close) && m.index + Length(m.strong) <= close
    ensures PrintSegment(Marked(m.strong, s[m.index + Length(m.strong)..close])) == s[m.index..close + Length(m.strong)]
  {
    hide CloseOf;
    var n := Length(m.strong);
    assert s[m.index..m.index + n] == MarkerText(m.strong) == s[close..close + n];
    assert s[m.index..close + n] == s[m.index..m.index + n] + s[m.index + n..close] + s[close..close + n];
  }

  /** Printing the parsed segments with their markers gives back the text. */
  lemma {:induction false} PrintParsed(s: string)
    ensures Print(Segments(s)) == s
    decreases |s|
  {
    if HasSpan(s) {
      var m := FirstMarker(s).value;
      var close := CloseOf(s, m).value;
      PrintParsed(s[close + Length(m.strong)..]);
      PrintRest(s, m, close);
      PrintBefore(s[..m.index], Rest(s, m, close));
      assert s == s[..m.index] + s[m.index..];
    } else {
      PrintBefore(s, []);
    }
  }

  lemma RestIs(s: string, m: Marker, close: nat)
    requires m.index + Length(m.strong) <= close && close + Length(m.strong) <= |s|
    ensures Rest(s, m, close) == [Marked(m.strong, s[m.index + Length(m.strong)..close])]
            + Segments(s[close + Length(m.strong)..])
  {
  }

  lemma PrintRest(s: string, m: Marker, close: nat)
    requires MarkerAt(s, m.strong, m.index) && MarkerAt(s, m.strong, close) && m.index + Length(m.strong) <= close
    requires Print(Segments(s[close + Length(m.strong)..])) == s[close + Length(m.strong)..]
    ensures Print(Rest(s, m, close)) == s[m.index..]
  {
    hide Rest, Segments, Print, PrintSegment;
    var next := close + Length(m.strong);
    RestIs(s, m, close);
    PrintSpan(s, m, close);
    PrintCons(Marked(m.strong, s[m.index + Length(m.strong)..close]), Segments(s[next..]));
    assert s[m.index..] == s[m.index..next] + s[next..];
  }

  lemma PrintBefore(t: string, rest: seq<Segment>)
    ensures Print(TextBefore(t, rest)) == t + Print(rest)
  {
    PrintCons(Text(t), rest);
  }

  // ---- which segment lists are results ----

  predicate NoMarker(s: string) {
    FirstMarker(s).None?
  }

  predicate EndsWithStar(s: string) {
    s != [] && s[|s| - 1] == '*'
  }

  /** What a marked span may hold: nothing that would close it earlier. */
  predicate FitsSpan(g: Segment)
    requires !g.Text?
  {
    IndexOf(g.text, g.Strong?, 0).None? && (g.Strong? ==> !EndsWithStar(g.text))
  }

  /** What a text before a marked span may hold: nothing that would open a span earlier. */
  predicate FitsBefore(t: string, g: Segment) {
    t != "" && NoMarker(t) && !g.Text? && (g.Strong? ==> !EndsWithStar(t))
  }

  /** A list that parsing can return for a non-empty text, checked from the front. */
  predicate CanonicalTail(segments: seq<Segment>)
    decreases |segments|
  {
    segments == [] ||
    (var g, rest := segments[0], segments[1..];
     && CanonicalTail(rest)
     && if !g.Text? then FitsSpan(g)
        else if rest == [] then g.text != "" && !HasSpan(g.text)
        else FitsBefore(g.text, rest[0]))
  }

  predicate Canonical(segments: seq<Segment>) {
    segments == [Text("")] || (segments != [] && CanonicalTail(segments))
  }

  lemma FirstAt(s: string, strong: bool, from: nat, i: nat)
    requires from <= i && MarkerAt(s, strong, i) && forall j: nat | from <= j < i :: !MarkerAt(s, strong, j)
    ensures IndexOf(s, strong, from) == Some(i)
  {
    IndexIsFirst(s, strong, from);
  }

  lemma NoneAt(s: string, strong: bool)
    requires forall i: nat :: !MarkerAt(s, strong, i)
    ensures IndexOf(s, strong, 0).None?
  {
  }

  /** In `t + tail`, where `t` has no marker, the marker at the front of `tail` is the first one. */
  lemma SeamFirst(t: string, strong: bool, tail: string)
    requires IndexOf(t, strong, 0).None? && MarkerAt(tail, strong, 0) && (strong ==> !EndsWithStar(t))
    ensures IndexOf(t + tail, strong, 0) == Some(|t|)
  {
    var s := t + tail;
    IndexIsFirst(t, strong, 0);
    forall j: nat | j < |t| ensures !MarkerAt(s, strong, j) {
      assert !MarkerAt(t, strong, j);
    }
    FirstAt(s, strong, 0, |t|);
  }

  lemma SpanCloses(g: Segment, rest: string)
    requires !g.Text? && FitsSpan(g)
    ensures var s := PrintSegment(g) + rest;
            && FirstMarker(s) == Some(Marker(g.Strong?, 0))
            && CloseOf(s, Marker(g.Strong?, 0)) == Some(Length(g.Strong?) + |g.text|)
  {
    var n := Length(g.Strong?);
    var s := PrintSegment(g) + rest;
    var tail := MarkerText(g.Strong?) + rest;
    assert s[n..] == g.text + tail;
    SeamFirst(g.text, g.Strong?, tail);
    IndexOfSuffix(s, g.Strong?, n, 0);
    FirstAt(s, g.Strong?, 0, 0);
    assert !MarkerAt(s, !g.Strong?, 0);
  }

  lemma SpanParses(g: Segment, rest: string)
    requires !g.Text? && FitsSpan(g)
    ensures Segments(PrintSegment(g) + rest) == [g] + Segments(rest)
  {
    hide CloseOf, MarkerAt, IndexOf;
    var s := PrintSegment(g) + rest;
    SpanCloses(g, rest);
    var n := Length(g.Strong?);
    var close := n + |g.text|;
    assert s[n..close] == g.text && s[close + n..] == rest;
    assert s[..0] == "";
  }

  /** A span at the front of `tail` is still the first one behind a text that fits before it. */
  lemma TextKeepsSpan(t: string, g: Segment, tail: string)
    requires FitsBefore(t, g) && FirstMarker(tail) == Some(Marker(g.Strong?, 0))
    ensures FirstMarker(t + tail) == Some(Marker(g.Strong?, |t|))
  {
    var s := t + tail;
    var other := !g.Strong?;
    assert MarkerAt(tail, g.Strong?, 0) && s[|t|] == tail[0];
    SeamFirst(t, g.Strong?, tail);
    IndexIsFirst(t, other, 0);
    IndexIsFirst(s, other, 0);
    forall j: nat | j <= |t| ensures !MarkerAt(s, other, j) {
      assert !MarkerAt(t, other, j);
    }
  }

  lemma TextParses(t: string, g: Segment, rest: string)
    requires FitsBefore(t, g) && FitsSpan(g)
    ensures Segments(t + (PrintSegment(g) + rest)) == [Text(t)] + Segments(PrintSegment(g) + rest)
  {
    SpanCloses(g, rest);
    TextKeepsSpan(t, g, PrintSegment(g) + rest);
    TextBeforeSpan(t, PrintSegment(g) + rest, Marker(g.Strong?, 0), Length(g.Strong?) + |g.text|);
  }

  lemma TextBeforeSpan(t: string, tail: string, m: Marker, close: nat)
    requires t != "" && m.index == 0 && FirstMarker(tail) == Some(m) && CloseOf(tail, m) == Some(close)
    requires FirstMarker(t + tail) == Some(Shift(m, |t|))
    ensures Segments(t + tail) == [Text(t)] + Segments(tail)
  {
    hide Segments, Rest, FirstMarker;
    var s, at := t + tail, Shift(m, |t|);
    assert s[|t|..] == tail && s[..|t|] == t;
    CloseInSuffix(s, |t|, m);
    RestInSuffix(s, |t|, at, |t| + close);
    Unfold(s, at, |t| + close, t, Rest(s, at, |t| + close));
    Unfold(tail, m, close, "", Rest(tail, m, close));
  }

  /** A canonical list is found again in its own printed text. */
  lemma {:induction false} ParsePrinted(segments: seq<Segment>)
    requires CanonicalTail(segments)
    ensures Segments(Print(segments)) == segments
    decreases |segments|
  {
    if segments != [] {
      var g, rest := segments[0], segments[1..];
      assert segments == [g] + rest;
      ParsePrinted(rest);
      if !g.Text? {
        SpanParses(g, Print(rest));
      } else if rest == [] {
        assert Print(segments) == g.text;
      } else {
        TextParses(g.text, rest[0], Print(rest[1..]));
      }
    }
  }

  lemma BeforeFits(s: string, m: Marker, g: Segment)
    requires FirstMarker(s) == Some(m) && m.index > 0 && !g.Text? && g.Strong? == m.strong
    ensures FitsBefore(s[..m.index], g)
  {
    var t := s[..m.index];
    IndexIsFirst(s, true, 0);
    IndexIsFirst(s, false, 0);
    forall strong: bool, j: nat ensures !MarkerAt(t, strong, j) {
      assert j < m.index ==> !MarkerAt(s, strong, j);
    }
    if m.strong {
      assert !MarkerAt(s, true, m.index - 1);
    }
    NoneAt(t, true);
    NoneAt(t, false);
  }

  lemma ContentFits(s: string, m: Marker, close: nat)
    requires FirstMarker(s) == Some(m) && CloseOf(s, m) == Some(close)
    ensures FitsSpan(Marked(m.strong, s[m.index + Length(m.strong)..close]))
  {
    var start := m.index + Length(m.strong);
    var t := s[start..close];
    IndexIsFirst(s, m.strong, start);
    forall j: nat ensures !MarkerAt(t, m.strong, j) {
      assert start + j < close ==> !MarkerAt(s, m.strong, start + j);
    }
    if m.strong && t != "" {
      assert !MarkerAt(s, true, close - 1);
    }
    NoneAt(t, m.strong);
  }

  /** Every parse result is canonical: no neighbouring texts, no marker inside its own span, no span left in a text. */
  lemma {:induction false} ParsedIsCanonical(s: string)
    ensures CanonicalTail(Segments(s)) && Canonical(Parse(s))
    decreases |s|
  {
    if HasSpan(s) {
      var m := FirstMarker(s).value;
      var close := CloseOf(s, m).value;
      var n := Length(m.strong);
      ParsedIsCanonical(s[close + n..]);
      ContentFits(s, m, close);
      var g, more := Marked(m.strong, s[m.index + n..close]), Segments(s[close + n..]);
      assert ([g] + more)[1..] == more;
      assert CanonicalTail([g] + more);
      if m.index > 0 {
        BeforeFits(s, m, g);
        var t := Text(s[..m.index]);
        assert ([t] + ([g] + more))[1..] == [g] + more;
        assert Segments(s) == [t] + ([g] + more);
      } else {
        assert Segments(s) == [g] + more;
      }
    }
  }

  /** Printing is a bijection from canonical segment lists to texts, and parsing is its inverse. */
  lemma ParseInvertsPrint(segments: seq<Segment>, s: string)
    requires Canonical(segments)
    ensures Print(segments) == s <==> segments == Parse(s)
  {
    PrintParsed(s);
    PrintCons(Text(""), []);
    assert [Text("")] + [] == [Text("")];
    if segments != [Text("")] {
      ParsePrinted(segments);
    }
  }
}
