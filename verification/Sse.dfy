/**
 The trace event stream: the server's generator, the wire format, and the browser's incremental reader.
 The wire text is ASCII, so one character stands for one byte; a read may cut the stream anywhere.
 */
module Sse {
  import opened Options

  // ---------------------------------------------------------------- frames

  predicate BreakAt(s: string, i: nat) {
    i + 1 < |s| && s[i] == '\n' && s[i + 1] == '\n'
  }

  /** `indexOf('\n\n')` from a position; the length stands for "not found". */
  function FindBreak(s: string, from: nat): (i: nat)
    requires from <= |s|
    ensures from <= i <= |s| && (i < |s| ==> BreakAt(s, i))
    ensures forall k | from <= k < i :: !BreakAt(s, k)
    decreases |s| - from
  {
    if from == |s| then |s| else if BreakAt(s, from) then from else FindBreak(s, from + 1)
  }

  datatype Extraction = Extraction(frames: seq<string>, rest: string)

  /** The complete frames of a text and the incomplete remainder. */
  function Extract(s: string): Extraction
    decreases |s|
  {
    var i := FindBreak(s, 0);
    if i == |s| then Extraction([], s)
    else
      var tail := Extract(s[i + 2..]);
      Extraction([s[..i]] + tail.frames, tail.rest)
  }

  lemma BreakSurvives(a: string, b: string)
    requires FindBreak(a, 0) < |a|
    ensures FindBreak(a + b, 0) == FindBreak(a, 0)
  {
    var i := FindBreak(a, 0);
    assert BreakAt(a + b, i);
    assert forall k | 0 <= k < i :: BreakAt(a + b, k) ==> BreakAt(a, k);
    var j := FindBreak(a + b, 0);
    assert j <= i;
  }

  lemma BreakSplits(a: string, b: string, i: nat)
    requires i + 2 <= |a|
    ensures (a + b)[..i] == a[..i] && (a + b)[i + 2..] == a[i + 2..] + b
  {}

  /** Continue an extraction with more input. */
  function Feed(soFar: Extraction, more: string): Extraction {
    var next := Extract(soFar.rest + more);
    Extraction(soFar.frames + next.frames, next.rest)
  }

  lemma FeedCons(frame: string, soFar: Extraction, more: string)
    ensures Feed(Extraction([frame] + soFar.frames, soFar.rest), more)
            == Extraction([frame] + Feed(soFar, more).frames, Feed(soFar, more).rest)
  {}

  /** Frames already extracted never depend on what arrives later. */
  lemma {:induction false} ExtractAppend(a: string, b: string)
    ensures Extract(a + b) == Feed(Extract(a), b)
    decreases |a|
  {
    var i := FindBreak(a, 0);
    if i < |a| {
      BreakSurvives(a, b);
      BreakSplits(a, b, i);
      ExtractAppend(a[i + 2..], b);
      FeedCons(a[..i], Extract(a[i + 2..]), b);
    }
  }

  function Concat(parts: seq<string>): string {
    if parts == [] then "" else Concat(parts[..|parts| - 1]) + parts[|parts| - 1]
  }

  // ---------------------------------------------------------------- one frame

  function FindChar(s: string, c: char, from: nat): (i: nat)
    requires from <= |s|
    ensures from <= i <= |s| && (i < |s| ==> s[i] == c)
    ensures forall k | from <= k < i :: s[k] != c
    decreases |s| - from
  {
    if from == |s| || s[from] == c then from else FindChar(s, c, from + 1)
  }

  /** `split('\n')`. */
  function Lines(s: string): seq<string>
    decreases |s|
  {
    var i := FindChar(s, '\n', 0);
    if i == |s| then [s] else [s[..i]] + Lines(s[i + 1..])
  }

  datatype Message = Message(event: string, data: string)

  /** Fields collected so far. */
  datatype Fields = Fields(event: string, dataLines: seq<string>)

  function DropOneSpace(s: string): string {
    if s != "" && s[0] == ' ' then s[1..] else s
  }

  function TakeLine(fields: Fields, raw: string): Fields {
    if raw == "" || raw[0] == ':' then fields
    else
      var i := FindChar(raw, ':', 0);
      if i == |raw| then fields
      else
        var value := DropOneSpace(raw[i + 1..]);
        if raw[..i] == "event" then fields.(event := value)
        else if raw[..i] == "data" then fields.(dataLines := fields.dataLines + [value])
        else fields
  }

  function TakeLines(fields: Fields, lines: seq<string>): Fields
    decreases |lines|
  {
    if lines == [] then fields else TakeLines(TakeLine(fields, lines[0]), lines[1..])
  }

  function JoinLines(lines: seq<string>): string {
    if lines == [] then "" else if |lines| == 1 then lines[0]
    else lines[0] + "\n" + JoinLines(lines[1..])
  }

  function Finish(fields: Fields): Option<Message> {
    if fields.dataLines == [] && fields.event == "message" then None
    else Some(Message(fields.event, JoinLines(fields.dataLines)))
  }

  function ParseSpec(frame: string): Option<Message> {
    Finish(TakeLines(Fields("message", []), Lines(frame)))
  }

  method ParseSseFrame(frame: string) returns (message: Option<Message>)
    ensures message == ParseSpec(frame)
  {
    var lines := Lines(frame);
    var event, dataLines := "message", [];
    var n := 0;
    while n < |lines|
      invariant 0 <= n <= |lines|
      invariant TakeLines(Fields("message", []), lines) == TakeLines(Fields(event, dataLines), lines[n..])
    {
      var raw := lines[n];
      n := n + 1;
      if raw == "" || raw[0] == ':' { continue; }
      var i := FindChar(raw, ':', 0);
      if i == |raw| { continue; }
      var field := raw[..i];
      var value := DropOneSpace(raw[i + 1..]);
      if field == "event" { event := value; }
      else if field == "data" { dataLines := dataLines + [value]; }
    }
    if dataLines == [] && event == "message" { return None; }
    return Some(Message(event, JoinLines(dataLines)));
  }

  // ---------------------------------------------------------------- print and parse

  const KEEPALIVE := ": waiting-for-session"

  function Print(event: string, data: string): string {
    "event: " + event + "\ndata: " + data
  }

  predicate OneLine(s: string) { '\n' !in s }

  lemma LinesOfOneLine(s: string)
    requires OneLine(s)
    ensures Lines(s) == [s]
  {}

  lemma LinesCons(line: string, rest: string)
    requires OneLine(line)
    ensures Lines(line + "\n" + rest) == [line] + Lines(rest)
  {
    var s := line + "\n" + rest;
    assert s[|line|] == '\n';
    assert forall k | 0 <= k < |line| :: s[k] == line[k];
    var i := FindChar(s, '\n', 0);
    assert i == |line|;
    assert s[..i] == line && s[i + 1..] == rest;
  }

  lemma TakeEventLine(fields: Fields, event: string)
    ensures TakeLine(fields, "event: " + event) == fields.(event := event)
  {
    var raw := "event: " + event;
    assert raw[5] == ':' && forall k | 0 <= k < 5 :: raw[k] != ':';
    assert FindChar(raw, ':', 0) == 5;
    assert raw[..5] == "event" && raw[6..] == " " + event && (" " + event)[1..] == event;
  }

  lemma TakeDataLine(fields: Fields, data: string)
    ensures TakeLine(fields, "data: " + data) == fields.(dataLines := fields.dataLines + [data])
  {
    var raw := "data: " + data;
    assert raw[4] == ':' && forall k | 0 <= k < 4 :: raw[k] != ':';
    assert FindChar(raw, ':', 0) == 4;
    assert raw[..4] == "data" && raw[5..] == " " + data && (" " + data)[1..] == data;
  }

  lemma TwoLines(fields: Fields, first: string, second: string)
    ensures TakeLines(fields, [first] + [second]) == TakeLine(TakeLine(fields, first), second)
  {
    assert ([first] + [second])[1..] == [second];
    assert [second][1..] == [];
    assert TakeLines(TakeLine(fields, first), [second]) == TakeLine(TakeLine(fields, first), second);
  }

  /** What the server prints for one-line values, the reader parses back. */
  lemma PrintParse(event: string, data: string)
    requires OneLine(event) && OneLine(data)
    ensures ParseSpec(Print(event, data)) == Some(Message(event, data))
  {
    var first, second := "event: " + event, "data: " + data;
    assert Print(event, data) == first + "\n" + second;
    LinesCons(first, second);
    LinesOfOneLine(second);
    TwoLines(Fields("message", []), first, second);
    TakeEventLine(Fields("message", []), event);
    TakeDataLine(Fields(event, []), data);
    assert [] + [data] == [data];
  }

  lemma KeepaliveIsNothing()
    ensures ParseSpec(KEEPALIVE) == None
  {
    LinesOfOneLine(KEEPALIVE);
    assert [KEEPALIVE][1..] == [];
  }

  // ---------------------------------------------------------------- several data lines

  predicate AllOneLine(lines: seq<string>) { forall i | 0 <= i < |lines| :: OneLine(lines[i]) }

  lemma {:induction false} LinesOfJoined(lines: seq<string>)
    requires lines != [] && AllOneLine(lines)
    ensures Lines(JoinLines(lines)) == lines
  {
    if |lines| == 1 {
      LinesOfOneLine(lines[0]);
    } else {
      hide Lines, JoinLines;
      LinesOfJoined(lines[1..]);
      JoinedCons(lines);
      LinesCons(lines[0], JoinLines(lines[1..]));
    }
  }

  lemma JoinedCons(lines: seq<string>)
    requires |lines| > 1
    ensures JoinLines(lines) == lines[0] + "\n" + JoinLines(lines[1..])
  {}

  function DataLines(lines: seq<string>): seq<string> {
    seq(|lines|, i requires 0 <= i < |lines| => "data: " + lines[i])
  }

  lemma {:induction false} TakeDataLines(fields: Fields, lines: seq<string>)
    ensures TakeLines(fields, DataLines(lines)) == fields.(dataLines := fields.dataLines + lines)
    decreases |lines|
  {
    hide TakeLine;
    if lines != [] {
      TakeDataLine(fields, lines[0]);
      TakeDataLines(fields.(dataLines := fields.dataLines + [lines[0]]), lines[1..]);
      assert DataLines(lines)[1..] == DataLines(lines[1..]);
      assert fields.dataLines + [lines[0]] + lines[1..] == fields.dataLines + lines;
    }
  }

  /**
   An event line and any number of data lines parse to the event and the data, line by line; only the default event
   without any data is nothing.
   */
  lemma EventAndDataParse(event: string, lines: seq<string>)
    requires OneLine(event) && AllOneLine(lines)
    ensures var parsed := ParseSpec(JoinLines(["event: " + event] + DataLines(lines)));
            && (parsed == None <==> lines == [] && event == "message")
            && (parsed.Some? ==> parsed.value.event == event
                                 && if lines == [] then parsed.value.data == "" else Lines(parsed.value.data) == lines)
  {
    var all, none := ["event: " + event] + DataLines(lines), Fields("message", []);
    assert AllOneLine(all);
    LinesOfJoined(all);
    assert all[0] == "event: " + event && all[1..] == DataLines(lines);
    TakeEventLine(none, event);
    TakeDataLines(Fields(event, []), lines);
    assert [] + lines == lines;
    if lines != [] { LinesOfJoined(lines); }
    hide Lines, TakeLine;
  }

  // ---------------------------------------------------------------- and only one-line values survive

  lemma {:induction false} LinesAreOneLine(s: string)
    ensures forall i | 0 <= i < |Lines(s)| :: OneLine(Lines(s)[i])
    decreases |s|
  {
    var i := FindChar(s, '\n', 0);
    if i < |s| { LinesAreOneLine(s[i + 1..]); }
  }

  lemma {:induction false} EventIsOneLine(fields: Fields, lines: seq<string>)
    requires OneLine(fields.event) && forall i | 0 <= i < |lines| :: OneLine(lines[i])
    ensures OneLine(TakeLines(fields, lines).event)
    decreases |lines|
  {
    if lines != [] { EventIsOneLine(TakeLine(fields, lines[0]), lines[1..]); }
  }

  /** Total length, one more per line. */
  function Size(lines: seq<string>): nat {
    if lines == [] then 0 else |lines[0]| + 1 + Size(lines[1..])
  }

  lemma {:induction false} LinesSize(s: string)
    ensures Size(Lines(s)) == |s| + 1
    decreases |s|
  {
    var i := FindChar(s, '\n', 0);
    if i < |s| {
      LinesSize(s[i + 1..]);
      assert ([s[..i]] + Lines(s[i + 1..]))[1..] == Lines(s[i + 1..]);
    } else {
      assert [s][1..] == [];
    }
  }

  lemma {:induction false} JoinedSize(lines: seq<string>)
    requires lines != []
    ensures |JoinLines(lines)| + 1 == Size(lines)
  {
    if |lines| > 1 { JoinedSize(lines[1..]); } else { assert lines[1..] == []; }
  }

  lemma {:induction false} SizeAppend(lines: seq<string>, line: string)
    ensures Size(lines + [line]) == Size(lines) + |line| + 1
  {
    if lines == [] {
      assert [line][1..] == [] && [] + [line] == [line];
    } else {
      SizeAppend(lines[1..], line);
      assert (lines + [line])[1..] == lines[1..] + [line];
    }
  }

  /** A parsed data line is shorter than the line it came from. */
  lemma {:induction false} DataShrinks(fields: Fields, lines: seq<string>)
    ensures Size(TakeLines(fields, lines).dataLines) + |lines| <= Size(fields.dataLines) + Size(lines)
    decreases |lines|
  {
    if lines != [] {
      var next := TakeLine(fields, lines[0]);
      if next.dataLines != fields.dataLines {
        SizeAppend(fields.dataLines, next.dataLines[|fields.dataLines|]);
        assert next.dataLines == fields.dataLines + [next.dataLines[|fields.dataLines|]];
      }
      DataShrinks(next, lines[1..]);
    }
  }

  /** A frame whose data breaks after `d0` parses the rest of the data as lines of its own. */
  lemma BrokenDataParses(event: string, d0: string, rest: string)
    requires OneLine(event) && OneLine(d0)
    ensures TakeLines(Fields("message", []), Lines(Print(event, d0 + "\n" + rest)))
            == TakeLines(Fields(event, [d0]), Lines(rest))
  {
    var data := d0 + "\n" + rest;
    var first, second, third := "event: " + event, "data: " + d0, Lines(rest);
    assert Print(event, data) == first + "\n" + ("data: " + data);
    assert "data: " + data == second + "\n" + rest;
    LinesCons(first, "data: " + data);
    LinesCons(second, rest);
    TakeEventLine(Fields("message", []), event);
    TakeDataLine(Fields(event, []), d0);
    var lines := Lines(Print(event, data));
    assert lines[1..] == [second] + third && ([second] + third)[1..] == third;
    hide Lines, TakeLine;
    assert TakeLines(Fields("message", []), lines) == TakeLines(Fields(event, []), [second] + third);
    assert [] + [d0] == [d0];
  }

  lemma MultiLineDataIsLost(event: string, data: string)
    requires OneLine(event) && !OneLine(data)
    ensures ParseSpec(Print(event, data)) != Some(Message(event, data))
  {
    var i := FindChar(data, '\n', 0);
    var d0, rest := data[..i], data[i + 1..];
    assert data == d0 + "\n" + rest;
    BrokenDataParses(event, d0, rest);
    var middle, third := Fields(event, [d0]), Lines(rest);
    hide Lines, TakeLine, Size, JoinLines, FindChar;
    DataShrinks(middle, third);
    LinesSize(rest);
    SizeAppend([], d0);
    assert [] + [d0] == [d0];
    var parsed := TakeLines(middle, third);
    if parsed.dataLines != [] { JoinedSize(parsed.dataLines); }
  }

  /** Parsing gives back exactly what was printed if and only if both values are single lines. */
  lemma RoundTripIffOneLine(event: string, data: string)
    ensures ParseSpec(Print(event, data)) == Some(Message(event, data)) <==> OneLine(event) && OneLine(data)
  {
    if OneLine(event) {
      if OneLine(data) { PrintParse(event, data); } else { MultiLineDataIsLost(event, data); }
    } else {
      LinesAreOneLine(Print(event, data));
      EventIsOneLine(Fields("message", []), Lines(Print(event, data)));
    }
  }
}
