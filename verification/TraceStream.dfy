/** The trace stream end to end: what the server generates and what the browser shows, for any cut of the bytes. */
module TraceStream {
  import opened Options
  import opened Sse

  /** The session status; every status that is not terminal is `Open`. */
  datatype Status = Open | Completed | Abstained | Failed

  /** A trace snapshot: its session status and the rest of it. */
  datatype Trace = Trace(status: Status, body: nat)

  predicate Terminal(status: Status) {
    status.Completed? || status.Abstained? || status.Failed?
  }

  /** JSON is foreign code: a printer and a parser. */
  datatype Json = Json(dump: Trace -> string, parse: string -> Option<Trace>)
  {
    /** `json.dumps` writes one non-empty line and `JSON.parse` inverts it. */
    ghost predicate Faithful() {
      forall t :: parse(dump(t)) == Some(t) && OneLine(dump(t)) && dump(t) != ""
    }
  }

  // ---------------------------------------------------------------- the browser

  /** `shown` are the snapshots handed to the page; after `finished` the reader has returned. */
  datatype View = View(shown: seq<Trace>, receivedFrame: bool, finished: bool)

  function HandleMessage(json: Json, view: View, message: Message): View {
    var seen := view.(receivedFrame := true);
    if message.event == "trace" && message.data != "" then
      match json.parse(message.data)
      case None => seen
      case Some(trace) => View(view.shown + [trace], true, Terminal(trace.status))
    else if message.event == "done" || message.event == "timeout" then seen.(finished := true)
    else seen
  }

  function HandleFrame(json: Json, view: View, frame: string): View {
    if view.finished then view
    else match ParseSpec(frame)
      case None => view
      case Some(message) => HandleMessage(json, view, message)
  }

  function HandleAll(json: Json, view: View, frames: seq<string>): View
    decreases |frames|
  {
    if frames == [] then view else HandleAll(json, HandleFrame(json, view, frames[0]), frames[1..])
  }

  lemma {:induction false} HandleAppend(json: Json, view: View, a: seq<string>, b: seq<string>)
    ensures HandleAll(json, view, a + b) == HandleAll(json, HandleAll(json, view, a), b)
    decreases |a|
  {
    if a == [] {
      assert a + b == b;
    } else {
      assert (a + b)[1..] == a[1..] + b;
      HandleAppend(json, HandleFrame(json, view, a[0]), a[1..], b);
    }
  }

  lemma {:induction false} FinishedStays(json: Json, view: View, frames: seq<string>)
    requires view.finished
    ensures HandleAll(json, view, frames) == view
    decreases |frames|
  {
    if frames != [] { FinishedStays(json, view, frames[1..]); }
  }

  const NOTHING_YET := View([], false, false)

  /** What the page shows after a whole text, whatever reads it came in. */
  function ViewOf(json: Json, text: string): View {
    HandleAll(json, NOTHING_YET, Extract(text).frames)
  }

  lemma FinishedViewStays(json: Json, a: string, b: string)
    requires ViewOf(json, a).finished
    ensures ViewOf(json, a + b) == ViewOf(json, a)
  {
    ExtractAppend(a, b);
    var more := Extract(Extract(a).rest + b).frames;
    HandleAppend(json, NOTHING_YET, Extract(a).frames, more);
    FinishedStays(json, ViewOf(json, a), more);
  }

  class Reader {
    const json: Json
    var buffer: string
    var view: View

    constructor (json: Json)
      ensures this.json == json && buffer == "" && view == NOTHING_YET
    {
      this.json, buffer, view := json, "", NOTHING_YET;
    }

    /** One `read()`: append to the buffer and handle every frame completed by it, until one ends the stream. */
    method OnRead(text: string)
      requires !view.finished
      modifies this
      ensures view == HandleAll(json, old(view), Extract(old(buffer) + text).frames)
      ensures !view.finished ==> buffer == Extract(old(buffer) + text).rest
    {
      buffer := buffer + text;
      var sep := FindBreak(buffer, 0);
      while sep != |buffer|
        invariant sep == FindBreak(buffer, 0) && !view.finished
        invariant Extract(old(buffer) + text).rest == Extract(buffer).rest
        invariant HandleAll(json, old(view), Extract(old(buffer) + text).frames) == HandleAll(json, view, Extract(buffer).frames)
        decreases |buffer|
      {
        var frame := buffer[..sep];
        ghost var later := Extract(buffer[sep + 2..]);
        assert Extract(buffer).frames[1..] == later.frames;
        buffer := buffer[sep + 2..];
        var parsed := ParseSseFrame(frame);
        if parsed.Some? {
          view := HandleMessage(json, view, parsed.value);
          if view.finished {
            FinishedStays(json, view, later.frames);
            return;
          }
        }
        sep := FindBreak(buffer, 0);
      }
    }
  }

  /** The whole reader loop. */
  method ConsumeSse(json: Json, pieces: seq<string>) returns (view: View)
    ensures view == ViewOf(json, Concat(pieces))
  {
    var reader := new Reader(json);
    var n := 0;
    assert Extract("") == Extraction([], "");
    while n < |pieces|
      invariant 0 <= n <= |pieces| && reader.json == json && !reader.view.finished
      invariant reader.view == ViewOf(json, Concat(pieces[..n]))
      invariant reader.buffer == Extract(Concat(pieces[..n])).rest
    {
      ghost var before := Concat(pieces[..n]);
      ghost var rest := reader.buffer;
      assert pieces[..n + 1][..n] == pieces[..n];
      ExtractAppend(before, pieces[n]);
      HandleAppend(json, NOTHING_YET, Extract(before).frames, Extract(rest + pieces[n]).frames);
      reader.OnRead(pieces[n]);
      n := n + 1;
      if reader.view.finished {
        ConcatSplit(pieces, n);
        FinishedViewStays(json, Concat(pieces[..n]), Concat(pieces[n..]));
        return reader.view;
      }
    }
    assert pieces[..n] == pieces;
    view := reader.view;
  }

  lemma {:induction false} ConcatSplit(parts: seq<string>, n: nat)
    requires n <= |parts|
    ensures Concat(parts) == Concat(parts[..n]) + Concat(parts[n..])
  {
    if n == |parts| {
      assert parts[..n] == parts && parts[n..] == [];
    } else {
      var init := parts[..|parts| - 1];
      ConcatSplit(init, n);
      assert init[..n] == parts[..n] && parts[n..][..|parts[n..]| - 1] == init[n..];
    }
  }

  // ---------------------------------------------------------------- the server

  const SSE_MAX_TICKS := 60
  const TIMEOUT_DATA := "{\"reason\":\"max-ticks-exceeded\"}"

  /** What the generator yields. */
  datatype Sent = Keepalive | Snapshot(trace: Trace) | Done | TimedOut

  /** A yielded frame, without its terminating blank line. */
  function FrameOf(json: Json, sent: Sent): string {
    match sent
    case Keepalive => KEEPALIVE
    case Snapshot(trace) => Print("trace", json.dump(trace))
    case Done => Print("done", "{}")
    case TimedOut => Print("timeout", TIMEOUT_DATA)
  }

  function Frames(json: Json, sent: seq<Sent>): seq<string> {
    if sent == [] then [] else [FrameOf(json, sent[0])] + Frames(json, sent[1..])
  }

  function Wire(frames: seq<string>): string {
    if frames == [] then "" else frames[0] + "\n\n" + Wire(frames[1..])
  }

  /** The events from tick `t` on; `polls[t]` is the row the poll at tick `t` finds, `None` while it is not visible. */
  function EventsFrom(polls: seq<Option<Trace>>, t: nat): seq<Sent>
    requires t <= |polls|
    decreases |polls| - t
  {
    if t == |polls| then [TimedOut]
    else if polls[t].None? then [Keepalive] + EventsFrom(polls, t + 1)
    else if Terminal(polls[t].value.status) then [Snapshot(polls[t].value), Done]
    else [Snapshot(polls[t].value)] + EventsFrom(polls, t + 1)
  }

  /** The generator loop: sixty polls at most. */
  method EventGen(polls: seq<Option<Trace>>) returns (sent: seq<Sent>)
    requires |polls| == 60
    ensures sent == EventsFrom(polls, 0)
  {
    sent := [];
    var tick := 0;
    while tick < SSE_MAX_TICKS
      invariant 0 <= tick <= |polls|
      invariant sent + EventsFrom(polls, tick) == EventsFrom(polls, 0)
    {
      if polls[tick].None? {
        sent := sent + [Keepalive];
      } else {
        sent := sent + [Snapshot(polls[tick].value)];
        if Terminal(polls[tick].value.status) {
          sent := sent + [Done];
          return;
        }
      }
      tick := tick + 1;
    }
    sent := sent + [TimedOut];
  }

  // ---------------------------------------------------------------- the wire

  /** No blank line inside or at the end, so the frame's own terminator is the first break. */
  predicate Clean(frame: string) {
    forall i | 0 <= i < |frame| && frame[i] == '\n' :: i + 1 < |frame| && frame[i + 1] != '\n'
  }

  predicate AllClean(frames: seq<string>) {
    forall i | 0 <= i < |frames| :: Clean(frames[i])
  }

  lemma CleanFrameFound(frame: string, rest: string)
    requires Clean(frame)
    ensures var s := frame + "\n\n" + rest;
            FindBreak(s, 0) == |frame| && s[..|frame|] == frame && s[|frame| + 2..] == rest
  {
    var s := frame + "\n\n" + rest;
    assert forall k | 0 <= k < |frame| :: s[k] == frame[k];
    assert s[|frame|] == '\n' && s[|frame| + 1] == '\n';
    assert BreakAt(s, |frame|);
    assert forall k | 0 <= k < |frame| :: !BreakAt(s, k);
    var i := FindBreak(s, 0);
    assert i <= |frame|;
  }

  /** The reader extracts exactly the frames that were written. */
  lemma {:induction false} WireExtracts(frames: seq<string>)
    requires AllClean(frames)
    ensures Extract(Wire(frames)) == Extraction(frames, "")
  {
    if frames == [] {
      assert FindBreak("", 0) == 0;
    } else {
      CleanFrameFound(frames[0], Wire(frames[1..]));
      WireExtracts(frames[1..]);
      assert [frames[0]] + frames[1..] == frames;
    }
  }

  lemma PrintIsClean(event: string, data: string)
    requires OneLine(event) && OneLine(data)
    ensures Clean(Print(event, data))
  {
    var head, tail := "event: " + event, "data: " + data;
    var s := head + "\n" + tail;
    assert s == Print(event, data);
    assert OneLine(head) && OneLine(tail) && tail[0] == 'd';
    assert s[|head| + 1] == tail[0];
    assert forall i | 0 <= i < |head| :: s[i] == head[i];
    assert forall i | 0 <= i < |tail| :: s[|head| + 1 + i] == tail[i];
  }

  lemma FrameIsClean(json: Json, sent: Sent)
    requires json.Faithful()
    ensures Clean(FrameOf(json, sent))
  {
    match sent
    case Keepalive =>
    case Snapshot(trace) => OneLineDump(json, trace); PrintIsClean("trace", json.dump(trace));
    case Done => PrintIsClean("done", "{}");
    case TimedOut => PrintIsClean("timeout", TIMEOUT_DATA);
  }

  lemma OneLineDump(json: Json, trace: Trace)
    requires json.Faithful()
    ensures json.parse(json.dump(trace)) == Some(trace) && OneLine(json.dump(trace)) && json.dump(trace) != ""
  {}

  lemma {:induction false} FramesAreClean(json: Json, sent: seq<Sent>)
    requires json.Faithful()
    ensures AllClean(Frames(json, sent))
  {
    if sent != [] {
      FrameIsClean(json, sent[0]);
      FramesAreClean(json, sent[1..]);
    }
  }

  // ---------------------------------------------------------------- end to end

  /** The snapshots from tick `t` on, up to and including the first terminal one. */
  function Snapshots(polls: seq<Option<Trace>>, t: nat): seq<Trace>
    requires t <= |polls|
    decreases |polls| - t
  {
    if t == |polls| then []
    else if polls[t].None? then Snapshots(polls, t + 1)
    else if Terminal(polls[t].value.status) then [polls[t].value]
    else [polls[t].value] + Snapshots(polls, t + 1)
  }

  /** Tick `t` finds the row, and no earlier tick from `from` on found it settled. */
  predicate Polled(polls: seq<Option<Trace>>, from: nat, t: nat) {
    from <= t < |polls| && polls[t].Some? && forall u | from <= u < t && polls[u].Some? :: polls[u].value.status == Open
  }

  /** `shown` lists what was found at `ticks`: exactly the ticks that count, in order. */
  ghost predicate FoundAt(polls: seq<Option<Trace>>, from: nat, ticks: seq<nat>, shown: seq<Trace>) {
    && |shown| == |ticks|
    && (forall k | 0 <= k < |ticks| :: Polled(polls, from, ticks[k]) && shown[k] == polls[ticks[k]].value)
    && (forall j, k | 0 <= j < k < |ticks| :: ticks[j] < ticks[k])
    && (forall t | Polled(polls, from, t) :: t in ticks)
  }

  /** One more tick in front matters only if it finds the row. */
  lemma PolledSooner(polls: seq<Option<Trace>>, from: nat, t: nat)
    requires from < |polls| && (polls[from].Some? ==> polls[from].value.status == Open)
    ensures Polled(polls, from, t) <==> Polled(polls, from + 1, t) || (t == from && polls[from].Some?)
  {
    if Polled(polls, from + 1, t) {
      assert forall u | from <= u < t && polls[u].Some? :: u == from || from + 1 <= u;
    }
  }

  lemma FoundSooner(polls: seq<Option<Trace>>, from: nat, later: seq<nat>, shown: seq<Trace>)
    requires from < |polls| && FoundAt(polls, from + 1, later, shown)
    requires polls[from].Some? ==> polls[from].value.status == Open
    ensures polls[from].None? ==> FoundAt(polls, from, later, shown)
    ensures polls[from].Some? ==> FoundAt(polls, from, [from] + later, [polls[from].value] + shown)
  {
    assert forall k | 0 <= k < |later| :: Polled(polls, from + 1, later[k]) && from < later[k];
    hide Polled;
    forall t ensures Polled(polls, from, t) <==> Polled(polls, from + 1, t) || (t == from && polls[from].Some?) {
      PolledSooner(polls, from, t);
    }
  }

  lemma FoundSettled(polls: seq<Option<Trace>>, from: nat)
    requires from < |polls| && polls[from].Some? && polls[from].value.status != Open
    ensures FoundAt(polls, from, [from], [polls[from].value])
  {
    forall t | Polled(polls, from, t) ensures t == from {}
  }

  /** What is shown is what the polls found, up to the first settled status, each once and in order. */
  lemma {:induction false} SnapshotsAreFound(polls: seq<Option<Trace>>, from: nat)
    requires from <= |polls|
    ensures exists ticks :: FoundAt(polls, from, ticks, Snapshots(polls, from))
    decreases |polls| - from
  {
    if from == |polls| {
      assert FoundAt(polls, from, [], Snapshots(polls, from));
    } else if polls[from].Some? && polls[from].value.status != Open {
      FoundSettled(polls, from);
      assert FoundAt(polls, from, [from], Snapshots(polls, from));
    } else {
      hide Polled, FoundAt;
      SnapshotsAreFound(polls, from + 1);
      var later :| FoundAt(polls, from + 1, later, Snapshots(polls, from + 1));
      FoundSooner(polls, from, later, Snapshots(polls, from + 1));
      assert FoundAt(polls, from, if polls[from].None? then later else [from] + later, Snapshots(polls, from));
    }
  }

  /** The effect of one yielded event on the page. */
  function After(view: View, sent: Sent): View {
    if view.finished then view
    else match sent
      case Keepalive => view
      case Snapshot(trace) => View(view.shown + [trace], true, Terminal(trace.status))
      case Done => view.(receivedFrame := true, finished := true)
      case TimedOut => view.(receivedFrame := true, finished := true)
  }

  function AfterAll(view: View, sent: seq<Sent>): View
    decreases |sent|
  {
    if sent == [] then view else AfterAll(After(view, sent[0]), sent[1..])
  }

  lemma HandleSent(json: Json, view: View, sent: Sent)
    requires json.Faithful()
    ensures HandleFrame(json, view, FrameOf(json, sent)) == After(view, sent)
  {
    match sent
    case Keepalive => KeepaliveIsNothing();
    case Snapshot(trace) => HandleSnapshot(json, view, trace);
    case Done => PrintParse("done", "{}");
    case TimedOut => TimeoutIsOneLine(); PrintParse("timeout", TIMEOUT_DATA);
  }

  lemma TimeoutIsOneLine()
    ensures OneLine(TIMEOUT_DATA)
  {}

  lemma HandleSnapshot(json: Json, view: View, trace: Trace)
    requires json.Faithful()
    ensures HandleFrame(json, view, FrameOf(json, Snapshot(trace))) == After(view, Snapshot(trace))
  {
    OneLineDump(json, trace);
    PrintParse("trace", json.dump(trace));
  }

  lemma {:induction false} HandleAllSent(json: Json, view: View, sent: seq<Sent>)
    requires json.Faithful()
    ensures HandleAll(json, view, Frames(json, sent)) == AfterAll(view, sent)
    decreases |sent|
  {
    if sent != [] {
      HandleSent(json, view, sent[0]);
      HandleAllSent(json, After(view, sent[0]), sent[1..]);
      FirstFrame(json, view, sent);
    }
  }

  lemma FirstFrame(json: Json, view: View, sent: seq<Sent>)
    requires sent != []
    ensures HandleAll(json, view, Frames(json, sent))
            == HandleAll(json, HandleFrame(json, view, FrameOf(json, sent[0])), Frames(json, sent[1..]))
  {
    assert Frames(json, sent)[1..] == Frames(json, sent[1..]);
  }

  predicate Ends(view: View, shown: seq<Trace>) {
    view.finished && view.shown == shown
  }

  lemma {:induction false} ShownAre(view: View, polls: seq<Option<Trace>>, t: nat)
    requires !view.finished && t <= |polls|
    ensures Ends(AfterAll(view, EventsFrom(polls, t)), view.shown + Snapshots(polls, t))
    decreases |polls| - t
  {
    var sent := EventsFrom(polls, t);
    if t == |polls| {
      assert sent[1..] == [];
    } else if polls[t].None? {
      assert sent[1..] == EventsFrom(polls, t + 1);
      ShownAre(view, polls, t + 1);
    } else if Terminal(polls[t].value.status) {
      assert sent[1..] == [Done] && [Done][1..] == [];
    } else {
      assert sent[1..] == EventsFrom(polls, t + 1);
      ShownAre(After(view, sent[0]), polls, t + 1);
      assert view.shown + [polls[t].value] + Snapshots(polls, t + 1) == view.shown + Snapshots(polls, t);
    }
  }

  /**
   End to end, for every history of the session row and every cut of the byte stream: the page shows exactly
   the snapshots the server polled up to the first terminal one, in order, and the reader finishes.
   */
  lemma {:induction false} PageShowsWhatTheServerPolled(json: Json, polls: seq<Option<Trace>>, pieces: seq<string>)
    requires json.Faithful()
    requires Concat(pieces) == Wire(Frames(json, EventsFrom(polls, 0)))
    ensures ViewOf(json, Concat(pieces)).shown == Snapshots(polls, 0)
    ensures exists ticks :: FoundAt(polls, 0, ticks, ViewOf(json, Concat(pieces)).shown)
    ensures ViewOf(json, Concat(pieces)).finished
  {
    SnapshotsAreFound(polls, 0);
    FramesAreClean(json, EventsFrom(polls, 0));
    WireExtracts(Frames(json, EventsFrom(polls, 0)));
    HandleAllSent(json, NOTHING_YET, EventsFrom(polls, 0));
    ShownAre(NOTHING_YET, polls, 0);
  }
}
