/** Bounded reading of the provider's own response bytes, as JSON or as an event stream. The JSON
    decoder is a parameter: it answers None where the source's strict parser refuses. */
module WireEvidence {
  import opened Basics
  import opened LineEndings
  import opened EventStream
  import opened UsageGrammar
  import opened TerminalEvidence

  type Parser = Bytes -> Option<Json>

  datatype Format = OpenAi | Anthropic | Embedding
  datatype ContentType = JsonType | EventStreamType | OtherType

  const MAX_RESPONSE_BYTES: nat := 1_048_576
  const MAX_EMBEDDING_RESPONSE_BYTES: nat := 4 * 1_048_576

  function PathOf(format: Format): Path {
    match format
    case Anthropic => Messages
    case Embedding => Embeddings
    case OpenAi => ChatCompletions
  }

  function LimitOf(format: Format): nat {
    if format.Embedding? then MAX_EMBEDDING_RESPONSE_BYTES else MAX_RESPONSE_BYTES
  }

  // ---- One event --------------------------------------------------------------------------

  predicate White(b: Byte) {
    b == 9 || b == 10 || b == 11 || b == 12 || b == 13 || b == 32
  }

  function TrimLeft(s: Bytes): Bytes {
    if s != [] && White(s[0]) then TrimLeft(s[1..]) else s
  }

  function IndexOf(s: Bytes, b: Byte): (i: nat)
    ensures i <= |s| && (i < |s| ==> s[i] == b)
    ensures forall k :: 0 <= k < i ==> s[k] != b
  {
    if s == [] || s[0] == b then 0 else 1 + IndexOf(s[1..], b)
  }

  /** bytes.split(LF). */
  function Lines(s: Bytes): seq<Bytes>
    decreases |s|
  {
    var i := IndexOf(s, LF);
    if i == |s| then [s] else [s[..i]] + Lines(s[i + 1..])
  }

  const DATA: Bytes := [100, 97, 116, 97, 58]
  const DONE: Bytes := [91, 68, 79, 78, 69, 93]

  /** The values of the event's data lines, in order. */
  function DataLines(lines: seq<Bytes>): seq<Bytes> {
    if lines == [] then []
    else (if DATA <= lines[0] then [TrimLeft(lines[0][5..])] else []) + DataLines(lines[1..])
  }

  function JoinLines(lines: seq<Bytes>): Bytes {
    if lines == [] then [] else if |lines| == 1 then lines[0] else lines[0] + [LF] + JoinLines(lines[1..])
  }

  /** What is known between events: whether [DONE] was seen, and the usage evidence. */
  datatype Progress = Progress(done: bool, events: Evidence)

  function OnPayload(p: Progress, path: Path, parse: Parser, payload: Bytes): Option<Progress> {
    if p.done then None
    else if payload == DONE then
      if !path.ChatCompletions? || Result(p.events).None? then None else Some(p.(done := true))
    else
      var d := parse(payload);
      if d.None? then None
      else
        var e := Feed(p.events, path, d.value);
        if e.Poisoned? then None else Some(p.(events := e))
  }

  function OnEvent(path: Path, parse: Parser): (Progress, Bytes) -> Option<Progress> {
    (p: Progress, event: Bytes) =>
      var data := DataLines(Lines(event));
      if data == [] then Some(p) else OnPayload(p, path, parse, JoinLines(data))
  }

  // ---- The whole response -----------------------------------------------------------------

  datatype Wire = Wire(format: Format, sse: bool, reader: EventStream.Reader<Progress>)

  function StartWire(format: Format, content: ContentType, status: int): Wire {
    var sse := content.EventStreamType?;
    var refused := status != 200 || content.OtherType? || (format.Embedding? && sse);
    Wire(format, sse, EventStream.Reader(0, [], if refused then None else Some(Progress(false, Empty(PathOf(format))))))
  }

  function FeedWire(w: Wire, parse: Parser, raw: Bytes): Wire {
    if w.sse then w.(reader := FeedBytes(w.reader, LimitOf(w.format), OnEvent(PathOf(w.format), parse), raw))
    else if w.reader.state.None? then w
    else if w.reader.total + |raw| > LimitOf(w.format) then w.(reader := EventStream.Reader(w.reader.total + |raw|, [], None))
    else w.(reader := w.reader.(total := w.reader.total + |raw|, buffer := w.reader.buffer + raw))
  }

  predicate Blank(s: Bytes) {
    forall i :: 0 <= i < |s| ==> White(s[i])
  }

  /** The usage the response proves, if any. */
  function FinishWire(w: Wire, parse: Parser): Option<Usage> {
    if w.reader.state.None? then None
    else if w.sse then
      if !Blank(w.reader.buffer) || (w.format.OpenAi? && !w.reader.state.value.done) then None
      else Result(w.reader.state.value.events)
    else
      var d := parse(w.reader.buffer);
      if d.None? then None else NonStream(PathOf(w.format), d.value)
  }

  function FeedWires(w: Wire, parse: Parser, chunks: seq<Bytes>): Wire
    decreases |chunks|
  {
    if chunks == [] then w else FeedWire(FeedWires(w, parse, chunks[..|chunks| - 1]), parse, chunks[|chunks| - 1])
  }

  lemma {:induction false} StreamedWires(w: Wire, parse: Parser, chunks: seq<Bytes>)
    requires w.sse
    ensures FeedWires(w, parse, chunks)
         == w.(reader := EventStream.FeedChunks(w.reader, LimitOf(w.format), OnEvent(PathOf(w.format), parse), chunks))
    decreases |chunks|
  {
    if chunks != [] { StreamedWires(w, parse, chunks[..|chunks| - 1]); }
  }

  lemma {:induction false} PlainWires(w: Wire, parse: Parser, chunks: seq<Bytes>)
    requires !w.sse && w.reader.state.Some? && w.reader.total == 0 && w.reader.buffer == []
    ensures var r := FeedWires(w, parse, chunks).reader;
            if |Joined(chunks)| > LimitOf(w.format) then r.state == None && r.buffer == []
            else r == EventStream.Reader(|Joined(chunks)|, Joined(chunks), w.reader.state)
    ensures !FeedWires(w, parse, chunks).sse && FeedWires(w, parse, chunks).format == w.format
    decreases |chunks|
  {
    if chunks != [] { PlainWires(w, parse, chunks[..|chunks| - 1]); }
  }

  lemma {:induction false} RefusedWires(w: Wire, parse: Parser, chunks: seq<Bytes>)
    requires w.reader.state.None?
    ensures FeedWires(w, parse, chunks) == w
    decreases |chunks|
  {
    if chunks != [] { RefusedWires(w, parse, chunks[..|chunks| - 1]); }
  }

  /** For every response without CR CR LF, every way of cutting it into chunks proves the same
      usage: the size limit, CR LF pairs cut in two and [DONE] included. */
  lemma ChunkingDoesNotMatter(format: Format, content: ContentType, status: int, parse: Parser, chunks: seq<Bytes>)
    requires content.EventStreamType? ==> NoCrCrLf(Joined(chunks))
    ensures FinishWire(FeedWires(StartWire(format, content, status), parse, chunks), parse)
         == FinishWire(FeedWire(StartWire(format, content, status), parse, Joined(chunks)), parse)
  {
    var w := StartWire(format, content, status);
    if w.reader.state.None? {
      RefusedWires(w, parse, chunks);
      RefusedWires(w, parse, [Joined(chunks)]);
    } else if w.sse {
      StreamedWires(w, parse, chunks);
      ChunkingIndependence(w.reader.state.value, LimitOf(format), OnEvent(PathOf(format), parse), chunks);
    } else {
      PlainWires(w, parse, chunks);
      assert [] + Joined(chunks) == Joined(chunks);
    }
  }

  /** Draining the first event: keepalives pass, a payload is taken in or refused. */
  lemma DrainEvent(t: Bytes, p: Progress, path: Path, parse: Parser)
    requires FirstBlank(t) >= 0
    ensures var i := FirstBlank(t);
            var data := DataLines(Lines(t[..i]));
            var next := if data == [] then Some(p) else OnPayload(p, path, parse, JoinLines(data));
            Drain(t, p, OnEvent(path, parse)) == (if next.None? then ([], None) else Drain(t[i + 2..], next.value, OnEvent(path, parse)))
  {
  }

  // ---- The object the source keeps --------------------------------------------------------

  /** The mutable reader over the response bytes. */
  class WireReader {
    const format: Format
    const sse: bool
    const parse: Parser
    const events: TerminalEvidence.Reader
    var poisoned: bool
    var buffer: Bytes
    var total: nat
    var done: bool

    ghost predicate Valid()
      reads this, events
    {
      events.Valid() && events.path == PathOf(format)
    }

    function View(): Wire
      requires events.Valid()
      reads this, events
    {
      Wire(format, sse, EventStream.Reader(total, buffer, if poisoned then None else Some(Progress(done, events.View()))))
    }

    constructor (format: Format, content: ContentType, status: int, parse: Parser)
      ensures Valid() && fresh(events) && this.parse == parse && View() == StartWire(format, content, status)
    {
      this.format, this.parse := format, parse;
      sse := content.EventStreamType?;
      poisoned := status != 200 || content.OtherType? || (format.Embedding? && content.EventStreamType?);
      buffer, total, done := [], 0, false;
      events := new TerminalEvidence.Reader(PathOf(format));
    }

    method FeedRaw(raw: Bytes)
      requires Valid()
      modifies this, events
      ensures Valid() && View() == FeedWire(old(View()), parse, raw)
    {
      if poisoned { return; }
      total := total + |raw|;
      if total > LimitOf(format) { poisoned, buffer := true, []; return; }
      buffer := buffer + raw;
      if !sse { return; }
      buffer := Normal(buffer);
      DrainBuffer();
    }

    /** Handles every complete event in the buffer. */
    method DrainBuffer()
      requires Valid() && !poisoned
      modifies this`buffer, this`poisoned, this`done, events
      ensures Valid()
      ensures (buffer, View().reader.state)
           == Drain(old(buffer), old(Progress(done, events.View())), OnEvent(PathOf(format), parse))
    {
      var i := FirstBlank(buffer);
      while i >= 0
        invariant Valid() && !poisoned && i == FirstBlank(buffer)
        invariant Drain(buffer, Progress(done, events.View()), OnEvent(PathOf(format), parse))
               == Drain(old(buffer), old(Progress(done, events.View())), OnEvent(PathOf(format), parse))
        decreases |buffer|
      {
        var event := buffer[..i];
        DrainEvent(buffer, Progress(done, events.View()), PathOf(format), parse);
        buffer := buffer[i + 2..];
        i := FirstBlank(buffer);
        var data := DataLines(Lines(event));
        if data == [] { continue; }
        var refused := HandlePayload(JoinLines(data));
        if refused {
          poisoned, buffer := true, [];
          return;
        }
      }
    }

    /** Takes in one payload; a refusal leaves the caller to poison the reader. */
    method HandlePayload(payload: Bytes) returns (refused: bool)
      requires Valid()
      modifies this`done, events
      ensures Valid()
      ensures refused <==> OnPayload(old(Progress(done, events.View())), PathOf(format), parse, payload).None?
      ensures !refused ==> Some(Progress(done, events.View())) == OnPayload(old(Progress(done, events.View())), PathOf(format), parse, payload)
    {
      if done { return true; }
      if payload == DONE {
        if !PathOf(format).ChatCompletions? || events.FinalUsage().None? { return true; }
        done := true;
        return false;
      }
      var document := parse(payload);
      if document.None? { return true; }
      events.FeedDocument(document.value);
      return events.poisoned;
    }

    method Finish() returns (usage: Option<Usage>)
      requires Valid()
      ensures usage == FinishWire(View(), parse)
    {
      if poisoned { return None; }
      if sse {
        if !Blank(buffer) || (PathOf(format).ChatCompletions? && !done) { return None; }
        return events.FinalUsage();
      }
      var document := parse(buffer);
      return if document.None? then None else NonStream(PathOf(format), document.value);
    }
  }

  // ---- Why CR CR LF is excluded -----------------------------------------------------------

  /** `[DONE]` ended by CR CR LF CR CR LF, then one LF: cut before the last LF, the line endings are
      normalised twice and the marker is recognised. */
  const TAIL: Bytes := [CR, CR, LF, CR, CR, LF]

  lemma {:induction false} NoLfOneLine(s: Bytes)
    requires IndexOf(s, LF) == |s|
    ensures Lines(s) == [s]
  {
  }

  lemma DoneBytes()
    ensures |DATA + DONE| == 11 && IndexOf(DATA + DONE, LF) == 11 && Lines(DATA + DONE) == [DATA + DONE]
    ensures (DATA + DONE)[5..] == DONE && TrimLeft(DONE) == DONE
    ensures Normal(DATA + DONE) == DATA + DONE
  {
    var s := DATA + DONE;
    assert forall k :: 0 <= k < 11 ==> s[k] != LF && s[k] != CR;
    forall i | 0 <= i < |s| ensures !CrLfAt(s, i) {}
    NormalFixed(s);
  }

  lemma TwiceNormal()
    ensures Normal(TAIL) == [CR, LF, CR, LF]
    ensures Normal(TAIL + [LF]) == [CR, LF, CR, LF, LF]
    ensures Normal([CR, LF, CR, LF] + [LF]) == [LF, LF, LF]
  {
    assert TAIL[1..] == [CR, LF, CR, CR, LF] && TAIL[1..][2..] == [CR, CR, LF];
    var u := TAIL + [LF];
    assert u[1..] == [CR, LF, CR, CR, LF, LF] && u[1..][2..] == [CR, CR, LF, LF];
    assert Normal([CR, CR, LF, LF]) == [CR] + Normal([CR, LF, LF]) by { assert [CR, CR, LF, LF][1..] == [CR, LF, LF]; }
    assert Normal([CR, LF, LF]) == [LF] + Normal([LF]) by { assert [CR, LF, LF][2..] == [LF]; }
    assert Normal([CR, CR, LF]) == [CR] + Normal([CR, LF]) by { assert [CR, CR, LF][1..] == [CR, LF]; }
    assert Normal([CR, LF]) == [LF] + Normal([]) by { assert [CR, LF][2..] == []; }
    var v: Bytes := [CR, LF, CR, LF] + [LF];
    assert v[2..] == [CR, LF, LF];
  }

  lemma MarkerLine()
    ensures DataLines(Lines(DATA + DONE)) == [DONE]
  {
    DoneBytes();
    var lines: seq<Bytes> := [DATA + DONE];
    assert lines[1..] == [] && DataLines(lines[1..]) == [];
    assert DATA <= lines[0];
  }

  lemma MarkerCut(t: Bytes)
    requires t == DATA + DONE + [LF, LF, LF]
    ensures FirstBlank(t) == 11 && t[..11] == DATA + DONE && t[13..] == [LF] && FirstBlank([LF]) == -1
  {
    assert BlankAt(t, 11);
    forall k | 0 <= k < 11 ensures !BlankAt(t, k) { assert t[k] == (DATA + DONE)[k]; }
  }

  /** The event the marker makes when the stream is cut: its data line is exactly [DONE]. */
  lemma CutMarker(p: Progress, parse: Parser)
    requires !p.done && Result(p.events).Some?
    ensures Drain(DATA + DONE + [LF, LF, LF], p, OnEvent(ChatCompletions, parse)) == ([LF], Some(p.(done := true)))
  {
    var t := DATA + DONE + [LF, LF, LF];
    MarkerCut(t);
    MarkerLine();
    DrainEvent(t, p, ChatCompletions, parse);
    assert JoinLines([DONE]) == DONE;
  }

  /** The event it makes in one piece: a CR stays on the data line, which is then not a marker. */
  lemma WholeMarker(p: Progress, parse: Parser)
    requires !p.done && parse(DONE + [CR]) == None
    ensures Drain(DATA + DONE + [CR, LF, CR, LF, LF], p, OnEvent(ChatCompletions, parse)) == ([], None)
  {
    DoneBytes();
    var t := DATA + DONE + [CR, LF, CR, LF, LF];
    var event := DATA + DONE + [CR, LF, CR];
    assert t[..14] == event;
    assert FirstBlank(t) == 14 by {
      assert BlankAt(t, 14);
      assert forall k :: 0 <= k < 11 ==> t[k] == (DATA + DONE)[k];
      forall k | 0 <= k < 14 ensures !BlankAt(t, k) {}
    }
    var first: Bytes := DATA + DONE + [CR];
    assert IndexOf(event, LF) == 12 by {
      assert event[12] == LF;
      assert forall k :: 0 <= k < 12 ==> event[k] != LF;
    }
    assert event[..12] == first && event[13..] == [CR];
    NoLfOneLine([CR]);
    assert Lines(event) == [first] + [[CR]];
    var lines: seq<Bytes> := [first] + [[CR]];
    assert lines[1..] == [[CR]] && lines[1..][1..] == [];
    assert !(DATA <= [CR]) && DATA <= first;
    assert first[5..] == DONE + [CR];
    assert DataLines(lines[1..]) == [];
    assert TrimLeft(DONE + [CR]) == DONE + [CR];
    assert DataLines(lines) == [DONE + [CR]];
    assert DONE + [CR] != DONE by { assert |DONE + [CR]| == 7; }
  }

  lemma TailNormal()
    ensures Normal(DATA + DONE + TAIL) == DATA + DONE + [CR, LF, CR, LF]
    ensures Normal(DATA + DONE + TAIL + [LF]) == DATA + DONE + [CR, LF, CR, LF, LF]
    ensures Normal(DATA + DONE + [CR, LF, CR, LF] + [LF]) == DATA + DONE + [LF, LF, LF]
  {
    DoneBytes();
    TwiceNormal();
    NormalConcat(DATA + DONE, TAIL);
    NormalConcat(DATA + DONE, TAIL + [LF]);
    NormalConcat(DATA + DONE, [CR, LF, CR, LF] + [LF]);
    assert DATA + DONE + TAIL + [LF] == DATA + DONE + (TAIL + [LF]);
    assert DATA + DONE + [CR, LF, CR, LF] + [LF] == DATA + DONE + ([CR, LF, CR, LF] + [LF]);
  }

  lemma HeldBack(held: Bytes)
    requires held == DATA + DONE + [CR, LF, CR, LF]
    ensures FirstBlank(held) == -1
  {
    forall k | 0 <= k < |held| ensures !BlankAt(held, k) {}
  }

  /** An accepted chat stream, about to be closed, with room for its marker. */
  predicate AwaitsMarker(w: Wire) {
    && w.sse && w.format.OpenAi? && w.reader.state.Some? && w.reader.buffer == []
    && !w.reader.state.value.done && Result(w.reader.state.value.events).Some?
    && w.reader.total + 18 <= LimitOf(w.format)
  }

  lemma CutProves(w: Wire, parse: Parser)
    requires AwaitsMarker(w)
    ensures FinishWire(FeedWire(FeedWire(w, parse, DATA + DONE + TAIL), parse, [LF]), parse).Some?
  {
    var p, held := w.reader.state.value, DATA + DONE + [CR, LF, CR, LF];
    TailNormal();
    HeldBack(held);
    assert [] + (DATA + DONE + TAIL) == DATA + DONE + TAIL;
    var once := FeedWire(w, parse, DATA + DONE + TAIL);
    assert once.reader == EventStream.Reader(w.reader.total + 17, held, Some(p));
    CutMarker(p, parse);
  }

  lemma WholeProvesNothing(w: Wire, parse: Parser)
    requires AwaitsMarker(w) && parse(DONE + [CR]) == None
    ensures FinishWire(FeedWire(w, parse, DATA + DONE + TAIL + [LF]), parse) == None
  {
    TailNormal();
    assert [] + (DATA + DONE + TAIL + [LF]) == DATA + DONE + TAIL + [LF];
    WholeMarker(w.reader.state.value, parse);
  }

  /** A whole family of streams where chunking does matter: any accepted chat stream whose closing
      marker is ended by CR CR LF proves its usage when cut before the last LF, and nothing in one
      piece. */
  lemma CrCrLfMatters(w: Wire, parse: Parser)
    requires AwaitsMarker(w) && parse(DONE + [CR]) == None
    ensures FinishWire(FeedWire(FeedWire(w, parse, DATA + DONE + TAIL), parse, [LF]), parse).Some?
    ensures FinishWire(FeedWire(w, parse, DATA + DONE + TAIL + [LF]), parse) == None
  {
    CutProves(w, parse);
    WholeProvesNothing(w, parse);
  }
}
