/** Exactly which streams every chunking reads alike: the event reader under every chunking, with
    and without empty chunks, and two chunkings of one response that prove different usage. */
module Chunkings {
  import opened Basics
  import opened LineEndings
  import opened EventStream
  import opened UsageGrammar
  import opened TerminalEvidence
  import opened WireEvidence

  ghost predicate NoEmptyChunk(chunks: seq<Bytes>) {
    forall i :: 0 <= i < |chunks| ==> chunks[i] != []
  }

  // ---- Any handler, no empty chunk --------------------------------------------------------

  lemma DrainAppendProper<S>(s: Bytes, raw: Bytes, st: S, step: (S, Bytes) -> Option<S>)
    requires NoInnerCrCrLf(s + raw) && raw != []
    ensures var d := Drain(Normal(s), st, step);
            && (d.1.Some? ==> Drain(Normal(s + raw), st, step) == Drain(Normal(d.0 + raw), d.1.value, step))
            && (d.1.None? ==> Drain(Normal(s + raw), st, step) == ([], None))
  {
    var t := Normal(s);
    var h := Head(t, st, step);
    HeadShape(t, st, step);
    var rest := t[|h|..];
    assert t == h + rest;
    InnerPrefix(s, raw);
    NormalLeavesCrLf(s);
    NormalIncrementalProper(s, raw);
    NormalAfterHead(h, rest, raw);
    DrainContinues(t, st, step, Normal(rest + raw));
  }

  lemma {:induction false} ProperChunksAgree<S>(st: S, limit: nat, step: (S, Bytes) -> Option<S>, chunks: seq<Bytes>)
    requires NoInnerCrCrLf(Joined(chunks)) && NoEmptyChunk(chunks)
    ensures Agrees(EventStream.FeedChunks(EventStream.Reader(0, [], Some(st)), limit, step, chunks), st, limit, step, Joined(chunks))
  {
    if chunks != [] {
      var n := |chunks| - 1;
      var s := Joined(chunks[..n]);
      InnerPrefix(s, chunks[n]);
      ChunksAgree(st, limit, step, chunks[..n]);
      if |s + chunks[n]| <= limit { DrainAppendProper(s, chunks[n], st, step); }
    }
  }

  /** However a stream in which no byte follows a CR CR LF is cut into chunks that are not empty, any
      handler ends with the same buffer and the same state. */
  lemma ProperChunkingIndependence<S>(st: S, limit: nat, step: (S, Bytes) -> Option<S>, chunks: seq<Bytes>)
    requires NoInnerCrCrLf(Joined(chunks)) && NoEmptyChunk(chunks)
    ensures EventStream.FeedChunks(EventStream.Reader(0, [], Some(st)), limit, step, chunks).buffer == Whole(st, limit, step, Joined(chunks)).buffer
    ensures EventStream.FeedChunks(EventStream.Reader(0, [], Some(st)), limit, step, chunks).state == Whole(st, limit, step, Joined(chunks)).state
  {
    ProperChunksAgree(st, limit, step, chunks);
    WholeAgrees(st, limit, step, Joined(chunks));
  }

  /** So any such chunking of a response proves the usage it proves in one piece. */
  lemma ProperChunkingDoesNotMatter(format: Format, content: ContentType, status: int, parse: Parser, chunks: seq<Bytes>)
    requires content.EventStreamType? ==> NoInnerCrCrLf(Joined(chunks)) && NoEmptyChunk(chunks)
    ensures FinishWire(FeedWires(StartWire(format, content, status), parse, chunks), parse)
         == FinishWire(FeedWire(StartWire(format, content, status), parse, Joined(chunks)), parse)
  {
    var w := StartWire(format, content, status);
    if w.sse && w.reader.state.Some? {
      StreamedWires(w, parse, chunks);
      ProperChunkingIndependence(w.reader.state.value, LimitOf(format), OnEvent(PathOf(format), parse), chunks);
    } else if w.sse {
      RefusedWires(w, parse, chunks);
      RefusedWires(w, parse, [Joined(chunks)]);
    } else {
      ChunkingDoesNotMatter(format, content, status, parse, chunks);
    }
  }

  // ---- The exact conditions ---------------------------------------------------------------

  type Log = seq<Bytes>

  /** The handler that keeps every event and refuses none. */
  function Logger(): (Log, Bytes) -> Option<Log> {
    (log: Log, event: Bytes) => Some(log + [event])
  }

  function Logged(limit: nat, chunks: seq<Bytes>): EventStream.Reader<Log> {
    EventStream.FeedChunks(EventStream.Reader(0, [], Some([])), limit, Logger(), chunks)
  }

  predicate Alike(r: EventStream.Reader<Log>, q: EventStream.Reader<Log>) {
    r.buffer == q.buffer && r.state == q.state
  }

  ghost predicate ChunkingsAgree(s: Bytes, limit: nat) {
    forall x, y :: Joined(x) == s && Joined(y) == s ==> Alike(Logged(limit, x), Logged(limit, y))
  }

  ghost predicate ProperChunkingsAgree(s: Bytes, limit: nat) {
    forall x, y :: Joined(x) == s && Joined(y) == s && NoEmptyChunk(x) && NoEmptyChunk(y) ==>
      Alike(Logged(limit, x), Logged(limit, y))
  }

  /** The bytes that a log and a buffer account for, blank lines included. */
  function Weight(log: Log): nat
    decreases |log|
  {
    if log == [] then 0 else Weight(log[..|log| - 1]) + |log[|log| - 1]| + 2
  }

  lemma {:induction false} DrainWeight(t: Bytes, log: Log)
    ensures var d := Drain(t, log, Logger()); d.1.Some? && Weight(d.1.value) + |d.0| == Weight(log) + |t|
    decreases |t|
  {
    var i := FirstBlank(t);
    if i >= 0 {
      var next := log + [t[..i]];
      assert next[..|log|] == log;
      DrainWeight(t[i + 2..], next);
    }
  }

  /** What is drained ends in a blank line. */
  lemma {:induction false} HeadEndsBlank<S>(t: Bytes, st: S, step: (S, Bytes) -> Option<S>)
    ensures var h := Head(t, st, step); h <= t && (h == [] || (|h| >= 2 && h[|h| - 2] == LF && h[|h| - 1] == LF))
    decreases |t|
  {
    var i := FirstBlank(t);
    if i >= 0 && step(st, t[..i]).Some? {
      HeadEndsBlank(t[i + 2..], step(st, t[..i]).value, step);
      assert t == t[..i + 2] + t[i + 2..];
    }
  }

  /** A closing CR LF is never drained. */
  lemma KeepsCrLf(t: Bytes, log: Log)
    requires |t| >= 2 && t[|t| - 2] == CR && t[|t| - 1] == LF
    ensures var rest := Drain(t, log, Logger()).0;
            |rest| >= 2 && rest[|rest| - 2] == CR && rest[|rest| - 1] == LF
  {
    HeadShape(t, log, Logger());
    HeadEndsBlank(t, log, Logger());
    DrainWeight(t, log);
    var h := Head(t, log, Logger());
    assert forall k :: 0 <= k < |h| ==> h[k] == t[k];
    assert |h| <= |t| - 2;
  }

  lemma FeedTwo(a: Bytes, b: Bytes, limit: nat)
    ensures Joined([a, b]) == a + b && Joined([a]) == a
    ensures Logged(limit, [a]) == FeedBytes(EventStream.Reader(0, [], Some([])), limit, Logger(), a)
    ensures Logged(limit, [a, b]) == FeedBytes(Logged(limit, [a]), limit, Logger(), b)
  {
    var none: seq<Bytes>, one: seq<Bytes>, two: seq<Bytes> := [], [a], [a, b];
    assert two[..1] == one && one[..0] == none;
    assert Logged(limit, none) == EventStream.Reader(0, [], Some([]));
    assert Joined(none) == [] && [] + a == a;
  }

  /** Cut right after a CR CR LF, the reader accounts for fewer bytes than uncut. */
  lemma CutMatters(front: Bytes, b: Bytes, limit: nat)
    requires |front| + 3 + |b| <= limit
    ensures var a := front + [CR, CR, LF];
            Joined([a, b]) == Joined([a + b]) == a + b && !Alike(Logged(limit, [a, b]), Logged(limit, [a + b]))
  {
    var a := front + [CR, CR, LF];
    FeedTwo(a, b, limit);
    FeedTwo(a + b, [], limit);
    EndsInCrLf(front);
    var t := Normal(a);
    assert [] + a == a && [] + (a + b) == a + b;
    DrainWeight(t, []);
    KeepsCrLf(t, []);
    var rest, log := Drain(t, [], Logger()).0, Drain(t, [], Logger()).1.value;
    LeftCrLfShortens(rest, b);
    DrainWeight(Normal(rest + b), log);
    NormalConcat(a, b);
    DrainWeight(Normal(a + b), []);
  }

  /** Over the limit nothing is left to tell chunkings apart. */
  lemma {:induction false} OverLimit(limit: nat, chunks: seq<Bytes>)
    ensures var r := Logged(limit, chunks);
            if |Joined(chunks)| > limit then r.state == None && r.buffer == [] else r.state.Some? && r.total == |Joined(chunks)|
    decreases |chunks|
  {
    if chunks != [] {
      var n := |chunks| - 1;
      var r := Logged(limit, chunks[..n]);
      OverLimit(limit, chunks[..n]);
      if r.state.Some? { DrainWeight(Normal(r.buffer + chunks[n]), r.state.value); }
    }
  }

  lemma CutAtMatters(s: Bytes, i: nat, limit: nat)
    requires CrCrLfAt(s, i) && |s| <= limit
    ensures var x, y := [s[..i + 3], s[i + 3..]], [s]; Joined(x) == s && Joined(y) == s && !Alike(Logged(limit, x), Logged(limit, y))
  {
    var a, b := s[..i + 3], s[i + 3..];
    assert a == s[..i] + [CR, CR, LF] && a + b == s;
    CutMatters(s[..i], b, limit);
  }

  /** All chunkings of a stream, empty chunks included, read alike exactly when it is over the limit
      or holds no CR CR LF. */
  lemma ChunkingsAgreeExactly(s: Bytes, limit: nat)
    ensures ChunkingsAgree(s, limit) <==> |s| > limit || NoCrCrLf(s)
  {
    if |s| > limit || NoCrCrLf(s) {
      forall x, y | Joined(x) == s && Joined(y) == s ensures Alike(Logged(limit, x), Logged(limit, y)) {
        if |s| > limit {
          OverLimit(limit, x);
          OverLimit(limit, y);
        } else {
          ChunkingIndependence([], limit, Logger(), x);
          ChunkingIndependence([], limit, Logger(), y);
        }
      }
    } else {
      var i :| 0 <= i < |s| && CrCrLfAt(s, i);
      CutAtMatters(s, i, limit);
    }
  }

  lemma ProperReadAlike(s: Bytes, limit: nat, x: seq<Bytes>, y: seq<Bytes>)
    requires |s| > limit || NoInnerCrCrLf(s)
    requires Joined(x) == s && Joined(y) == s && NoEmptyChunk(x) && NoEmptyChunk(y)
    ensures Alike(Logged(limit, x), Logged(limit, y))
  {
    if |s| > limit {
      OverLimit(limit, x);
      OverLimit(limit, y);
    } else {
      ProperChunkingIndependence([], limit, Logger(), x);
      ProperChunkingIndependence([], limit, Logger(), y);
    }
  }

  lemma ProperReadsAgree(s: Bytes, limit: nat)
    requires |s| > limit || NoInnerCrCrLf(s)
    ensures ProperChunkingsAgree(s, limit)
  {
    forall x, y | Joined(x) == s && Joined(y) == s && NoEmptyChunk(x) && NoEmptyChunk(y)
      ensures Alike(Logged(limit, x), Logged(limit, y))
    {
      ProperReadAlike(s, limit, x, y);
    }
  }

  /** All chunkings without an empty chunk read alike exactly when the stream is over the limit or no
      byte follows a CR CR LF in it. */
  lemma ProperChunkingsAgreeExactly(s: Bytes, limit: nat)
    ensures ProperChunkingsAgree(s, limit) <==> |s| > limit || NoInnerCrCrLf(s)
  {
    if |s| > limit || NoInnerCrCrLf(s) {
      ProperReadsAgree(s, limit);
    } else {
      var i :| 0 <= i < |s| && CrCrLfAt(s, i) && i + 3 != |s|;
      InnerCutDisagrees(s, i, limit);
    }
  }

  lemma InnerCutDisagrees(s: Bytes, i: nat, limit: nat)
    requires CrCrLfAt(s, i) && i + 3 < |s| <= limit
    ensures !ProperChunkingsAgree(s, limit)
  {
    CutAtMatters(s, i, limit);
    var x, y := [s[..i + 3], s[i + 3..]], [s];
    assert NoEmptyChunk(x) && NoEmptyChunk(y);
  }

  // ---- Two chunkings of one response ------------------------------------------------------

  /** One payload line: no line ending in it, and nothing to trim before it. */
  predicate OneLine(p: Bytes) {
    p != [] && !White(p[0]) && forall i :: 0 <= i < |p| ==> p[i] != LF && p[i] != CR
  }

  /** A parser that reads `p` as the one document of a finished chat with usage `u`, and refuses the
      marker with a CR behind it. */
  predicate ReadsFinal(parse: Parser, p: Bytes, u: Usage) {
    && parse(p).Some? && ReadChunk(parse(p).value).Chunk?
    && ReadChunk(parse(p).value).choice.Finish? && ReadChunk(parse(p).value).usage == Some(u)
    && parse(DONE + [CR]) == None
  }

  lemma PayloadLine(p: Bytes)
    requires OneLine(p)
    ensures DataLines(Lines(DATA + p)) == [p]
  {
    var line := DATA + p;
    assert forall i :: 0 <= i < |line| ==> line[i] != LF;
    NoLfOneLine(line);
    var lines: seq<Bytes> := [line];
    assert lines[1..] == [] && DataLines(lines[1..]) == [];
    assert DATA <= line && line[5..] == p && TrimLeft(p) == p;
  }

  lemma PayloadEvent(p: Bytes)
    requires OneLine(p)
    ensures var t := DATA + p + [LF, LF];
            && Normal(t) == t && FirstBlank(t) == |DATA + p| && t[..|DATA + p|] == DATA + p && t[|DATA + p| + 2..] == []
  {
    var t := DATA + p + [LF, LF];
    assert forall i :: 0 <= i < |DATA + p| ==> t[i] == (DATA + p)[i] && t[i] != LF && t[i] != CR;
    forall i | 0 <= i < |t| ensures !CrLfAt(t, i) {}
    NormalFixed(t);
    assert BlankAt(t, |DATA + p|);
    forall k | 0 <= k < |DATA + p| ensures !BlankAt(t, k) {}
  }

  lemma PayloadDrains(p: Bytes, parse: Parser, u: Usage)
    requires OneLine(p) && p != DONE && ReadsFinal(parse, p, u)
    ensures var start := Progress(false, Empty(ChatCompletions));
            var d := Drain(DATA + p + [LF, LF], start, OnEvent(ChatCompletions, parse));
            d.0 == [] && d.1.Some? && !d.1.value.done && Result(d.1.value.events) == Some(u)
  {
    var start, t := Progress(false, Empty(ChatCompletions)), DATA + p + [LF, LF];
    PayloadEvent(p);
    PayloadLine(p);
    DrainEvent(t, start, ChatCompletions, parse);
    assert JoinLines([p]) == p;
    assert FirstBlank([]) == -1;
  }

  /** The stream whose one payload is `p`, and its marker ended by CR CR LF CR CR LF LF, in three
      chunks and in two. */
  function InThree(p: Bytes): seq<Bytes> {
    [DATA + p + [LF, LF], DATA + DONE + TAIL, [LF]]
  }

  function InTwo(p: Bytes): seq<Bytes> {
    [DATA + p + [LF, LF], DATA + DONE + TAIL + [LF]]
  }

  lemma SameBytes(p: Bytes)
    ensures Joined(InThree(p)) == Joined(InTwo(p)) && NoEmptyChunk(InThree(p)) && NoEmptyChunk(InTwo(p))
  {
    var x, y, first := InThree(p), InTwo(p), DATA + p + [LF, LF];
    assert x[..2][..1] == y[..1] && x[..2][1] == DATA + DONE + TAIL;
    var z := Joined(y[..1]);
    assert Joined(x) == z + (DATA + DONE + TAIL) + [LF];
    assert Joined(y) == z + (DATA + DONE + TAIL + [LF]);
  }

  lemma FedInTurn(w: Wire, parse: Parser, a: Bytes, b: Bytes, c: Bytes)
    ensures FeedWires(w, parse, [a, b]) == FeedWire(FeedWire(w, parse, a), parse, b)
    ensures FeedWires(w, parse, [a, b, c]) == FeedWire(FeedWires(w, parse, [a, b]), parse, c)
  {
    var none: seq<Bytes>, one: seq<Bytes>, two: seq<Bytes>, three: seq<Bytes> := [], [a], [a, b], [a, b, c];
    assert three[..2] == two && two[..1] == one && one[..0] == none;
    assert FeedWires(w, parse, none) == w && FeedWires(w, parse, one) == FeedWire(w, parse, a);
  }

  /** A fresh reader that has read the payload awaits the marker. */
  lemma AfterPayload(p: Bytes, parse: Parser, u: Usage)
    requires OneLine(p) && p != DONE && ReadsFinal(parse, p, u) && |p| + 25 <= MAX_RESPONSE_BYTES
    ensures AwaitsMarker(FeedWire(StartWire(Format.OpenAi, EventStreamType, 200), parse, DATA + p + [LF, LF]))
  {
    var first := DATA + p + [LF, LF];
    PayloadEvent(p);
    PayloadDrains(p, parse, u);
    assert [] + first == first;
  }

  /** From a fresh reader, the same bytes in chunks none of which is empty: three prove a usage, two
      prove none. */
  lemma ChunkingsDiffer(p: Bytes, parse: Parser, u: Usage)
    requires OneLine(p) && p != DONE && ReadsFinal(parse, p, u) && |p| + 25 <= MAX_RESPONSE_BYTES
    ensures var start := StartWire(Format.OpenAi, EventStreamType, 200);
            && Joined(InThree(p)) == Joined(InTwo(p)) && NoEmptyChunk(InThree(p)) && NoEmptyChunk(InTwo(p))
            && FinishWire(FeedWires(start, parse, InThree(p)), parse).Some?
            && FinishWire(FeedWires(start, parse, InTwo(p)), parse) == None
  {
    var start, first := StartWire(Format.OpenAi, EventStreamType, 200), DATA + p + [LF, LF];
    SameBytes(p);
    AfterPayload(p, parse, u);
    var w := FeedWire(start, parse, first);
    FedInTurn(start, parse, first, DATA + DONE + TAIL, [LF]);
    FedInTurn(start, parse, first, DATA + DONE + TAIL + [LF], []);
    CrCrLfMatters(w, parse);
  }

  // ---- One such response ------------------------------------------------------------------

  /** The bytes of an ASCII text. */
  function Ascii(s: string): Bytes {
    seq(|s|, i requires 0 <= i < |s| => s[i] as int % 256)
  }

  predicate Printable(s: string) {
    forall i :: 0 <= i < |s| ==> ' ' <= s[i] <= '}'
  }

  /** A JSON member, given its name and its value's text. */
  function FieldText(name: string, value: string): (r: string)
    requires Printable(name) && Printable(value)
    ensures Printable(r) && |r| == |name| + |value| + 3
  {
    "\"" + name + "\":" + value
  }

  function ChoicesText(): (r: string)
    ensures Printable(r) && |r| <= 50
  {
    "[{" + FieldText("index", "0") + "," + FieldText("finish_reason", "\"stop\"") + "}]"
  }

  function UsageText(): (r: string)
    ensures Printable(r) && |r| <= 70
  {
    "{" + FieldText("prompt_tokens", "2") + "," + FieldText("completion_tokens", "1") + "," + FieldText("total_tokens", "3") + "}"
  }

  function FinalText(): (r: string)
    ensures Printable(r) && 0 < |r| <= 200 && r[0] == '{'
  {
    "{" + FieldText("id", "\"c\"") + "," + FieldText("choices", ChoicesText()) + "," + FieldText("usage", UsageText()) + "}"
  }

  /** What that text says. */
  function FinalDocument(): Json {
    Obj(map["id" := Str("c"),
            "choices" := List([Obj(map["index" := Int(0), "finish_reason" := Str("stop")])]),
            "usage" := Obj(map["prompt_tokens" := Int(2), "completion_tokens" := Int(1), "total_tokens" := Int(3)])])
  }

  /** A parser that reads this text, and nothing else. */
  function FinalParser(): Parser {
    (b: Bytes) => if b == Ascii(FinalText()) then Some(FinalDocument()) else None
  }

  lemma PrintableIsOneLine(s: string)
    requires Printable(s) && s != "" && s[0] == '{'
    ensures OneLine(Ascii(s)) && |Ascii(s)| == |s| && Ascii(s)[0] == 123
  {
  }

  lemma FinalDocumentReads()
    ensures ReadChunk(FinalDocument()) == Chunk("c", Finish, Some(Usage(2, 1, 0, 0)))
  {
    var d := FinalDocument();
    var usage := d.fields["usage"];
    assert OpenAiUsage(usage) == Some(Usage(2, 1, 0, 0));
    var c := d.fields["choices"].items[0];
    assert c.fields["index"] == Int(0) && c.fields["finish_reason"] == Str("stop");
  }

  /** A concrete response: its bytes in three chunks prove two input tokens and one output token, in
      two chunks nothing. */
  lemma OneResponseTwoReadings()
    ensures var p, start, parse := Ascii(FinalText()), StartWire(Format.OpenAi, EventStreamType, 200), FinalParser();
            && Joined(InThree(p)) == Joined(InTwo(p)) && NoEmptyChunk(InThree(p)) && NoEmptyChunk(InTwo(p))
            && FinishWire(FeedWires(start, parse, InThree(p)), parse).Some?
            && FinishWire(FeedWires(start, parse, InTwo(p)), parse) == None
  {
    var p := Ascii(FinalText());
    PrintableIsOneLine(FinalText());
    FinalDocumentReads();
    assert p[0] != DONE[0] && p[0] != (DONE + [CR])[0];
    assert ReadsFinal(FinalParser(), p, Usage(2, 1, 0, 0));
    ChunkingsDiffer(p, FinalParser(), Usage(2, 1, 0, 0));
  }
}
