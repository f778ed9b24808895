/** Which bytes prove a usage: exactly the responses of accepted status, type and size whose events
    are the documents of the provider's terminal grammar, closed as that provider closes a stream. */
module ResponseGrammar {
  import opened Basics
  import opened LineEndings
  import opened EventStream
  import opened UsageGrammar
  import opened TerminalEvidence
  import opened WireEvidence

  // ---- Splitting a text into events -------------------------------------------------------

  /** Two line feeds in a row. */
  predicate HasBlank(t: Bytes) {
    exists k :: 0 <= k < |t| && BlankAt(t, k)
  }

  /** Every event with the blank line that ends it. */
  function Ended(events: seq<Bytes>): Bytes {
    if events == [] then [] else events[0] + [LF, LF] + Ended(events[1..])
  }

  /** The text is these events, each ended by the first blank line there is, and what remains. */
  ghost predicate Splits(t: Bytes, events: seq<Bytes>, rest: Bytes) {
    && t == Ended(events) + rest && !HasBlank(rest)
    && forall i :: 0 <= i < |events| ==> !HasBlank(events[i] + [LF])
  }

  function Events(t: Bytes): seq<Bytes>
    decreases |t|
  {
    var i := FirstBlank(t);
    if i < 0 then [] else [t[..i]] + Events(t[i + 2..])
  }

  function Remainder(t: Bytes): Bytes
    decreases |t|
  {
    var i := FirstBlank(t);
    if i < 0 then t else Remainder(t[i + 2..])
  }

  lemma FirstEvent(t: Bytes)
    requires FirstBlank(t) >= 0
    ensures var i := FirstBlank(t); !HasBlank(t[..i] + [LF]) && t == t[..i] + [LF, LF] + t[i + 2..]
  {
    var i := FirstBlank(t);
    var e := t[..i] + [LF];
    forall k | 0 <= k < |e| ensures !BlankAt(e, k) {
      assert BlankAt(e, k) ==> BlankAt(t, k);
    }
  }

  lemma {:induction false} EventsSplit(t: Bytes)
    ensures Splits(t, Events(t), Remainder(t))
    decreases |t|
  {
    var i := FirstBlank(t);
    if i < 0 {
      assert Ended([]) + t == t;
    } else {
      FirstEvent(t);
      var rest := t[i + 2..];
      EventsSplit(rest);
      assert Events(t)[1..] == Events(rest);
      assert t[..i] + [LF, LF] + (Ended(Events(rest)) + Remainder(t)) == t[..i] + [LF, LF] + Ended(Events(rest)) + Remainder(t);
    }
  }

  /** There is only one such splitting. */
  lemma {:induction false} SplitIsEvents(t: Bytes, events: seq<Bytes>, rest: Bytes)
    requires Splits(t, events, rest)
    ensures events == Events(t) && rest == Remainder(t)
    decreases |events|
  {
    if events == [] {
      assert t == rest;
      assert FirstBlank(t) == -1;
    } else {
      var tail := Ended(events[1..]) + rest;
      assert t == events[0] + [LF, LF] + tail;
      EventStopsAt(events[0], tail);
      assert Splits(tail, events[1..], rest);
      SplitIsEvents(tail, events[1..], rest);
      assert events == [events[0]] + events[1..];
    }
  }

  lemma EventStopsAt(e: Bytes, tail: Bytes)
    requires !HasBlank(e + [LF])
    ensures var t := e + [LF, LF] + tail; FirstBlank(t) == |e| && t[..|e|] == e && t[|e| + 2..] == tail
  {
    var t := e + [LF, LF] + tail;
    assert BlankAt(t, |e|);
    forall k | 0 <= k < |e| ensures !BlankAt(t, k) {
      assert !BlankAt(e + [LF], k);
      assert t[k] == (e + [LF])[k] && t[k + 1] == (e + [LF])[k + 1];
    }
  }

  // ---- A handler sees the events in turn --------------------------------------------------

  function Fold<S>(events: seq<Bytes>, st: S, step: (S, Bytes) -> Option<S>): Option<S>
    decreases |events|
  {
    if events == [] then Some(st)
    else
      var before := Fold(events[..|events| - 1], st, step);
      if before.None? then None else step(before.value, events[|events| - 1])
  }

  lemma {:induction false} FoldFirst<S>(e: Bytes, events: seq<Bytes>, st: S, step: (S, Bytes) -> Option<S>)
    ensures Fold([e] + events, st, step) == (if step(st, e).None? then None else Fold(events, step(st, e).value, step))
    decreases |events|
  {
    var all, n := [e] + events, |events|;
    if events == [] {
      assert all[..0] == [] && all[0] == e;
      assert Fold(all[..0], st, step) == Some(st);
    } else {
      assert all[..n] == [e] + events[..n - 1] && all[n] == events[n - 1];
      FoldFirst(e, events[..n - 1], st, step);
    }
  }

  lemma {:induction false} DrainFolds<S>(t: Bytes, st: S, step: (S, Bytes) -> Option<S>)
    ensures var f := Fold(Events(t), st, step);
            Drain(t, st, step) == if f.None? then ([], None) else (Remainder(t), f)
    decreases |t|
  {
    var i := FirstBlank(t);
    if i >= 0 {
      FoldFirst(t[..i], Events(t[i + 2..]), st, step);
      if step(st, t[..i]).Some? { DrainFolds(t[i + 2..], step(st, t[..i]).value, step); }
    }
  }

  // ---- Payloads ---------------------------------------------------------------------------

  /** The payloads of a sequence of events: the data lines of each, joined; events without any are
      keepalives. */
  function Payloads(events: seq<Bytes>): seq<Bytes>
    decreases |events|
  {
    if events == [] then []
    else
      var before, data := Payloads(events[..|events| - 1]), DataLines(Lines(events[|events| - 1]));
      if data == [] then before else before + [JoinLines(data)]
  }

  function FoldPayloads(ps: seq<Bytes>, path: Path, parse: Parser): Option<Progress>
    decreases |ps|
  {
    if ps == [] then Some(Progress(false, Empty(path)))
    else
      var before := FoldPayloads(ps[..|ps| - 1], path, parse);
      if before.None? then None else OnPayload(before.value, path, parse, ps[|ps| - 1])
  }

  lemma {:induction false} EventsArePayloads(events: seq<Bytes>, path: Path, parse: Parser)
    ensures Fold(events, Progress(false, Empty(path)), OnEvent(path, parse)) == FoldPayloads(Payloads(events), path, parse)
    decreases |events|
  {
    if events != [] {
      var n := |events| - 1;
      EventsArePayloads(events[..n], path, parse);
      MorePayloads(Payloads(events[..n]), path, parse, DataLines(Lines(events[n])));
    }
  }

  lemma MorePayloads(ps: seq<Bytes>, path: Path, parse: Parser, data: seq<Bytes>)
    ensures var before := FoldPayloads(ps, path, parse);
            FoldPayloads(ps + [JoinLines(data)], path, parse)
            == if before.None? then None else OnPayload(before.value, path, parse, JoinLines(data))
  {
    var all := ps + [JoinLines(data)];
    assert all[..|all| - 1] == ps && all[|all| - 1] == JoinLines(data);
  }

  /** All payloads are documents, and these are the documents. */
  ghost predicate Documents(ps: seq<Bytes>, parse: Parser, ds: seq<Json>) {
    |ds| == |ps| && forall i :: 0 <= i < |ps| ==> ps[i] != DONE && parse(ps[i]) == Some(ds[i])
  }

  lemma {:induction false} DocumentsFold(ps: seq<Bytes>, path: Path, parse: Parser, ds: seq<Json>)
    requires Documents(ps, parse, ds)
    ensures FoldPayloads(ps, path, parse) == (if FeedAll(path, ds).Poisoned? then None else Some(Progress(false, FeedAll(path, ds))))
    decreases |ps|
  {
    if ps != [] {
      var n := |ps| - 1;
      DocumentsFold(ps[..n], path, parse, ds[..n]);
      if FeedAll(path, ds[..n]).Poisoned? {
        PoisonIsPermanent(path, ds, n);
      }
    }
  }

  /** The progress is that of these documents, with the marker, if it has come, last and after a whole
      terminal stream. */
  ghost predicate TakenIn(ps: seq<Bytes>, path: Path, parse: Parser, p: Progress, ds: seq<Json>) {
    && p.events == FeedAll(path, ds)
    && if p.done then ps != [] && ps[|ps| - 1] == DONE && path.ChatCompletions? && Result(p.events).Some? && Documents(ps[..|ps| - 1], parse, ds)
       else Documents(ps, parse, ds)
  }

  lemma TakeMore(ps: seq<Bytes>, path: Path, parse: Parser, p: Progress, ds: seq<Json>) returns (more: seq<Json>)
    requires ps != [] && TakenIn(ps[..|ps| - 1], path, parse, p, ds) && OnPayload(p, path, parse, ps[|ps| - 1]).Some?
    ensures TakenIn(ps, path, parse, OnPayload(p, path, parse, ps[|ps| - 1]).value, more)
  {
    var payload := ps[|ps| - 1];
    more := ds;
    if payload != DONE {
      MoreDocuments(ps, parse, ds, parse(payload).value);
      more := ds + [parse(payload).value];
      assert more[..|more| - 1] == ds;
    }
  }

  /** Conversely a sequence of payloads that is taken in is documents. */
  lemma {:induction false} FoldedAreDocuments(ps: seq<Bytes>, path: Path, parse: Parser) returns (ds: seq<Json>)
    requires FoldPayloads(ps, path, parse).Some?
    ensures TakenIn(ps, path, parse, FoldPayloads(ps, path, parse).value, ds)
    decreases |ps|
  {
    ds := [];
    if ps != [] {
      ds := FoldedAreDocuments(ps[..|ps| - 1], path, parse);
      ds := TakeMore(ps, path, parse, FoldPayloads(ps[..|ps| - 1], path, parse).value, ds);
    }
  }

  lemma MoreDocuments(ps: seq<Bytes>, parse: Parser, ds: seq<Json>, d: Json)
    requires ps != [] && Documents(ps[..|ps| - 1], parse, ds) && ps[|ps| - 1] != DONE && parse(ps[|ps| - 1]) == Some(d)
    ensures Documents(ps, parse, ds + [d]) && (ds + [d])[..|ps| - 1] == ds
  {
    var n := |ps| - 1;
    forall i | 0 <= i < |ps| ensures ps[i] != DONE && parse(ps[i]) == Some((ds + [d])[i]) {
      if i < n { assert ps[..n][i] == ps[i]; }
    }
  }

  // ---- The exact responses ----------------------------------------------------------------

  /** The payloads say usage `u` in the provider's full terminal grammar; a chat is closed by one
      marker after its documents, and nothing after it. */
  ghost predicate Says(format: Format, parse: Parser, ps: seq<Bytes>, u: Usage) {
    match format
    case Anthropic => exists ds :: Documents(ps, parse, ds) && AnthropicStream(AllMessages(ds), u)
    case OpenAi =>
      && ps != [] && ps[|ps| - 1] == DONE
      && exists ds :: Documents(ps[..|ps| - 1], parse, ds) && OpenAiStream(AllChunks(ds), u)
    case Embedding => false
  }

  /** The response proves usage `u`. */
  ghost predicate Proves(format: Format, content: ContentType, status: int, parse: Parser, s: Bytes, u: Usage) {
    && status == 200 && |s| <= LimitOf(format)
    && match content
       case JsonType => parse(s).Some? && NonStream(PathOf(format), parse(s).value) == Some(u)
       case EventStreamType =>
         exists events, rest :: Splits(Normal(s), events, rest) && Blank(rest) && Says(format, parse, Payloads(events), u)
       case OtherType => false
  }

  lemma SaysIsFolded(format: Format, parse: Parser, ps: seq<Bytes>, u: Usage)
    requires !format.Embedding?
    ensures Says(format, parse, ps, u) <==>
            var f := FoldPayloads(ps, PathOf(format), parse);
            f.Some? && (format.OpenAi? ==> f.value.done) && Result(f.value.events) == Some(u)
  {
    var path := PathOf(format);
    if Says(format, parse, ps, u) { SaidIsFolded(format, parse, ps, u); }
    var f := FoldPayloads(ps, path, parse);
    if f.Some? && (format.OpenAi? ==> f.value.done) && Result(f.value.events) == Some(u) {
      var ds := FoldedAreDocuments(ps, path, parse);
      TerminalGrammar(path, ds, u);
    }
  }

  lemma SaidIsFolded(format: Format, parse: Parser, ps: seq<Bytes>, u: Usage)
    requires Says(format, parse, ps, u)
    ensures var f := FoldPayloads(ps, PathOf(format), parse);
            f.Some? && (format.OpenAi? ==> f.value.done) && Result(f.value.events) == Some(u)
  {
    var path := PathOf(format);
    var qs := if format.OpenAi? then ps[..|ps| - 1] else ps;
    var ds :| Documents(qs, parse, ds) && (if format.OpenAi? then OpenAiStream(AllChunks(ds), u) else AnthropicStream(AllMessages(ds), u));
    TerminalGrammar(path, ds, u);
    DocumentsFold(qs, path, parse, ds);
  }

  lemma StreamProves(format: Format, parse: Parser, s: Bytes, u: Usage)
    requires !format.Embedding? && |s| <= LimitOf(format)
    ensures FinishWire(FeedWire(StartWire(format, EventStreamType, 200), parse, s), parse) == Some(u) <==>
            Blank(Remainder(Normal(s))) && Says(format, parse, Payloads(Events(Normal(s))), u)
  {
    var t := Normal(s);
    StreamFolds(format, parse, s);
    SaysIsFolded(format, parse, Payloads(Events(t)), u);
    var w := FeedWire(StartWire(format, EventStreamType, 200), parse, s);
    FinishReads(w, parse, u);
  }

  /** The reader that has read the whole stream: its payloads taken in, the rest kept. */
  lemma StreamFolds(format: Format, parse: Parser, s: Bytes)
    requires !format.Embedding? && |s| <= LimitOf(format)
    ensures var w := FeedWire(StartWire(format, EventStreamType, 200), parse, s);
            var f := FoldPayloads(Payloads(Events(Normal(s))), PathOf(format), parse);
            w.sse && w.format == format && w.reader.state == f && (f.Some? ==> w.reader.buffer == Remainder(Normal(s)))
  {
    var path, t := PathOf(format), Normal(s);
    assert [] + s == s;
    DrainFolds(t, Progress(false, Empty(path)), OnEvent(path, parse));
    EventsArePayloads(Events(t), path, parse);
  }

  lemma FinishReads(w: Wire, parse: Parser, u: Usage)
    requires w.sse
    ensures FinishWire(w, parse) == Some(u) <==>
            && w.reader.state.Some? && Blank(w.reader.buffer) && (w.format.OpenAi? ==> w.reader.state.value.done)
            && Result(w.reader.state.value.events) == Some(u)
  {
  }

  lemma WholeProvesExactly(format: Format, content: ContentType, status: int, parse: Parser, s: Bytes, u: Usage)
    ensures FinishWire(FeedWire(StartWire(format, content, status), parse, s), parse) == Some(u) <==> Proves(format, content, status, parse, s, u)
  {
    assert [] + s == s;
    if content.EventStreamType? && status == 200 && |s| <= LimitOf(format) && !format.Embedding? {
      StreamProves(format, parse, s, u);
      EventsSplit(Normal(s));
      if Proves(format, content, status, parse, s, u) {
        var events, rest :| Splits(Normal(s), events, rest) && Blank(rest) && Says(format, parse, Payloads(events), u);
        SplitIsEvents(Normal(s), events, rest);
      }
    }
  }

  /** A response without CR CR LF proves usage `u`, in whatever chunks it comes, exactly when its status
      and type are accepted, it is within the size limit, and it is a complete document of the path
      with usage `u`, or a stream whose events' payloads say `u` with only blanks after the last. */
  lemma UsageProvenExactly(format: Format, content: ContentType, status: int, parse: Parser, chunks: seq<Bytes>, u: Usage)
    requires content.EventStreamType? ==> NoCrCrLf(Joined(chunks))
    ensures FinishWire(FeedWires(StartWire(format, content, status), parse, chunks), parse) == Some(u)
            <==> Proves(format, content, status, parse, Joined(chunks), u)
  {
    ChunkingDoesNotMatter(format, content, status, parse, chunks);
    WholeProvesExactly(format, content, status, parse, Joined(chunks), u);
  }

  // ---- Lines and data lines ---------------------------------------------------------------

  /** Splitting at line feeds and joining again give back the text. */
  lemma {:induction false} LinesJoin(s: Bytes)
    ensures JoinLines(Lines(s)) == s && Lines(s) != []
    ensures forall i :: 0 <= i < |Lines(s)| ==> forall k :: 0 <= k < |Lines(s)[i]| ==> Lines(s)[i][k] != LF
    decreases |s|
  {
    var i := IndexOf(s, LF);
    if i < |s| {
      LinesJoin(s[i + 1..]);
      assert Lines(s)[1..] == Lines(s[i + 1..]);
      assert s == s[..i] + [LF] + s[i + 1..];
    }
  }

  lemma {:induction false} DataLinesAppend(a: seq<Bytes>, b: seq<Bytes>)
    ensures DataLines(a + b) == DataLines(a) + DataLines(b)
    decreases |a|
  {
    if a == [] {
      assert a + b == b;
    } else {
      assert (a + b)[1..] == a[1..] + b;
      DataLinesAppend(a[1..], b);
    }
  }

  /** One line is data exactly when it starts with the field name and a colon, and its value is the
      rest without the whitespace before it. */
  lemma DataLineMeans(line: Bytes, blanks: Bytes, value: Bytes)
    requires Blank(blanks) && (value == [] || !White(value[0]))
    ensures DataLines([DATA + blanks + value]) == [value]
    ensures !(DATA <= line) ==> DataLines([line]) == []
  {
    var one: seq<Bytes>, other: seq<Bytes> := [DATA + blanks + value], [line];
    assert one[1..] == [] && other[1..] == [] && DataLines([]) == [];
    assert one[0][5..] == blanks + value;
    TrimBlanks(blanks, value);
  }

  lemma {:induction false} TrimBlanks(blanks: Bytes, value: Bytes)
    requires Blank(blanks) && (value == [] || !White(value[0]))
    ensures TrimLeft(blanks + value) == value
    decreases |blanks|
  {
    if blanks == [] {
      assert blanks + value == value;
    } else {
      assert (blanks + value)[1..] == blanks[1..] + value;
      TrimBlanks(blanks[1..], value);
    }
  }

  // ---- A stream as a provider writes it ---------------------------------------------------

  /** A payload on one line. */
  predicate Line(p: Bytes) {
    p != [] && !White(p[0]) && forall i :: 0 <= i < |p| ==> p[i] != LF && p[i] != CR
  }

  function WrittenEvent(p: Bytes): Bytes {
    DATA + [32] + p
  }

  function Written(ps: seq<Bytes>): seq<Bytes> {
    seq(|ps|, i requires 0 <= i < |ps| => WrittenEvent(ps[i]))
  }

  lemma WrittenReads(p: Bytes)
    requires Line(p)
    ensures Lines(WrittenEvent(p)) == [WrittenEvent(p)] && DataLines(Lines(WrittenEvent(p))) == [p]
    ensures !HasBlank(WrittenEvent(p) + [LF])
  {
    var e := WrittenEvent(p);
    assert forall i :: 0 <= i < |e| ==> e[i] != LF && e[i] != CR;
    NoLfOneLine(e);
    DataLineMeans([], [32], p);
  }

  lemma {:induction false} WrittenPayloads(ps: seq<Bytes>)
    requires forall i :: 0 <= i < |ps| ==> Line(ps[i])
    ensures Payloads(Written(ps)) == ps
    decreases |ps|
  {
    if ps != [] {
      var n := |ps| - 1;
      assert Written(ps)[..n] == Written(ps[..n]);
      WrittenPayloads(ps[..n]);
      WrittenReads(ps[n]);
      assert JoinLines([ps[n]]) == ps[n];
    }
  }

  predicate NoCr(s: Bytes) {
    forall i :: 0 <= i < |s| ==> s[i] != CR
  }

  lemma {:induction false} WrittenHasNoCr(ps: seq<Bytes>)
    requires forall i :: 0 <= i < |ps| ==> Line(ps[i])
    ensures NoCr(Ended(Written(ps)))
    decreases |ps|
  {
    if ps != [] {
      assert Written(ps)[1..] == Written(ps[1..]);
      WrittenHasNoCr(ps[1..]);
    }
  }

  lemma WrittenSplits(ps: seq<Bytes>)
    requires forall i :: 0 <= i < |ps| ==> Line(ps[i])
    ensures NoCrCrLf(Ended(Written(ps))) && Normal(Ended(Written(ps))) == Ended(Written(ps))
    ensures Splits(Ended(Written(ps)), Written(ps), [])
  {
    var t := Ended(Written(ps));
    WrittenHasNoCr(ps);
    NormalFixed(t);
    assert t + [] == t;
    forall i | 0 <= i < |ps| ensures !HasBlank(Written(ps)[i] + [LF]) { WrittenReads(ps[i]); }
  }

  /** Round trip: payloads written as events, in any chunks of a 200 event stream within the limit,
      prove usage `u` exactly when they say it. */
  lemma WrittenStreamProves(format: Format, parse: Parser, ps: seq<Bytes>, chunks: seq<Bytes>, u: Usage)
    requires !format.Embedding? && forall i :: 0 <= i < |ps| ==> Line(ps[i])
    requires Joined(chunks) == Ended(Written(ps)) && |Ended(Written(ps))| <= LimitOf(format)
    ensures FinishWire(FeedWires(StartWire(format, EventStreamType, 200), parse, chunks), parse) == Some(u) <==> Says(format, parse, ps, u)
  {
    var t := Ended(Written(ps));
    WrittenSplits(ps);
    SplitIsEvents(t, Written(ps), []);
    WrittenPayloads(ps);
    ChunkingDoesNotMatter(format, EventStreamType, 200, parse, chunks);
    StreamProves(format, parse, t, u);
    assert Blank([]);
  }

  /** A chat whose connection ends before its marker proves nothing, whatever it reported. */
  lemma UnclosedChatProvesNothing(parse: Parser, ps: seq<Bytes>, chunks: seq<Bytes>)
    requires forall i :: 0 <= i < |ps| ==> Line(ps[i]) && ps[i] != DONE
    requires Joined(chunks) == Ended(Written(ps)) && |Ended(Written(ps))| <= LimitOf(Format.OpenAi)
    ensures FinishWire(FeedWires(StartWire(Format.OpenAi, EventStreamType, 200), parse, chunks), parse) == None
  {
    var out := FinishWire(FeedWires(StartWire(Format.OpenAi, EventStreamType, 200), parse, chunks), parse);
    if out.Some? { WrittenStreamProves(Format.OpenAi, parse, ps, chunks, out.value); }
  }
}
