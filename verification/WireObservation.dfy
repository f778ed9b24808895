/** Watching the response pass by. A client may stop reading at the terminal marker, so the rest of
    the stream is read before that marker is handed on. */
module WireObservation {
  import opened Basics
  import opened LineEndings
  import opened UsageGrammar
  import opened EventStream
  import opened WireEvidence

  /** The stream has shown its terminal marker, and nothing wrong so far. */
  predicate AtMarker(w: Wire) {
    && w.sse && w.reader.state.Some?
    && (w.reader.state.value.done || w.reader.state.value.events.Stopped?
        || (w.reader.state.value.events.Chat? && w.reader.state.value.events.finished))
  }

  lemma {:induction false} RefusalStays(w: Wire, parse: Parser, chunks: seq<Bytes>, n: nat)
    requires n <= |chunks| && FeedWires(w, parse, chunks[..n]).reader.state.None?
    ensures FeedWires(w, parse, chunks).reader.state.None?
    decreases |chunks| - n
  {
    if n < |chunks| {
      assert chunks[..n + 1][..n] == chunks[..n];
      RefusalStays(w, parse, chunks, n + 1);
    } else {
      assert chunks[..n] == chunks;
    }
  }

  /** `failsAt` is the read, if any, at which the connection fails or times out. */
  predicate Reads(failsAt: Option<nat>, n: nat) {
    failsAt.None? || failsAt.value >= n
  }

  /** What the reader knows after the first `n` chunks. */
  ghost function After(start: Wire, parse: Parser, chunks: seq<Bytes>, n: nat): Wire
    requires n <= |chunks|
  {
    FeedWires(start, parse, chunks[..n])
  }

  lemma AfterStep(start: Wire, parse: Parser, chunks: seq<Bytes>, n: nat)
    requires n < |chunks|
    ensures After(start, parse, chunks, n + 1) == FeedWire(After(start, parse, chunks, n), parse, chunks[n])
    ensures After(start, parse, chunks, |chunks|) == FeedWires(start, parse, chunks)
  {
    assert chunks[..n + 1][..n] == chunks[..n];
    assert chunks[..|chunks|] == chunks;
  }

  /** Reads on after the marker, until the end, a failure or a refusal; `n` chunks are then kept. */
  method DrainTail(reader: WireReader, ghost start: Wire, chunks: seq<Bytes>, from: nat, failsAt: Option<nat>) returns (n: nat)
    requires reader.Valid() && from <= |chunks| && Reads(failsAt, from)
    requires reader.View() == After(start, reader.parse, chunks, from)
    modifies reader, reader.events
    ensures reader.Valid() && from <= n <= |chunks|
    ensures !reader.poisoned ==>
              n == |chunks| && Reads(failsAt, |chunks| + 1) && reader.View() == After(start, reader.parse, chunks, |chunks|)
    ensures reader.poisoned && Reads(failsAt, |chunks| + 1) ==> FeedWires(start, reader.parse, chunks).reader.state.None?
  {
    n := from;
    while n < |chunks|
      invariant from <= n <= |chunks| && Reads(failsAt, n) && reader.Valid()
      invariant reader.View() == After(start, reader.parse, chunks, n)
    {
      if failsAt == Some(n) { reader.poisoned := true; return; }
      AfterStep(start, reader.parse, chunks, n);
      reader.FeedRaw(chunks[n]);
      if reader.poisoned {
        RefusalStays(start, reader.parse, chunks, n + 1);
        return;
      }
      n := n + 1;
    }
    if reader.poisoned { RefusalStays(start, reader.parse, chunks, n); }
    if failsAt == Some(n) { reader.poisoned := true; }
  }

  /** No chunk among the first `n` showed the marker. */
  ghost predicate Unmarked(start: Wire, parse: Parser, chunks: seq<Bytes>, n: nat)
    requires n <= |chunks|
  {
    forall k :: 0 < k <= n ==> !AtMarker(After(start, parse, chunks, k))
  }

  lemma MarkerShows(reader: WireReader)
    requires reader.Valid()
    ensures AtMarker(reader.View()) ==> reader.sse && (reader.done || reader.events.stopped)
  {
  }

  method FeedNext(reader: WireReader, ghost start: Wire, chunks: seq<Bytes>, n: nat) returns (marked: bool)
    requires reader.Valid() && n < |chunks| && reader.View() == After(start, reader.parse, chunks, n)
    modifies reader, reader.events
    ensures reader.Valid() && reader.View() == After(start, reader.parse, chunks, n + 1)
    ensures AtMarker(After(start, reader.parse, chunks, n + 1)) ==> marked
  {
    AfterStep(start, reader.parse, chunks, n);
    reader.FeedRaw(chunks[n]);
    MarkerShows(reader);
    marked := reader.sse && (reader.done || reader.events.stopped);
  }

  /** Hands chunks on as they come until one shows the marker, the stream ends, or a read fails. */
  method PassUntilMarker(reader: WireReader, ghost start: Wire, chunks: seq<Bytes>, failsAt: Option<nat>) returns (n: nat, marked: bool)
    requires reader.Valid() && reader.View() == start
    modifies reader, reader.events
    ensures reader.Valid() && n <= |chunks| && Reads(failsAt, n) && Unmarked(start, reader.parse, chunks, n)
    ensures marked ==> n < |chunks| && Reads(failsAt, n + 1) && reader.View() == After(start, reader.parse, chunks, n + 1)
    ensures !marked ==> reader.View() == After(start, reader.parse, chunks, n) && (n == |chunks| || failsAt == Some(n))
  {
    n, marked := 0, false;
    while n < |chunks|
      invariant n <= |chunks| && !marked && Reads(failsAt, n) && Unmarked(start, reader.parse, chunks, n)
      invariant reader.Valid() && reader.View() == After(start, reader.parse, chunks, n)
    {
      if failsAt == Some(n) { return; }
      marked := FeedNext(reader, start, chunks, n);
      if marked { return; }
      n := n + 1;
    }
  }

  /** EvidenceStream.observe: the usage recorded, the chunks handed on, and how many of those were
      handed on before the usage was recorded. */
  method Observe(reader: WireReader, chunks: seq<Bytes>, failsAt: Option<nat>)
    returns (usage: Option<Usage>, passed: seq<Bytes>, early: nat)
    requires reader.Valid()
    modifies reader, reader.events
    // A whole stream is judged by all its bytes, whichever chunk showed the marker.
    ensures Reads(failsAt, |chunks| + 1) ==> usage == FinishWire(FeedWires(old(reader.View()), reader.parse, chunks), reader.parse)
    // A stream that fails anywhere proves nothing.
    ensures !Reads(failsAt, |chunks| + 1) ==> usage == None
    ensures passed <= chunks && early <= |passed|
    ensures usage.Some? ==> passed == chunks
    // No client sees the marker before the usage is on record.
    ensures Unmarked(old(reader.View()), reader.parse, chunks, early)
  {
    ghost var start := reader.View();
    var marked;
    early, marked := PassUntilMarker(reader, start, chunks, failsAt);
    passed, usage := chunks[..early], None;
    assert chunks[..|chunks|] == chunks;
    if marked {
      var n := DrainTail(reader, start, chunks, early + 1, failsAt);
      usage := reader.Finish();
      passed := chunks[..n];
    } else if failsAt != Some(early) {
      usage := reader.Finish();
    }
  }

  /** So what is recorded depends on the bytes alone, not on how they came. */
  lemma RecordedUsageIsOfTheBytes(format: Format, content: ContentType, parse: Parser, x: seq<Bytes>, y: seq<Bytes>)
    requires Joined(x) == Joined(y) && (content.EventStreamType? ==> NoCrCrLf(Joined(x)))
    ensures FinishWire(FeedWires(StartWire(format, content, 200), parse, x), parse)
         == FinishWire(FeedWires(StartWire(format, content, 200), parse, y), parse)
  {
    ChunkingDoesNotMatter(format, content, 200, parse, x);
    ChunkingDoesNotMatter(format, content, 200, parse, y);
  }
}
