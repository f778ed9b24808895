/** Incremental splitting of a byte stream into events at blank lines (the block structure of
    sections 9.2.5 and 9.2.6 of the WHATWG HTML Living Standard), for any event handler. */
module EventStream {
  import opened Basics
  import opened LineEndings

  predicate BlankAt(t: Bytes, k: int) {
    0 <= k < |t| - 1 && t[k] == LF && t[k + 1] == LF
  }

  /** The first empty line: the least index of two LFs in a row, or -1. */
  function FirstBlank(t: Bytes): (i: int)
    ensures i == -1 || BlankAt(t, i)
    ensures forall k :: 0 <= k < |t| && (i < 0 || k < i) ==> !BlankAt(t, k)
  {
    FirstBlankFrom(t, 0)
  }

  function FirstBlankFrom(t: Bytes, from: nat): (i: int)
    requires from <= |t|
    ensures i == -1 || (from <= i && BlankAt(t, i))
    ensures forall k :: from <= k < |t| && (i < 0 || k < i) ==> !BlankAt(t, k)
    decreases |t| - from
  {
    if from == |t| then -1 else if BlankAt(t, from) then from else FirstBlankFrom(t, from + 1)
  }

  /** Hands every complete event to the handler; a refusal (None) drops the buffer. */
  function Drain<S>(t: Bytes, st: S, step: (S, Bytes) -> Option<S>): (d: (Bytes, Option<S>))
    ensures d.1.None? ==> d.0 == []
    decreases |t|
  {
    var i := FirstBlank(t);
    if i < 0 then (t, Some(st))
    else
      var next := step(st, t[..i]);
      if next.None? then ([], None) else Drain(t[i + 2..], next.value, step)
  }

  /** The bytes the handler has been through when draining stops. */
  function Head<S>(t: Bytes, st: S, step: (S, Bytes) -> Option<S>): Bytes
    decreases |t|
  {
    var i := FirstBlank(t);
    if i < 0 then []
    else
      var next := step(st, t[..i]);
      if next.None? then t[..i + 2] else t[..i + 2] + Head(t[i + 2..], next.value, step)
  }

  lemma FirstBlankPrefix(t: Bytes, y: Bytes)
    requires FirstBlank(t) >= 0
    ensures FirstBlank(t[..FirstBlank(t) + 2] + y) == FirstBlank(t)
  {
    var i := FirstBlank(t);
    var u := t[..i + 2] + y;
    assert BlankAt(u, i);
    forall k | 0 <= k < i ensures !BlankAt(u, k) { assert !BlankAt(t, k); }
  }

  /** Draining its first event leaves the rest to drain. */
  lemma DrainOne<S>(t: Bytes, st: S, step: (S, Bytes) -> Option<S>, y: Bytes)
    requires FirstBlank(t) >= 0
    ensures var next := step(st, t[..FirstBlank(t)]);
            Drain(t[..FirstBlank(t) + 2] + y, st, step) == (if next.None? then ([], None) else Drain(y, next.value, step))
  {
    var i := FirstBlank(t);
    var u := t[..i + 2] + y;
    FirstBlankPrefix(t, y);
    assert u[..i] == t[..i] && u[i + 2..] == y;
  }

  /** The drained part ends its last line, and the buffer kept is what follows it. */
  lemma {:induction false} HeadShape<S>(t: Bytes, st: S, step: (S, Bytes) -> Option<S>)
    ensures Head(t, st, step) <= t
    ensures Head(t, st, step) == [] || Head(t, st, step)[|Head(t, st, step)| - 1] == LF
    ensures Drain(t, st, step).1.Some? ==> t[|Head(t, st, step)|..] == Drain(t, st, step).0
    decreases |t|
  {
    var i := FirstBlank(t);
    if i >= 0 {
      var next, rest := step(st, t[..i]), t[i + 2..];
      if next.Some? {
        HeadShape(rest, next.value, step);
        assert t == t[..i + 2] + rest;
      }
    }
  }

  lemma HeadStep<S>(t: Bytes, st: S, step: (S, Bytes) -> Option<S>, y: Bytes)
    requires FirstBlank(t) >= 0 && step(st, t[..FirstBlank(t)]).Some?
    ensures var i := FirstBlank(t);
            var next := step(st, t[..i]).value;
            && Head(t, st, step) + y == t[..i + 2] + (Head(t[i + 2..], next, step) + y)
            && Drain(t, st, step) == Drain(t[i + 2..], next, step)
  {
  }

  /** What was drained does not depend on what follows it. */
  lemma {:induction false} DrainContinues<S>(t: Bytes, st: S, step: (S, Bytes) -> Option<S>, y: Bytes)
    ensures var d := Drain(t, st, step);
            Drain(Head(t, st, step) + y, st, step) == (if d.1.Some? then Drain(y, d.1.value, step) else ([], None))
    decreases |t|
  {
    var i := FirstBlank(t);
    if i < 0 {
      assert [] + y == y;
    } else {
      var next, rest := step(st, t[..i]), t[i + 2..];
      if next.None? {
        DrainOne(t, st, step, y);
      } else {
        HeadStep(t, st, step, y);
        DrainContinues(rest, next.value, step, y);
        DrainOne(t, st, step, Head(rest, next.value, step) + y);
      }
    }
  }

  // ---- The reader -------------------------------------------------------------------------

  /** `state` is None once the reader is poisoned. */
  datatype Reader<S> = Reader(total: nat, buffer: Bytes, state: Option<S>)

  function FeedBytes<S>(r: Reader<S>, limit: nat, step: (S, Bytes) -> Option<S>, raw: Bytes): Reader<S> {
    if r.state.None? then r
    else if r.total + |raw| > limit then Reader(r.total + |raw|, [], None)
    else
      var d := Drain(Normal(r.buffer + raw), r.state.value, step);
      Reader(r.total + |raw|, d.0, d.1)
  }

  function FeedChunks<S>(r: Reader<S>, limit: nat, step: (S, Bytes) -> Option<S>, chunks: seq<Bytes>): Reader<S>
    decreases |chunks|
  {
    if chunks == [] then r
    else FeedBytes(FeedChunks(r, limit, step, chunks[..|chunks| - 1]), limit, step, chunks[|chunks| - 1])
  }

  function Joined(chunks: seq<Bytes>): Bytes
    decreases |chunks|
  {
    if chunks == [] then [] else Joined(chunks[..|chunks| - 1]) + chunks[|chunks| - 1]
  }

  /** The reader that saw the whole stream at once. */
  function Whole<S>(st: S, limit: nat, step: (S, Bytes) -> Option<S>, s: Bytes): Reader<S> {
    FeedBytes(Reader(0, [], Some(st)), limit, step, s)
  }

  /** New bytes after a drained text normalise to the drained part and the normalised remainder. */
  lemma NormalAfterHead(h: Bytes, rest: Bytes, raw: Bytes)
    requires NoCrLf(h + rest) && (h == [] || h[|h| - 1] == LF)
    ensures Normal(h + rest + raw) == h + Normal(rest + raw)
  {
    assert h + rest + raw == h + (rest + raw);
    NormalConcat(h, rest + raw);
    forall i | 0 <= i < |h| ensures !CrLfAt(h, i) { assert !CrLfAt(h + rest, i); }
    NormalFixed(h);
  }

  lemma DrainAppend<S>(s: Bytes, raw: Bytes, st: S, step: (S, Bytes) -> Option<S>)
    requires NoCrCrLf(s + raw)
    ensures var d := Drain(Normal(s), st, step);
            && (d.1.Some? ==> Drain(Normal(s + raw), st, step) == Drain(Normal(d.0 + raw), d.1.value, step))
            && (d.1.None? ==> Drain(Normal(s + raw), st, step) == ([], None))
  {
    var t := Normal(s);
    var h := Head(t, st, step);
    HeadShape(t, st, step);
    var rest := t[|h|..];
    assert t == h + rest;
    PiecesKeepNoCrCrLf(s, raw);
    NormalLeavesCrLf(s);
    NormalIncremental(s, raw);
    NormalAfterHead(h, rest, raw);
    DrainContinues(t, st, step, Normal(rest + raw));
  }

  /** A reader that agrees with the whole-stream reader still agrees after one more chunk. */
  lemma FeedBytesAgrees<S>(r: Reader<S>, st: S, limit: nat, step: (S, Bytes) -> Option<S>, s: Bytes, raw: Bytes)
    requires NoCrCrLf(s + raw) && Agrees(r, st, limit, step, s)
    ensures Agrees(FeedBytes(r, limit, step, raw), st, limit, step, s + raw)
  {
    if |s + raw| <= limit { DrainAppend(s, raw, st, step); }
  }

  /** The buffer and state a stream `s` leaves, and the count of its bytes while it is accepted. */
  ghost predicate Agrees<S>(r: Reader<S>, st: S, limit: nat, step: (S, Bytes) -> Option<S>, s: Bytes) {
    if |s| > limit then r.state == None && r.buffer == []
    else r.buffer == Drain(Normal(s), st, step).0 && r.state == Drain(Normal(s), st, step).1 && (r.state.Some? ==> r.total == |s|)
  }

  lemma WholeAgrees<S>(st: S, limit: nat, step: (S, Bytes) -> Option<S>, s: Bytes)
    ensures Agrees(Whole(st, limit, step, s), st, limit, step, s)
  {
    assert [] + s == s;
  }

  lemma {:induction false} ChunksAgree<S>(st: S, limit: nat, step: (S, Bytes) -> Option<S>, chunks: seq<Bytes>)
    requires NoCrCrLf(Joined(chunks))
    ensures Agrees(FeedChunks(Reader(0, [], Some(st)), limit, step, chunks), st, limit, step, Joined(chunks))
    decreases |chunks|
  {
    if chunks != [] {
      var n := |chunks| - 1;
      PiecesKeepNoCrCrLf(Joined(chunks[..n]), chunks[n]);
      ChunksAgree(st, limit, step, chunks[..n]);
      FeedBytesAgrees(FeedChunks(Reader(0, [], Some(st)), limit, step, chunks[..n]), st, limit, step, Joined(chunks[..n]), chunks[n]);
    }
  }

  /** Chunking independence: however a stream without CR CR LF is cut, the reader ends with the same
      buffer and the same state, size limit and refusals included. */
  lemma ChunkingIndependence<S>(st: S, limit: nat, step: (S, Bytes) -> Option<S>, chunks: seq<Bytes>)
    requires NoCrCrLf(Joined(chunks))
    ensures FeedChunks(Reader(0, [], Some(st)), limit, step, chunks).buffer == Whole(st, limit, step, Joined(chunks)).buffer
    ensures FeedChunks(Reader(0, [], Some(st)), limit, step, chunks).state == Whole(st, limit, step, Joined(chunks)).state
  {
    ChunksAgree(st, limit, step, chunks);
    WholeAgrees(st, limit, step, Joined(chunks));
  }
}
