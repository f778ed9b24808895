/** From the provider's bytes to the ledger: whatever usage a response proves can be priced, and
    within the reviewed limits its receipt settles the reservation without conflict. */
module PricedEvidence {
  import opened Basics
  import opened LineEndings
  import opened EventStream
  import opened UsageGrammar
  import opened TerminalEvidence
  import opened WireEvidence
  import P = Pricing
  import M = Money
  import L = BudgetLedger

  predicate SafeCounts(u: Usage) {
    && u.input <= MAX_SAFE_INTEGER && u.output <= MAX_SAFE_INTEGER
    && u.cacheRead <= MAX_SAFE_INTEGER && u.cacheWrite <= MAX_SAFE_INTEGER
  }

  predicate ChatShaped(u: Usage) {
    SafeCounts(u) && u.cacheRead <= u.input && u.cacheWrite == 0
  }

  /** The counts that the evidence holds so far are whole, safe and shaped as the path's are. */
  predicate Measured(path: Path, e: Evidence) {
    match e
    case Poisoned => true
    case Waiting => path.Messages?
    case Streaming(u, n) => path.Messages? && SafeCounts(u) && n <= MAX_SAFE_INTEGER
    case Final(u) => path.Messages? && SafeCounts(u)
    case Stopped(u) => path.Messages? && SafeCounts(u)
    case Chat(_, _, reported) => !path.Messages? && (reported.Some? ==> ChatShaped(reported.value))
  }

  lemma MessageIsSafe(d: Json)
    ensures ReadMessage(d).Start? ==> SafeCounts(ReadMessage(d).usage)
    ensures ReadMessage(d).Delta? ==> ReadMessage(d).tokens <= MAX_SAFE_INTEGER
  {
  }

  lemma ChunkIsShaped(d: Json)
    ensures ReadChunk(d).Chunk? && ReadChunk(d).usage.Some? ==> ChatShaped(ReadChunk(d).usage.value)
  {
  }

  lemma FeedMeasured(path: Path, e: Evidence, d: Json)
    requires Measured(path, e)
    ensures Measured(path, Feed(e, path, d))
  {
    if path.Messages? { MessageIsSafe(d); MessageMeasured(path, e, ReadMessage(d)); } else { ChunkIsShaped(d); }
  }

  lemma MessageMeasured(path: Path, e: Evidence, m: Message)
    requires path.Messages? && Measured(path, e)
    requires (m.Start? ==> SafeCounts(m.usage)) && (m.Delta? ==> m.tokens <= MAX_SAFE_INTEGER)
    ensures Measured(path, FeedMessage(e, m))
  {
  }

  lemma {:induction false} DrainMeasured(path: Path, parse: Parser, t: Bytes, p: Progress)
    requires Measured(path, p.events)
    ensures var d := Drain(t, p, OnEvent(path, parse)).1; d.Some? ==> Measured(path, d.value.events)
    decreases |t|
  {
    var i := FirstBlank(t);
    if i >= 0 {
      DrainEvent(t, p, path, parse);
      var data := DataLines(Lines(t[..i]));
      if data == [] {
        DrainMeasured(path, parse, t[i + 2..], p);
      } else {
        var next := OnPayload(p, path, parse, JoinLines(data));
        if next.Some? {
          PayloadMeasured(path, parse, p, JoinLines(data));
          DrainMeasured(path, parse, t[i + 2..], next.value);
        }
      }
    }
  }

  lemma PayloadMeasured(path: Path, parse: Parser, p: Progress, payload: Bytes)
    requires Measured(path, p.events)
    ensures var next := OnPayload(p, path, parse, payload); next.Some? ==> Measured(path, next.value.events)
  {
    if payload != DONE && parse(payload).Some? { FeedMeasured(path, p.events, parse(payload).value); }
  }

  predicate WireMeasured(w: Wire) {
    w.reader.state.Some? ==> Measured(PathOf(w.format), w.reader.state.value.events) && !(w.format.Embedding? && w.sse)
  }

  lemma FeedWireMeasured(w: Wire, parse: Parser, raw: Bytes)
    requires WireMeasured(w)
    ensures WireMeasured(FeedWire(w, parse, raw))
  {
    if w.sse && w.reader.state.Some? {
      DrainMeasured(PathOf(w.format), parse, Normal(w.reader.buffer + raw), w.reader.state.value);
    }
  }

  lemma {:induction false} WiresMeasured(w: Wire, parse: Parser, chunks: seq<Bytes>)
    requires WireMeasured(w)
    ensures WireMeasured(FeedWires(w, parse, chunks)) && FeedWires(w, parse, chunks).format == w.format
    decreases |chunks|
  {
    if chunks != [] {
      var n := |chunks| - 1;
      WiresMeasured(w, parse, chunks[..n]);
      FeedWireMeasured(FeedWires(w, parse, chunks[..n]), parse, chunks[n]);
    }
  }

  /** What a proven usage of each wire format looks like. */
  predicate Shaped(format: Format, u: Usage) {
    && SafeCounts(u)
    && (format.OpenAi? ==> u.cacheRead <= u.input && u.cacheWrite == 0)
    && (format.Embedding? ==> u.output == 0 && u.cacheRead == 0 && u.cacheWrite == 0)
  }

  lemma DocumentIsShaped(format: Format, d: Json)
    ensures var u := NonStream(PathOf(format), d); u.Some? ==> Shaped(format, u.value)
  {
  }

  lemma FinishIsShaped(w: Wire, parse: Parser)
    requires WireMeasured(w)
    ensures FinishWire(w, parse).Some? ==> Shaped(w.format, FinishWire(w, parse).value)
  {
    if w.reader.state.Some? && !w.sse && parse(w.reader.buffer).Some? {
      DocumentIsShaped(w.format, parse(w.reader.buffer).value);
    }
  }

  /** However the bytes come, the usage a response proves has the shape of its format. */
  lemma ProvenUsageIsShaped(format: Format, content: ContentType, status: int, parse: Parser, chunks: seq<Bytes>)
    ensures var u := FinishWire(FeedWires(StartWire(format, content, status), parse, chunks), parse);
            u.Some? ==> Shaped(format, u.value)
  {
    var w := StartWire(format, content, status);
    WiresMeasured(w, parse, chunks);
    FinishIsShaped(FeedWires(w, parse, chunks), parse);
  }

  function PricingFormat(format: Format): P.Format {
    match format
    case OpenAi => P.OpenAi
    case Anthropic => P.Anthropic
    case Embedding => P.Embedding
  }

  /** Every usage a response proves is priced under the reviewed profile of its format, so no
      proven overage is ever lost to a pricing refusal. */
  lemma ProvenUsageIsPriced(format: Format, content: ContentType, status: int, parse: Parser, chunks: seq<Bytes>, p: P.Profile, u: Usage)
    requires P.ValidProfile(p) && p.format == PricingFormat(format)
    requires FinishWire(FeedWires(StartWire(format, content, status), parse, chunks), parse) == Some(u)
    ensures P.ValidUsage(p, u)
    ensures P.IsAmount(P.ActualAmount(p, u), P.RoundUp(P.ActualNumerator(p, u, P.Units(p.rates))))
  {
    ProvenUsageIsShaped(format, content, status, parse, chunks);
    P.ActualAmountIsExact(p, u);
  }

  /** From bytes to ledger: with the maximum liability reserved, the first receipt for a response
      within the reviewed limits settles the attempt at the exact cost. */
  lemma ProvenUsageSettles(format: Format, content: ContentType, status: int, parse: Parser, chunks: seq<Bytes>,
                           p: P.Profile, u: Usage, a: L.Attempt, hash: L.Hash)
    requires P.MaximumLiability(p).Some? && M.WellFormed(P.MaximumLiability(p).value) && p.format == PricingFormat(format)
    requires FinishWire(FeedWires(StartWire(format, content, status), parse, chunks), parse) == Some(u)
    requires P.WithinLimits(p, u)
    requires a.reserved == M.TotalUnits(P.MaximumLiability(p).value)
    requires (a.state.Admitted? || a.state.Unknown?) && a.settlement == None
    ensures P.ValidUsage(p, u) && P.ActualAmount(p, u).Some? && M.WellFormed(P.ActualAmount(p, u).value)
    ensures var b := L.Receive(a, hash, M.TotalUnits(P.ActualAmount(p, u).value));
            && b.state.Settled?
            && b.settlement == Some(L.Settlement(hash, P.RoundUp(P.ActualNumerator(p, u, P.Units(p.rates)))))
  {
    ProvenUsageIsShaped(format, content, status, parse, chunks);
    P.ReviewedReceiptSettles(p, u, a, hash);
  }
}
