/** The terminal usage grammar over what single documents say. Only an exact terminal stream yields
    usage; anything else poisons the evidence for good. */
module UsageGrammar {
  import opened Basics

  datatype Usage = Usage(input: nat, output: nat, cacheRead: nat, cacheWrite: nat)

  /** One document of an Anthropic stream. */
  datatype Message = Start(usage: Usage) | Block | Delta(tokens: nat, final: bool) | Stop | BadMessage

  datatype Choice = NoChoice | Partial | Finish

  /** One document of an OpenAI stream. */
  datatype Chunk = Chunk(id: string, choice: Choice, usage: Option<Usage>) | BadChunk

  datatype Evidence =
    | Poisoned
    | Waiting                                                   // Anthropic: nothing yet
    | Streaming(usage: Usage, tokens: nat)                      // after message_start
    | Final(usage: Usage)                                       // after the delta with a stop reason
    | Stopped(usage: Usage)                                     // after message_stop
    | Chat(id: Option<string>, finished: bool, reported: Option<Usage>)

  function FeedMessage(e: Evidence, m: Message): Evidence {
    match (e, m)
    case (Waiting, Start(u)) => Streaming(u, u.output)
    case (Streaming(u, n), Block) => e
    case (Streaming(u, n), Delta(output, final)) =>
      if output < n then Poisoned else if final then Final(u.(output := output)) else Streaming(u, output)
    case (Final(u), Stop) => Stopped(u)
    case _ => Poisoned
  }

  function FeedChunk(e: Evidence, c: Chunk): Evidence {
    if !e.Chat? || c.BadChunk? || (e.id.Some? && e.id.value != c.id) then Poisoned
    else if e.finished && !c.choice.NoChoice? then Poisoned
    else
      var finished := e.finished || c.choice.Finish?;
      if c.usage.Some? && (!finished || e.reported.Some?) then Poisoned
      else Chat(Some(c.id), finished, if c.usage.Some? then c.usage else e.reported)
  }

  function Result(e: Evidence): Option<Usage> {
    match e
    case Stopped(u) => Some(u)
    case Chat(_, true, reported) => reported
    case _ => None
  }

  function FeedMessages(ms: seq<Message>): Evidence
    decreases |ms|
  {
    if ms == [] then Waiting else FeedMessage(FeedMessages(ms[..|ms| - 1]), ms[|ms| - 1])
  }

  function FeedChunks(cs: seq<Chunk>): Evidence
    decreases |cs|
  {
    if cs == [] then Chat(None, false, None) else FeedChunk(FeedChunks(cs[..|cs| - 1]), cs[|cs| - 1])
  }

  // ---- The Anthropic grammar --------------------------------------------------------------

  /** The output tokens a document reports, when it reports any. */
  function Tokens(m: Message): Option<nat> {
    match m
    case Start(u) => Some(u.output)
    case Delta(n, _) => Some(n)
    case _ => None
  }

  predicate Rising(ms: seq<Message>) {
    forall i, j :: 0 <= i < j < |ms| && Tokens(ms[i]).Some? && Tokens(ms[j]).Some? ==> Tokens(ms[i]).value <= Tokens(ms[j]).value
  }

  predicate Ongoing(m: Message) {
    m.Block? || (m.Delta? && !m.final)
  }

  /** message_start, then only content blocks, pings and partial deltas, outputs never falling. */
  predicate Underway(ms: seq<Message>, u: Usage) {
    ms != [] && ms[0] == Start(u) && Rising(ms) && forall i :: 1 <= i < |ms| ==> Ongoing(ms[i])
  }

  /** A stream under way and its one final delta. The usage is message_start's input and cache
      counts with the final delta's output. */
  predicate Concluded(ms: seq<Message>, u: Usage) {
    var n := |ms| - 1;
    && n >= 1 && ms[n] == Delta(u.output, true) && ms[0].Start? && u == ms[0].usage.(output := u.output)
    && Underway(ms[..n], ms[0].usage) && Rising(ms)
  }

  /** The full terminal grammar: a concluded stream, one message_stop, and no more. */
  predicate AnthropicStream(ms: seq<Message>, u: Usage) {
    ms != [] && ms[|ms| - 1] == Stop && Concluded(ms[..|ms| - 1], u)
  }

  /** `n` is the largest output reported so far. */
  predicate Latest(ms: seq<Message>, n: nat) {
    && (exists i :: 0 <= i < |ms| && Tokens(ms[i]) == Some(n))
    && (forall i :: 0 <= i < |ms| && Tokens(ms[i]).Some? ==> Tokens(ms[i]).value <= n)
  }

  /** One more document keeps outputs rising exactly when it reports at least the latest. */
  lemma RisingStep(ms: seq<Message>, m: Message, latest: nat)
    requires Latest(ms, latest) && Rising(ms)
    ensures Rising(ms + [m]) <==> Tokens(m).None? || latest <= Tokens(m).value
    ensures Rising(ms + [m]) ==> Latest(ms + [m], if Tokens(m).Some? then Tokens(m).value else latest)
  {
    var all := ms + [m];
    var w :| 0 <= w < |ms| && Tokens(ms[w]) == Some(latest);
    assert all[w] == ms[w] && all[|ms|] == m;
    if Rising(all) && Tokens(m).Some? {
      assert latest <= Tokens(m).value;
    }
  }

  /** The latest output of a stream under way. */
  lemma {:induction false} LatestOf(ms: seq<Message>) returns (n: nat)
    requires ms != [] && ms[0].Start? && Rising(ms)
    ensures Latest(ms, n)
    decreases |ms|
  {
    if |ms| == 1 {
      n := ms[0].usage.output;
      assert Tokens(ms[0]) == Some(n);
    } else {
      var k := |ms| - 1;
      assert ms[..k] + [ms[k]] == ms;
      var before := LatestOf(ms[..k]);
      RisingStep(ms[..k], ms[k], before);
      n := if Tokens(ms[k]).Some? then Tokens(ms[k]).value else before;
    }
  }

  lemma LatestUnique(ms: seq<Message>, m: nat, n: nat)
    requires Latest(ms, m) && Latest(ms, n)
    ensures m == n
  {
  }

  lemma UnderwaySplits(ms: seq<Message>, m: Message, u: Usage)
    requires ms != []
    ensures Underway(ms + [m], u) <==> Underway(ms, u) && Ongoing(m) && Rising(ms + [m])
  {
    var all := ms + [m];
    assert all[|ms|] == m && forall i :: 0 <= i < |ms| ==> all[i] == ms[i];
  }

  lemma {:induction false} StreamingMeans(ms: seq<Message>, u: Usage, n: nat)
    ensures FeedMessages(ms) == Streaming(u, n) <==> Underway(ms, u) && Latest(ms, n)
    decreases |ms|
  {
    if |ms| == 1 {
      assert FeedMessages(ms[..0]) == Waiting;
      if ms[0].Start? { assert Latest(ms, ms[0].usage.output) by { assert Tokens(ms[0]) == Some(ms[0].usage.output); } }
      if Underway(ms, u) && Latest(ms, n) { LatestUnique(ms, n, u.output); }
    } else if |ms| > 1 {
      var k := |ms| - 1;
      assert ms[..k] + [ms[k]] == ms;
      UnderwaySplits(ms[..k], ms[k], u);
      if Underway(ms[..k], u) {
        var latest := LatestOf(ms[..k]);
        StreamingMeans(ms[..k], u, latest);
        StreamingStep(ms[..k], ms[k], u, latest, n);
      } else {
        var e := FeedMessages(ms[..k]);
        if e.Streaming? { StreamingMeans(ms[..k], e.usage, e.tokens); }
        OnlyEmptyWaits(ms[..k]);
      }
    }
  }

  lemma StreamingStep(ms: seq<Message>, m: Message, u: Usage, latest: nat, n: nat)
    requires ms != [] && Underway(ms, u) && Latest(ms, latest)
    ensures FeedMessage(Streaming(u, latest), m) == Streaming(u, n) <==> Underway(ms + [m], u) && Latest(ms + [m], n)
  {
    RisingStep(ms, m, latest);
    UnderwaySplits(ms, m, u);
    if Underway(ms + [m], u) && Latest(ms + [m], n) {
      LatestUnique(ms + [m], n, if Tokens(m).Some? then Tokens(m).value else latest);
    }
  }

  lemma {:induction false} OnlyEmptyWaits(ms: seq<Message>)
    ensures FeedMessages(ms).Waiting? <==> ms == []
  {
  }

  lemma FinalMeans(ms: seq<Message>, u: Usage)
    ensures FeedMessages(ms) == Final(u) <==> Concluded(ms, u)
  {
    if ms != [] {
      var k := |ms| - 1;
      assert ms[..k] + [ms[k]] == ms;
      OnlyEmptyWaits(ms[..k]);
      var e := FeedMessages(ms[..k]);
      if e.Streaming? {
        StreamingMeans(ms[..k], e.usage, e.tokens);
        RisingStep(ms[..k], ms[k], e.tokens);
      } else if Concluded(ms, u) {
        var latest := LatestOf(ms[..k]);
        StreamingMeans(ms[..k], ms[0].usage, latest);
      }
    }
  }

  /** An Anthropic stream yields usage exactly when it matches the full terminal grammar. */
  lemma AnthropicResult(ms: seq<Message>, u: Usage)
    ensures Result(FeedMessages(ms)) == Some(u) <==> AnthropicStream(ms, u)
  {
    OnlyEmptyWaits(ms);
    NeverChat(ms);
    if ms != [] { FinalMeans(ms[..|ms| - 1], u); }
  }

  lemma {:induction false} NeverChat(ms: seq<Message>)
    ensures !FeedMessages(ms).Chat?
  {
  }

  /** The output charged is the largest output any document of the stream reported. */
  lemma AnthropicOutputIsMaximum(ms: seq<Message>, u: Usage, i: nat)
    requires Result(FeedMessages(ms)) == Some(u) && i < |ms| && Tokens(ms[i]).Some?
    ensures Tokens(ms[i]).value <= u.output
  {
    AnthropicResult(ms, u);
    var front := ms[..|ms| - 1];
    assert Tokens(front[|front| - 1]) == Some(u.output);
    assert i < |front| && front[i] == ms[i];
  }

  // ---- The OpenAI grammar -----------------------------------------------------------------

  predicate OneId(cs: seq<Chunk>) {
    forall i :: 0 <= i < |cs| ==> cs[i].Chunk? && cs[0].Chunk? && cs[i].id == cs[0].id
  }

  /** Exactly document `f` finishes, and no choice follows it. */
  predicate FinishesAt(cs: seq<Chunk>, f: int)
    requires OneId(cs)
  {
    forall i :: 0 <= i < |cs| ==> (cs[i].choice.Finish? <==> i == f) && (0 <= f < i ==> cs[i].choice.NoChoice?)
  }

  /** Exactly document `k` carries usage, and it is `u`. */
  predicate ReportsAt(cs: seq<Chunk>, k: int, u: Usage)
    requires OneId(cs)
  {
    forall i :: 0 <= i < |cs| ==> cs[i].usage == (if i == k then Some(u) else None)
  }

  /** The full terminal grammar: one id throughout, one finish with no choice after it, one usage
      report not before the finish. */
  ghost predicate OpenAiStream(cs: seq<Chunk>, u: Usage) {
    OneId(cs) && exists f: int, k: int :: 0 <= f <= k < |cs| && FinishesAt(cs, f) && ReportsAt(cs, k, u)
  }

  /** What the state reached says about the documents fed; -1 stands for "not yet". */
  ghost predicate ChatMeaning(cs: seq<Chunk>, e: Evidence, f: int, k: int) {
    && e.Chat? && OneId(cs) && -1 <= f < |cs| && -1 <= k < |cs| && (k >= 0 ==> 0 <= f <= k)
    && e.id == (if cs == [] then None else Some(cs[0].id))
    && (e.finished <==> f >= 0) && (e.reported.Some? <==> k >= 0)
    && FinishesAt(cs, f) && ReportsAt(cs, k, if e.reported.Some? then e.reported.value else Usage(0, 0, 0, 0))
  }

  lemma ChatStep(cs: seq<Chunk>, e: Evidence, c: Chunk, f: int, k: int)
    requires ChatMeaning(cs, e, f, k) && FeedChunk(e, c).Chat?
    ensures ChatMeaning(cs + [c], FeedChunk(e, c), if c.choice.Finish? then |cs| else f, if c.usage.Some? then |cs| else k)
  {
    var all := cs + [c];
    assert all[|cs|] == c && forall i :: 0 <= i < |cs| ==> all[i] == cs[i];
  }

  lemma {:induction false} ChatMeans(cs: seq<Chunk>) returns (f: int, k: int)
    requires FeedChunks(cs).Chat?
    ensures ChatMeaning(cs, FeedChunks(cs), f, k)
    decreases |cs|
  {
    if cs == [] { return -1, -1; }
    var n := |cs| - 1;
    f, k := ChatMeans(cs[..n]);
    ChatStep(cs[..n], FeedChunks(cs[..n]), cs[n], f, k);
    assert cs == cs[..n] + [cs[n]];
    if cs[n].choice.Finish? { f := n; }
    if cs[n].usage.Some? { k := n; }
  }

  /** Conversely, a prefix of a well-formed stream is never refused. */
  lemma {:induction false} ChatAccepts(cs: seq<Chunk>, f: int, k: int, u: Usage, n: nat)
    requires OneId(cs) && 0 <= f <= k < |cs| && FinishesAt(cs, f) && ReportsAt(cs, k, u) && n <= |cs|
    ensures FeedChunks(cs[..n])
         == Chat(if n == 0 then None else Some(cs[0].id), f < n, if k < n then Some(u) else None)
    decreases n
  {
    if n > 0 {
      ChatAccepts(cs, f, k, u, n - 1);
      assert cs[..n][..n - 1] == cs[..n - 1];
    }
  }

  /** An OpenAI stream yields usage exactly when it matches the full terminal grammar. */
  lemma OpenAiResult(cs: seq<Chunk>, u: Usage)
    ensures Result(FeedChunks(cs)) == Some(u) <==> OpenAiStream(cs, u)
  {
    assert FeedChunks(cs).Chat? || FeedChunks(cs).Poisoned?;
    if FeedChunks(cs).Chat? {
      var f, k := ChatMeans(cs);
    }
    if OpenAiStream(cs, u) {
      var f: int, k: int :| 0 <= f <= k < |cs| && FinishesAt(cs, f) && ReportsAt(cs, k, u);
      ChatAccepts(cs, f, k, u, |cs|);
      assert cs[..|cs|] == cs;
    }
  }
}
