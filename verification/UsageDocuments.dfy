/** Which provider documents mean which usage, field by field, and documents written the way the
    providers write them. */
module UsageDocuments {
  import opened Basics
  import opened UsageGrammar
  import opened TerminalEvidence

  /** The field holds this count: a whole number that is safe. */
  predicate Counts(v: Json, key: string, n: nat) {
    v.Obj? && key in v.fields && v.fields[key] == Int(n) && n <= MAX_SAFE_INTEGER
  }

  predicate CountsOrAbsent(v: Json, key: string, n: nat) {
    Counts(v, key, n) || (v.Obj? && key !in v.fields && n == 0)
  }

  predicate Says(v: Json, key: string, text: string) {
    v.Obj? && key in v.fields && v.fields[key] == Str(text)
  }

  // ---- Usage readers ----------------------------------------------------------------------

  /** Anthropic: input, output, cache reads and cache writes each under its own name, the cache counts
      zero when absent. */
  lemma AnthropicUsageExactly(v: Json, u: Usage)
    ensures AnthropicUsage(v) == Some(u) <==>
            && Counts(v, "input_tokens", u.input) && Counts(v, "output_tokens", u.output)
            && CountsOrAbsent(v, "cache_read_input_tokens", u.cacheRead)
            && CountsOrAbsent(v, "cache_creation_input_tokens", u.cacheWrite)
  {
  }

  /** OpenAI: prompt and completion tokens that add up to the total, and the cached part of the prompt. */
  lemma OpenAiUsageExactly(v: Json, u: Usage)
    ensures OpenAiUsage(v) == Some(u) <==>
            && Counts(v, "prompt_tokens", u.input) && Counts(v, "completion_tokens", u.output)
            && Counts(v, "total_tokens", u.input + u.output) && u.cacheWrite == 0 && u.cacheRead <= u.input
            && CachedIs(v, u.cacheRead)
  {
  }

  predicate CachedIs(v: Json, n: nat) {
    var details := Get(v, "prompt_tokens_details");
    if Falsy(details) then n == 0 else CountsOrAbsent(details, "cached_tokens", n)
  }

  /** Embeddings: prompt tokens alone make the total. */
  lemma EmbeddingUsageExactly(v: Json, u: Usage)
    ensures EmbeddingUsage(v) == Some(u) <==>
            && Counts(v, "prompt_tokens", u.input) && Counts(v, "total_tokens", u.input)
            && CountsOrAbsent(v, "completion_tokens", 0) && u == Usage(u.input, 0, 0, 0)
  {
  }

  // ---- Whole documents --------------------------------------------------------------------

  predicate HasName(v: Json, key: string) {
    v.Obj? && key in v.fields && v.fields[key].Str? && v.fields[key].text != ""
  }

  /** A complete message is named, an assistant's, and stopped for a reason the provider gives. */
  lemma MessageExactly(d: Json, u: Usage)
    ensures NonStream(Messages, d) == Some(u) <==>
            && HasName(d, "id") && Says(d, "type", "message") && Says(d, "role", "assistant")
            && "stop_reason" in d.fields && StopReason(d.fields["stop_reason"], true)
            && AnthropicUsage(Get(d, "usage")) == Some(u)
  {
  }

  /** A complete chat completion has one choice, the first, and it is finished. */
  lemma ChatExactly(d: Json, u: Usage)
    ensures NonStream(ChatCompletions, d) == Some(u) <==>
            && HasName(d, "id") && Says(d, "object", "chat.completion")
            && "choices" in d.fields && d.fields["choices"].List? && |d.fields["choices"].items| == 1
            && d.fields["choices"].items[0].Obj? && EqualsZero(Get(d.fields["choices"].items[0], "index"))
            && StopReason(Get(d.fields["choices"].items[0], "finish_reason"), false)
            && OpenAiUsage(Get(d, "usage")) == Some(u)
  {
  }

  /** A complete embedding response is a list that is not empty, its items numbered in order. */
  lemma EmbeddingsExactly(d: Json, u: Usage)
    ensures NonStream(Embeddings, d) == Some(u) <==>
            && Says(d, "object", "list") && "data" in d.fields && d.fields["data"].List? && d.fields["data"].items != []
            && (forall k :: 0 <= k < |d.fields["data"].items| ==> NumberedItem(d.fields["data"].items[k], k))
            && EmbeddingUsage(Get(d, "usage")) == Some(u)
  {
    if d.Obj? && Get(d, "data").List? {
      var items := Get(d, "data").items;
      assert forall k :: 0 <= k < |items| ==> (EmbeddingItem(items[k], k) <==> NumberedItem(items[k], k));
    }
  }

  predicate NumberedItem(item: Json, k: nat) {
    Says(item, "object", "embedding") && "index" in item.fields && item.fields["index"] == Int(k)
  }

  // ---- Streamed documents -----------------------------------------------------------------

  predicate NoError(d: Json) {
    d.Obj? && "error" !in d.fields
  }

  lemma StartExactly(d: Json, u: Usage)
    ensures ReadMessage(d) == Start(u) <==>
            && NoError(d) && Says(d, "type", "message_start") && HasName(Get(d, "message"), "id")
            && AnthropicUsage(Get(Get(d, "message"), "usage")) == Some(u)
  {
  }

  /** A delta reports its output tokens; it is the final one exactly when it gives a stop reason, which
      must be one the provider gives. */
  lemma DeltaExactly(d: Json, n: nat, final: bool)
    ensures ReadMessage(d) == Delta(n, final) <==>
            && NoError(d) && Says(d, "type", "message_delta") && Get(d, "delta").Obj?
            && Counts(Get(d, "usage"), "output_tokens", n)
            && (if final then StopReason(Get(Get(d, "delta"), "stop_reason"), true) else Get(Get(d, "delta"), "stop_reason") == Null)
  {
  }

  lemma OtherMessagesExactly(d: Json)
    ensures ReadMessage(d) == Stop <==> NoError(d) && Says(d, "type", "message_stop")
    ensures ReadMessage(d) == Block <==>
            NoError(d) && (Says(d, "type", "content_block_start") || Says(d, "type", "content_block_delta")
                           || Says(d, "type", "content_block_stop") || Says(d, "type", "ping"))
  {
  }

  /** A chunk is named and has at most one choice, the first: none, one still open, or one finished for
      a reason the provider gives; its usage, if any, is a valid one. */
  lemma ChunkExactly(d: Json, id: string, choice: Choice, usage: Option<Usage>)
    ensures ReadChunk(d) == Chunk(id, choice, usage) <==>
            && NoError(d) && Says(d, "id", id) && id != "" && Get(d, "choices").List?
            && (match choice
                case NoChoice => Get(d, "choices").items == []
                case Partial => OneChoice(d) && Get(Get(d, "choices").items[0], "finish_reason") == Null
                case Finish => OneChoice(d) && StopReason(Get(Get(d, "choices").items[0], "finish_reason"), false))
            && (if usage == None then Get(d, "usage") == Null else OpenAiUsage(Get(d, "usage")) == usage)
  {
  }

  predicate OneChoice(d: Json) {
    Get(d, "choices").List? && |Get(d, "choices").items| == 1
    && Get(d, "choices").items[0].Obj? && EqualsZero(Get(Get(d, "choices").items[0], "index"))
  }

  /** The reasons a provider gives. */
  lemma StopReasonExactly(v: Json)
    ensures StopReason(v, true) <==>
            v == Str("end_turn") || v == Str("max_tokens") || v == Str("stop_sequence")
            || v == Str("tool_use") || v == Str("pause_turn") || v == Str("refusal")
    ensures StopReason(v, false) <==>
            v == Str("stop") || v == Str("length") || v == Str("tool_calls") || v == Str("content_filter") || v == Str("function_call")
  {
  }

  // ---- As the providers write them --------------------------------------------------------

  function AnthropicUsageDocument(u: Usage): Json {
    Obj(map["input_tokens" := Int(u.input), "output_tokens" := Int(u.output),
            "cache_read_input_tokens" := Int(u.cacheRead), "cache_creation_input_tokens" := Int(u.cacheWrite)])
  }

  function OpenAiUsageDocument(u: Usage): Json {
    Obj(map["prompt_tokens" := Int(u.input), "completion_tokens" := Int(u.output), "total_tokens" := Int(u.input + u.output),
            "prompt_tokens_details" := Obj(map["cached_tokens" := Int(u.cacheRead)])])
  }

  predicate Safe(u: Usage) {
    && u.input <= MAX_SAFE_INTEGER && u.output <= MAX_SAFE_INTEGER
    && u.cacheRead <= MAX_SAFE_INTEGER && u.cacheWrite <= MAX_SAFE_INTEGER
  }

  /** Round trips: usage written by a provider is read back exactly. */
  lemma WrittenUsageReads(u: Usage)
    requires Safe(u)
    ensures AnthropicUsage(AnthropicUsageDocument(u)) == Some(u)
    ensures u.cacheRead <= u.input && u.cacheWrite == 0 && u.input + u.output <= MAX_SAFE_INTEGER ==>
              OpenAiUsage(OpenAiUsageDocument(u)) == Some(u)
  {
    var details := Get(OpenAiUsageDocument(u), "prompt_tokens_details");
    assert "cached_tokens" in details.fields && !Falsy(details);
    OpenAiUsageExactly(OpenAiUsageDocument(u), u);
  }

  function StartDocument(id: string, u: Usage): Json {
    Obj(map["type" := Str("message_start"), "message" := Obj(map["id" := Str(id), "usage" := AnthropicUsageDocument(u)])])
  }

  function DeltaDocument(n: nat, reason: Option<string>): Json {
    Obj(map["type" := Str("message_delta"), "usage" := Obj(map["output_tokens" := Int(n)]),
            "delta" := Obj(map["stop_reason" := if reason.Some? then Str(reason.value) else Null])])
  }

  function StopDocument(): Json {
    Obj(map["type" := Str("message_stop")])
  }

  lemma WrittenMessagesRead(id: string, u: Usage, n: nat, reason: Option<string>)
    requires id != "" && Safe(u) && n <= MAX_SAFE_INTEGER && (reason.Some? ==> StopReason(Str(reason.value), true))
    ensures ReadMessage(StartDocument(id, u)) == Start(u)
    ensures ReadMessage(DeltaDocument(n, reason)) == Delta(n, reason.Some?)
    ensures ReadMessage(StopDocument()) == Stop
  {
    WrittenUsageReads(u);
    StartExactly(StartDocument(id, u), u);
    DeltaExactly(DeltaDocument(n, reason), n, reason.Some?);
  }

  /** A stream written so, with a final output not below its first, means exactly its usage. */
  lemma WrittenStreamMeans(id: string, u: Usage, n: nat, reason: string)
    requires id != "" && Safe(u) && u.output <= n <= MAX_SAFE_INTEGER && StopReason(Str(reason), true)
    ensures Result(FeedAll(Messages, [StartDocument(id, u), DeltaDocument(n, Some(reason)), StopDocument()]))
         == Some(Usage(u.input, n, u.cacheRead, u.cacheWrite))
  {
    WrittenMessagesRead(id, u, n, Some(reason));
    var one, two, three := [StartDocument(id, u)], [StartDocument(id, u), DeltaDocument(n, Some(reason))],
                           [StartDocument(id, u), DeltaDocument(n, Some(reason)), StopDocument()];
    assert three[..2] == two && two[..1] == one && one[..0] == [];
    assert FeedAll(Messages, one[..0]) == Waiting;
    assert FeedAll(Messages, one) == Streaming(u, u.output);
    assert FeedAll(Messages, two) == Final(u.(output := n));
  }
}
