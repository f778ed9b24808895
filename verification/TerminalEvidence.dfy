/** Terminal usage evidence: which sequences of provider documents let a reservation be reduced.
    Only an exact terminal stream yields usage; anything else poisons the receipt for good. */
module TerminalEvidence {
  import opened Basics
  import opened UsageGrammar

  /** A decoded JSON value as Python sees it. */
  datatype Json =
    | Null | Bool(flag: bool) | Int(n: int) | Float(r: real) | Str(text: string)
    | List(items: seq<Json>) | Obj(fields: map<string, Json>)

  datatype Path = Messages | ChatCompletions | Embeddings

  const MAX_SAFE_INTEGER := 9007199254740991

  function Get(d: Json, key: string): Json {
    if d.Obj? && key in d.fields then d.fields[key] else Null
  }

  function GetOr(d: Json, key: string, default: Json): Json {
    if d.Obj? && key in d.fields then d.fields[key] else default
  }

  function Integer(v: Json): Option<nat> {
    if v.Int? && 0 <= v.n <= MAX_SAFE_INTEGER then Some(v.n) else None
  }

  /** Python equality with zero, which a false or a float zero also meets. */
  predicate EqualsZero(v: Json) {
    v == Int(0) || v == Bool(false) || v == Float(0.0)
  }

  predicate Falsy(v: Json) {
    v == Null || EqualsZero(v) || v == Str("") || v == List([]) || v == Obj(map[])
  }

  predicate NonEmptyText(v: Json) {
    v.Str? && v.text != ""
  }

  predicate StopReason(v: Json, anthropic: bool) {
    v.Str? &&
    if anthropic then v.text in {"end_turn", "max_tokens", "stop_sequence", "tool_use", "pause_turn", "refusal"}
    else v.text in {"stop", "length", "tool_calls", "content_filter", "function_call"}
  }

  function OpenAiUsage(v: Json): (u: Option<Usage>)
    ensures u.Some? ==> u.value.cacheRead <= u.value.input && u.value.cacheWrite == 0
  {
    if !v.Obj? then None
    else
      var input, output, total := Integer(Get(v, "prompt_tokens")), Integer(Get(v, "completion_tokens")), Integer(Get(v, "total_tokens"));
      var details := Get(v, "prompt_tokens_details");
      if input.None? || output.None? || total != Some(input.value + output.value) then None
      else if !Falsy(details) && !details.Obj? then None
      else
        var cached := Integer(if Falsy(details) then Int(0) else GetOr(details, "cached_tokens", Int(0)));
        if cached.None? || cached.value > input.value then None
        else Some(Usage(input.value, output.value, cached.value, 0))
  }

  function AnthropicUsage(v: Json): Option<Usage> {
    if !v.Obj? then None
    else
      var input, output := Integer(Get(v, "input_tokens")), Integer(Get(v, "output_tokens"));
      var read, write := Integer(GetOr(v, "cache_read_input_tokens", Int(0))), Integer(GetOr(v, "cache_creation_input_tokens", Int(0)));
      if input.None? || output.None? || read.None? || write.None? then None
      else Some(Usage(input.value, output.value, read.value, write.value))
  }

  function EmbeddingUsage(v: Json): (u: Option<Usage>)
    ensures u.Some? ==> u.value.output == 0 && u.value.cacheRead == 0 && u.value.cacheWrite == 0
  {
    if !v.Obj? then None
    else
      var prompt, completion := Integer(Get(v, "prompt_tokens")), Integer(GetOr(v, "completion_tokens", Int(0)));
      if prompt.None? || completion != Some(0) || Integer(Get(v, "total_tokens")) != prompt then None
      else Some(Usage(prompt.value, 0, 0, 0))
  }

  /** The usage of a complete document that did not arrive as a stream. */
  function NonStream(path: Path, d: Json): Option<Usage> {
    if !d.Obj? then None
    else match path
      case Embeddings =>
        var data := Get(d, "data");
        if Get(d, "object") != Str("list") || !data.List? || data.items == [] then None
        else if exists k :: 0 <= k < |data.items| && !EmbeddingItem(data.items[k], k) then None
        else EmbeddingUsage(Get(d, "usage"))
      case Messages =>
        if !NonEmptyText(Get(d, "id")) || Get(d, "type") != Str("message") || Get(d, "role") != Str("assistant")
           || !StopReason(Get(d, "stop_reason"), true) then None
        else AnthropicUsage(Get(d, "usage"))
      case ChatCompletions =>
        var choices := Get(d, "choices");
        if !NonEmptyText(Get(d, "id")) || Get(d, "object") != Str("chat.completion") || !choices.List? || |choices.items| != 1 then None
        else if !choices.items[0].Obj? || !EqualsZero(Get(choices.items[0], "index"))
                || !StopReason(Get(choices.items[0], "finish_reason"), false) then None
        else OpenAiUsage(Get(d, "usage"))
  }

  predicate EmbeddingItem(item: Json, k: nat) {
    item.Obj? && Get(item, "object") == Str("embedding") && Get(item, "index") == Int(k)
  }

  // ---- What one streamed document says ----------------------------------------------------

  function ReadMessage(d: Json): Message {
    if !d.Obj? || "error" in d.fields then BadMessage
    else
      var kind := Get(d, "type");
      if kind == Str("message_start") then
        var m := Get(d, "message");
        if !m.Obj? || !NonEmptyText(Get(m, "id")) || AnthropicUsage(Get(m, "usage")).None? then BadMessage
        else Start(AnthropicUsage(Get(m, "usage")).value)
      else if kind == Str("message_delta") then
        var delta, usage := Get(d, "delta"), Get(d, "usage");
        var output := Integer(Get(usage, "output_tokens"));
        if !delta.Obj? || !usage.Obj? || output.None? then BadMessage
        else if Get(delta, "stop_reason") == Null then Delta(output.value, false)
        else if StopReason(Get(delta, "stop_reason"), true) then Delta(output.value, true)
        else BadMessage
      else if kind == Str("message_stop") then Stop
      else if kind in {Str("content_block_start"), Str("content_block_delta"), Str("content_block_stop"), Str("ping")} then Block
      else BadMessage
  }

  function ReadChunk(d: Json): Chunk {
    if !d.Obj? || "error" in d.fields then BadChunk
    else
      var choices, id, usage := Get(d, "choices"), Get(d, "id"), Get(d, "usage");
      if !choices.List? || |choices.items| > 1 || !NonEmptyText(id) || (usage != Null && OpenAiUsage(usage).None?) then BadChunk
      else
        var reported := if usage == Null then None else OpenAiUsage(usage);
        if choices.items == [] then Chunk(id.text, NoChoice, reported)
        else
          var c := choices.items[0];
          if !c.Obj? || !EqualsZero(Get(c, "index")) then BadChunk
          else if Get(c, "finish_reason") == Null then Chunk(id.text, Partial, reported)
          else if StopReason(Get(c, "finish_reason"), false) then Chunk(id.text, Finish, reported)
          else BadChunk
  }

  // ---- A stream of documents --------------------------------------------------------------

  function Empty(path: Path): Evidence {
    if path.Messages? then Waiting else Chat(None, false, None)
  }

  function Feed(e: Evidence, path: Path, d: Json): Evidence {
    if path.Messages? then FeedMessage(e, ReadMessage(d)) else FeedChunk(e, ReadChunk(d))
  }

  function FeedAll(path: Path, ds: seq<Json>): Evidence
    decreases |ds|
  {
    if ds == [] then Empty(path) else Feed(FeedAll(path, ds[..|ds| - 1]), path, ds[|ds| - 1])
  }

  lemma {:induction false} PoisonIsPermanent(path: Path, ds: seq<Json>, n: nat)
    requires n <= |ds| && FeedAll(path, ds[..n]).Poisoned?
    ensures FeedAll(path, ds).Poisoned? && Result(FeedAll(path, ds)) == None
    decreases |ds| - n
  {
    if n < |ds| {
      assert ds[..n + 1][..n] == ds[..n];
      PoisonIsPermanent(path, ds, n + 1);
    } else {
      assert ds[..n] == ds;
    }
  }

  function AllMessages(ds: seq<Json>): seq<Message> {
    seq(|ds|, i requires 0 <= i < |ds| => ReadMessage(ds[i]))
  }

  function AllChunks(ds: seq<Json>): seq<Chunk> {
    seq(|ds|, i requires 0 <= i < |ds| => ReadChunk(ds[i]))
  }

  lemma {:induction false} FeedAllReads(path: Path, ds: seq<Json>)
    ensures FeedAll(path, ds) == (if path.Messages? then FeedMessages(AllMessages(ds)) else FeedChunks(AllChunks(ds)))
    decreases |ds|
  {
    if ds != [] {
      var n := |ds| - 1;
      FeedAllReads(path, ds[..n]);
      assert AllMessages(ds)[..n] == AllMessages(ds[..n]);
      assert AllChunks(ds)[..n] == AllChunks(ds[..n]);
    }
  }

  /** Usage comes out of a stream of documents exactly when the documents match the provider's full
      terminal grammar. */
  lemma TerminalGrammar(path: Path, ds: seq<Json>, u: Usage)
    ensures Result(FeedAll(path, ds)) == Some(u) <==>
            (if path.Messages? then AnthropicStream(AllMessages(ds), u) else OpenAiStream(AllChunks(ds), u))
  {
    FeedAllReads(path, ds);
    AnthropicResult(AllMessages(ds), u);
    OpenAiResult(AllChunks(ds), u);
  }

  // ---- The object the source keeps --------------------------------------------------------

  /** The mutable reader. Once poisoned its other fields no longer matter. */
  class Reader {
    const path: Path
    var poisoned: bool
    var started: bool
    var stopped: bool
    var finalDelta: bool
    var usage: Option<Usage>
    var output: nat
    var responseId: Option<string>

    predicate Valid()
      reads this
    {
      !poisoned && path.Messages? ==>
        (started <==> usage.Some?) && (stopped ==> finalDelta) && (finalDelta ==> started)
    }

    function View(): Evidence
      requires Valid()
      reads this
    {
      if poisoned then Poisoned
      else if path.Messages? then
        if !started then Waiting
        else if stopped then Stopped(usage.value)
        else if finalDelta then Final(usage.value)
        else Streaming(usage.value, output)
      else Chat(responseId, stopped, usage)
    }

    constructor (path: Path)
      ensures Valid() && this.path == path && View() == Empty(path)
    {
      this.path := path;
      poisoned, started, stopped, finalDelta, usage, output, responseId := false, false, false, false, None, 0, None;
    }

    method FeedDocument(d: Json)
      requires Valid()
      modifies this
      ensures Valid() && View() == Feed(old(View()), path, d)
    {
      if poisoned || !d.Obj? || "error" in d.fields { poisoned := true; return; }
      if path.Messages? { FeedAnthropic(d); } else { FeedOpenAi(d); }
    }

    method FeedAnthropic(d: Json)
      requires Valid() && path.Messages? && !poisoned && d.Obj? && "error" !in d.fields
      modifies this
      ensures Valid() && View() == FeedMessage(old(View()), ReadMessage(d))
    {
      var kind := Get(d, "type");
      if stopped { poisoned := true; return; }
      if kind == Str("message_start") {
        if started { poisoned := true; return; }
        var m := Get(d, "message");
        if !m.Obj? || !NonEmptyText(Get(m, "id")) { poisoned := true; return; }
        responseId := Some(Get(m, "id").text);
        var u := AnthropicUsage(Get(m, "usage"));
        if u.None? { poisoned := true; return; }
        usage, output, started := u, u.value.output, true;
      } else if kind == Str("message_delta") {
        if !started || finalDelta { poisoned := true; return; }
        var delta, reported := Get(d, "delta"), Get(d, "usage");
        if !delta.Obj? || !reported.Obj? { poisoned := true; return; }
        var n := Integer(Get(reported, "output_tokens"));
        if n.None? || n.value < output { poisoned := true; return; }
        output := n.value;
        if Get(delta, "stop_reason") != Null {
          if !StopReason(Get(delta, "stop_reason"), true) { poisoned := true; return; }
          finalDelta, usage := true, Some(usage.value.(output := n.value));
        }
      } else if kind == Str("message_stop") {
        if !started || !finalDelta { poisoned := true; return; }
        stopped := true;
      } else if kind !in {Str("content_block_start"), Str("content_block_delta"), Str("content_block_stop"), Str("ping")}
                || finalDelta || !started {
        poisoned := true;
      }
    }

    method FeedOpenAi(d: Json)
      requires Valid() && !path.Messages? && !poisoned && d.Obj? && "error" !in d.fields
      modifies this
      ensures Valid() && View() == FeedChunk(old(View()), ReadChunk(d))
    {
      var choices, id, reported := Get(d, "choices"), Get(d, "id"), Get(d, "usage");
      if !choices.List? || |choices.items| > 1 { poisoned := true; return; }
      if !NonEmptyText(id) { poisoned := true; return; }
      if responseId.None? { responseId := Some(id.text); }
      else if responseId != Some(id.text) { poisoned := true; return; }
      if stopped && choices.items != [] { poisoned := true; return; }
      if choices.items != [] {
        var c := choices.items[0];
        if !c.Obj? || !EqualsZero(Get(c, "index")) { poisoned := true; return; }
        var reason := Get(c, "finish_reason");
        if reason != Null {
          if !StopReason(reason, false) { poisoned := true; return; }
          stopped := true;
        }
      }
      if reported != Null {
        if !stopped || usage.Some? { poisoned := true; return; }
        usage := OpenAiUsage(reported);
        if usage.None? { poisoned := true; return; }
      }
    }

    function FinalUsage(): Option<Usage>
      requires Valid()
      reads this
      ensures FinalUsage() == Result(View())
    {
      if stopped && !poisoned then usage else None
    }
  }
}
