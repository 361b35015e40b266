/** Properties of `transform_genparams`: which keys each dialect may write, the
    repetition-penalty and `ban_eos_token` rules, the defaults of every dialect, and the
    chat rendering (prompt concatenation, image extraction, tool injection, stop sequences). */
module GenParamsProps {
  import opened Py
  import opened GenParams

  // ---------------------------------------------------------------- frames

  /** `r` agrees with `g` outside the keys `w`: no other key is added, dropped or changed. */
  predicate Preserves(g: Params, r: Params, w: set<string>) {
    (forall k :: k in g && k !in w ==> k in r && r[k] == g[k])
    && (forall k :: k in r && k !in w ==> k in g)
  }

  const CommonWrites: set<string> := {"rep_pen", "ban_eos_token"}
  const BasicWrites: set<string> := {"prompt", "top_k", "max_length"}
  const OpenAIWrites: set<string> :=
    {"max_length", "presence_penalty", "stop_sequence", "sampler_seed", "mirostat"}
  /** `stop` is written only through the list it shares with `stop_sequence`. */
  const ChatWrites: set<string> :=
    {"temperature", "using_openai_tools", "grammar", "prompt", "images", "stop_sequence", "stop", "trim_stop"}
  const InterrogateWrites: set<string> := {"images", "max_length", "prompt"}
  /** `options` and `stop` are written only through the list `stop_sequence` shares. */
  const OllamaWrites: set<string> :=
    {"stop_sequence", "max_length", "max_context_length", "temperature", "top_k", "top_p",
     "sampler_seed", "options", "stop", "trim_stop", "ollamasysprompt", "ollamabodyprompt", "prompt"}

  /** The keys the dialect `fmt` may write after the common stage. */
  function FormatWrites(fmt: int): set<string> {
    if fmt == Basic then BasicWrites
    else if fmt == OpenAICompletion then OpenAIWrites
    else if fmt == OpenAIChat || fmt == OllamaChat then OpenAIWrites + ChatWrites
    else if fmt == Interrogate then InterrogateWrites
    else if fmt == OllamaGenerate then OllamaWrites
    else {}
  }

  function Writes(fmt: int): set<string> {
    CommonWrites + FormatWrites(fmt)
  }

  lemma PreservesTrans(g1: Params, g2: Params, g3: Params, w1: set<string>, w2: set<string>)
    requires Preserves(g1, g2, w1) && Preserves(g2, g3, w2)
    ensures Preserves(g1, g3, w1 + w2)
  {
  }

  /** A further step that writes only keys inside the bound stays inside it. */
  lemma PreservesWithin(g1: Params, g2: Params, g3: Params, w: set<string>, w2: set<string>)
    requires Preserves(g1, g2, w) && Preserves(g2, g3, w2) && w2 <= w
    ensures Preserves(g1, g3, w)
  {
  }

  lemma CommonFrame(g: Params, env: Env)
    requires AliasedPenalties(g, env).Ok?
    ensures Preserves(g, BanEosReconciled(AliasedPenalties(g, env).value), CommonWrites)
  {
  }

  lemma OpenAICommonFrame(g: Params, d: Value, env: Env)
    requires OpenAICommon(g, d, env).Ok?
    ensures Preserves(g, OpenAICommon(g, d, env).value, OpenAIWrites)
  {
  }

  lemma StopsMergedFrame(g: Params, t: Templates)
    requires ChatStopsMerged(g, t).Ok?
    ensures Preserves(g, ChatStopsMerged(g, t).value, {"stop_sequence", "stop"})
  {
  }

  /** One key the stop merge does not write. */
  lemma StopsMergedKeeps(g: Params, t: Templates, k: string)
    requires ChatStopsMerged(g, t).Ok? && k !in {"stop_sequence", "stop"}
    ensures SameAt(g, ChatStopsMerged(g, t).value, k)
  {
    StopsMergedFrame(g, t);
  }

  lemma ChatFrame(g: Params, a: Params, plan: Result<Option<string>>)
    requires ChatApplied(g, a, plan).Ok?
    ensures Preserves(g, ChatApplied(g, a, plan).value, ChatWrites)
  {
    var t := ChatTemplates(a);
    var msgs := MessageList(Get(g, "messages", List([]))).value;
    var p := RenderPrefix(msgs, |msgs|, t, plan).value;
    var close := StrOperand(t.assistantStart).value;
    var g1 := if p.injected then WithTools(g) else g;
    var g2 := g1["prompt" := Str(p.text + close)];
    var g3 := if |p.images| > 0 then g2["images" := StrList(p.images)] else g2;
    assert Preserves(g, g3, {"temperature", "using_openai_tools", "grammar", "prompt", "images"});
    StopsMergedFrame(g3, t);
    var g4 := ChatStopsMerged(g3, t).value;
    PreservesTrans(g, g3, g4, {"temperature", "using_openai_tools", "grammar", "prompt", "images"}, {"stop_sequence", "stop"});
    assert ChatApplied(g, a, plan).value == g4["trim_stop" := Bool(true)];
  }

  /** One key outside the chat stage's writes. */
  lemma ChatKeeps(g: Params, a: Params, plan: Result<Option<string>>, k: string)
    requires ChatApplied(g, a, plan).Ok? && k !in ChatWrites
    ensures SameAt(g, ChatApplied(g, a, plan).value, k)
  {
    ChatFrame(g, a, plan);
  }

  lemma OverlayFrame(g: Params, opts: Value, key: string, field: string, default: Value)
    requires Overlay(g, opts, key, field, default).Ok?
    ensures Preserves(g, Overlay(g, opts, key, field, default).value, {field})
  {
  }

  lemma SeedFrame(g: Params, opts: Value, env: Env)
    requires OverlaySeed(g, opts, env).Ok?
    ensures Preserves(g, OverlaySeed(g, opts, env).value, {"sampler_seed"})
  {
  }

  lemma OllamaStopsFrame(g: Params, opts: Value, env: Env)
    requires OllamaStopsAppended(g, opts, env).Ok?
    ensures Preserves(g, OllamaStopsAppended(g, opts, env).value, {"stop_sequence", "options", "stop"})
  {
    var ss := Get(g, "stop_sequence", List([]));
    var u := StripOperand(OllamaUserStart(env)).value;
    var a := StripOperand(OllamaAssistantStart(env)).value;
    var ext := List(ss.items + [Str(u), Str(a)]);
    var g1 := g["stop_sequence" := ext];
    assert Preserves(g, g1, {"stop_sequence"});
    if OptionsStop(opts) {
      assert OllamaStopsAppended(g, opts, env).value == g1["options" := Dict(opts.fields["stop" := ext])];
    } else if "stop" in g {
      assert OllamaStopsAppended(g, opts, env).value == g1["stop" := ext];
    } else {
      assert OllamaStopsAppended(g, opts, env).value == g1;
    }
  }

  lemma OllamaFrame(g: Params, env: Env)
    requires OllamaApplied(g, env).Ok?
    ensures Preserves(g, OllamaApplied(g, env).value, OllamaWrites)
  {
    var opts := Get(g, "options", Dict(map[]));
    var g1 := g["stop_sequence" := Get(g, "stop", List([]))];
    var g2 := Overlay(g1, opts, "num_predict", "max_length", Int(200)).value;
    OverlayFrame(g1, opts, "num_predict", "max_length", Int(200));
    var g3 := Overlay(g2, opts, "num_ctx", "max_context_length", env.maxctx).value;
    OverlayFrame(g2, opts, "num_ctx", "max_context_length", env.maxctx);
    var g4 := Overlay(g3, opts, "temperature", "temperature", Float(0.75)).value;
    OverlayFrame(g3, opts, "temperature", "temperature", Float(0.75));
    var g5 := Overlay(g4, opts, "top_k", "top_k", Int(100)).value;
    OverlayFrame(g4, opts, "top_k", "top_k", Int(100));
    var g6 := Overlay(g5, opts, "top_p", "top_p", Float(0.92)).value;
    OverlayFrame(g5, opts, "top_p", "top_p", Float(0.92));
    var g7 := OverlaySeed(g6, opts, env).value;
    SeedFrame(g6, opts, env);
    var g8 := Overlay(g7, opts, "stop", "stop_sequence", List([])).value;
    OverlayFrame(g7, opts, "stop", "stop_sequence", List([]));
    var g9 := OllamaStopsAppended(g8, opts, env).value;
    OllamaStopsFrame(g8, opts, env);
    assert Preserves(g, g1, OllamaWrites);
    PreservesWithin(g, g1, g2, OllamaWrites, {"max_length"});
    PreservesWithin(g, g2, g3, OllamaWrites, {"max_context_length"});
    PreservesWithin(g, g3, g4, OllamaWrites, {"temperature"});
    PreservesWithin(g, g4, g5, OllamaWrites, {"top_k"});
    PreservesWithin(g, g5, g6, OllamaWrites, {"top_p"});
    PreservesWithin(g, g6, g7, OllamaWrites, {"sampler_seed"});
    PreservesWithin(g, g7, g8, OllamaWrites, {"stop_sequence"});
    PreservesWithin(g, g8, g9, OllamaWrites, {"stop_sequence", "options", "stop"});
  }

  lemma FormatFrame(g: Params, fmt: int, env: Env)
    requires FormatApplied(g, fmt, env).Ok?
    ensures Preserves(g, FormatApplied(g, fmt, env).value, FormatWrites(fmt))
  {
    if fmt == OpenAICompletion {
      OpenAICommonFrame(g, Int(200), env);
    } else if fmt == OpenAIChat || fmt == OllamaChat {
      var adapter := RequestAdapter(g, env);
      var d := Get(adapter.fields, "max_length", Int(512));
      OpenAICommonFrame(g, d, env);
      var g1 := OpenAICommon(g, d, env).value;
      ChatFrame(g1, adapter.fields, ToolPlan(g1, env));
      PreservesTrans(g, g1, FormatApplied(g, fmt, env).value, OpenAIWrites, ChatWrites);
    } else if fmt == OllamaGenerate {
      OllamaFrame(g, env);
    }
  }

  /** A successful transform changes nothing outside the keys its dialect writes. */
  lemma TransformFrame(g: Params, fmt: int, env: Env)
    requires TransformGenParams(g, fmt, env).Ok?
    ensures Preserves(g, TransformGenParams(g, fmt, env).value, Writes(fmt))
  {
    CommonFrame(g, env);
    var g2 := BanEosReconciled(AliasedPenalties(g, env).value);
    FormatFrame(g2, fmt, env);
    PreservesTrans(g, g2, TransformGenParams(g, fmt, env).value, CommonWrites, FormatWrites(fmt));
  }

  /** `k` is present in `r` exactly when it is in `g`, with the same value. */
  predicate SameAt(g: Params, r: Params, k: string) {
    (k in g <==> k in r) && (k in g ==> r[k] == g[k])
  }

  // ---------------------------------------------------------------- common stage

  /** `rep_pen` ends as the largest of the three aliases (each defaulting to 1.0), and a
      successful transform means all three converted with `float()`. */
  lemma RepPenIsMaximum(g: Params, fmt: int, env: Env)
    requires TransformGenParams(g, fmt, env).Ok?
    ensures Penalty(g, env, "repeat_penalty").Ok? && Penalty(g, env, "repetition_penalty").Ok?
      && Penalty(g, env, "rep_pen").Ok?
    ensures var r := TransformGenParams(g, fmt, env).value;
      var p1, p2, p3 := Penalty(g, env, "repeat_penalty").value,
        Penalty(g, env, "repetition_penalty").value, Penalty(g, env, "rep_pen").value;
      "rep_pen" in r && r["rep_pen"].Float?
      && p1 <= r["rep_pen"].r && p2 <= r["rep_pen"].r && p3 <= r["rep_pen"].r
      && (r["rep_pen"].r == p1 || r["rep_pen"].r == p2 || r["rep_pen"].r == p3)
  {
    var g1 := AliasedPenalties(g, env).value;
    var g2 := BanEosReconciled(g1);
    var r := FormatApplied(g2, fmt, env).value;
    FormatFrame(g2, fmt, env);
    CommonKeysNotRewritten(fmt);
    assert r["rep_pen"] == g2["rep_pen"];
  }

  /** The first alias that `float()` rejects raises, whatever the dialect. */
  lemma PenaltyErrorRaised(g: Params, fmt: int, env: Env)
    ensures Penalty(g, env, "repeat_penalty").Err? ==>
      TransformGenParams(g, fmt, env) == Err(Penalty(g, env, "repeat_penalty").error)
    ensures Penalty(g, env, "repeat_penalty").Ok? && Penalty(g, env, "repetition_penalty").Err? ==>
      TransformGenParams(g, fmt, env) == Err(Penalty(g, env, "repetition_penalty").error)
    ensures (Penalty(g, env, "repeat_penalty").Ok? && Penalty(g, env, "repetition_penalty").Ok?
             && Penalty(g, env, "rep_pen").Err?) ==>
      TransformGenParams(g, fmt, env) == Err(Penalty(g, env, "rep_pen").error)
  {
  }

  /** `ban_eos_token` is never overwritten; it is copied from `use_default_badwordsids` only
      when absent, and otherwise stays absent. */
  lemma BanEosNeverOverwritten(g: Params, fmt: int, env: Env)
    requires TransformGenParams(g, fmt, env).Ok?
    ensures var r := TransformGenParams(g, fmt, env).value;
      ("ban_eos_token" in g ==> "ban_eos_token" in r && r["ban_eos_token"] == g["ban_eos_token"])
      && ("ban_eos_token" !in g && "use_default_badwordsids" in g ==>
            "ban_eos_token" in r && r["ban_eos_token"] == g["use_default_badwordsids"])
      && ("ban_eos_token" !in g && "use_default_badwordsids" !in g ==> "ban_eos_token" !in r)
  {
    var g1 := AliasedPenalties(g, env).value;
    var g2 := BanEosReconciled(g1);
    var r := FormatApplied(g2, fmt, env).value;
    FormatFrame(g2, fmt, env);
    CommonKeysNotRewritten(fmt);
    assert SameAt(g2, r, "ban_eos_token");
  }

  /** Format 2 (and any unknown format) only aliases the penalties and `ban_eos_token`. */
  lemma KaiIsCommonOnly(g: Params, fmt: int, env: Env)
    requires fmt !in {Basic, OpenAICompletion, OpenAIChat, Interrogate, OllamaGenerate, OllamaChat}
    ensures TransformGenParams(g, fmt, env).Ok? <==> AliasedPenalties(g, env).Ok?
    ensures TransformGenParams(g, fmt, env).Ok? ==>
      Preserves(g, TransformGenParams(g, fmt, env).value, CommonWrites)
  {
    if AliasedPenalties(g, env).Ok? {
      CommonFrame(g, env);
    }
  }

  // ---------------------------------------------------------------- format 1

  /** Format 1: `prompt` from `text`, `top_k` and `max_length` through `int()` with defaults
      120 and 200; it fails exactly when one of those conversions does. */
  lemma BasicDefaults(g: Params, env: Env)
    ensures var topK, maxLen := ToInt(env.parsers, Get(g, "top_k", Int(120))), ToInt(env.parsers, Get(g, "max", Int(200)));
      var r := BasicApplied(g, env);
      (r.Ok? <==> topK.Ok? && maxLen.Ok?)
      && (topK.Err? ==> r == Err(topK.error))
      && (topK.Ok? && maxLen.Err? ==> r == Err(maxLen.error))
      && (r.Ok? ==>
            r.value["prompt"] == Get(g, "text", Str(""))
            && r.value["top_k"] == Int(topK.value) && r.value["max_length"] == Int(maxLen.value)
            && ("top_k" !in g ==> r.value["top_k"] == Int(120))
            && ("max" !in g ==> r.value["max_length"] == Int(200)))
  {
  }

  // ---------------------------------------------------------------- format 3

  /** Where `max_length` comes from: `max_tokens`, else `max_completion_tokens`, else `d`. */
  function TokenSource(g: Params, d: Value): Value {
    if "max_tokens" in g then g["max_tokens"]
    else if "max_completion_tokens" in g then g["max_completion_tokens"]
    else d
  }

  /** The dialect's default budget: 200 for plain completions, the adapter's `max_length`
      (default 512) for chat. */
  function DefaultBudget(g: Params, fmt: int, env: Env): Value {
    if fmt == OpenAICompletion then Int(200)
    else
      var a := RequestAdapter(g, env);
      if a.Dict? && "max_length" in a.fields then a.fields["max_length"] else Int(512)
  }

  /** Where `presence_penalty` comes from: itself, else `frequency_penalty`, else 0.0. */
  function PenaltySource(g: Params): Value {
    if "presence_penalty" in g then g["presence_penalty"]
    else if "frequency_penalty" in g then g["frequency_penalty"]
    else Float(0.0)
  }

  /** `stop` as a list: itself if a list, wrapped otherwise, `[]` when absent. */
  function NormalisedStop(g: Params): Value {
    if "stop" !in g then List([])
    else if g["stop"].List? then g["stop"]
    else List([g["stop"]])
  }

  /** The fields all OpenAI-style dialects set, for a given default token budget. */
  lemma CommonFields(g: Params, d: Value, env: Env)
    ensures var r := OpenAICommon(g, d, env);
      var src := TokenSource(g, d);
      (r.Ok? <==> ToInt(env.parsers, src).Ok? && ToFloat(env.parsers, PenaltySource(g)).Ok?)
      && (r.Ok? ==>
            r.value["max_length"] == Int(ToInt(env.parsers, src).value)
            && r.value["presence_penalty"] == Float(ToFloat(env.parsers, PenaltySource(g)).value)
            && r.value["stop_sequence"] == NormalisedStop(g)
            && r.value["sampler_seed"] == Int(env.tryParseInt(Get(g, "seed", Int(-1))))
            && r.value["mirostat"] == Get(g, "mirostat_mode", Int(0)))
  {
  }

  /** Format 3 ignores the adapter: it sets the common fields with a 200-token default. */
  lemma CompletionFields(g: Params, env: Env)
    ensures var r := OpenAIApplied(g, OpenAICompletion, env);
      var src := TokenSource(g, Int(200));
      (r.Ok? <==> ToInt(env.parsers, src).Ok? && ToFloat(env.parsers, PenaltySource(g)).Ok?)
      && (r.Ok? ==>
            r.value["max_length"] == Int(ToInt(env.parsers, src).value)
            && r.value["stop_sequence"] == NormalisedStop(g)
            && Preserves(g, r.value, OpenAIWrites))
  {
    CommonFields(g, Int(200), env);
    if OpenAIApplied(g, OpenAICompletion, env).Ok? {
      OpenAICommonFrame(g, Int(200), env);
    }
  }

  /** For formats 4 and 7, `max_length` follows the fallback chain down to the adapter's
      `max_length`; a successful chat request had an adapter with a `get` method. */
  lemma ChatMaxLengthFallback(g: Params, fmt: int, env: Env)
    requires fmt == OpenAIChat || fmt == OllamaChat
    requires OpenAIApplied(g, fmt, env).Ok?
    ensures RequestAdapter(g, env).Dict?
    ensures var r, n := OpenAIApplied(g, fmt, env).value, ToInt(env.parsers, TokenSource(g, DefaultBudget(g, fmt, env)));
      n.Ok? && "max_length" in r && r["max_length"] == Int(n.value)
  {
    var a := RequestAdapter(g, env);
    var d := Get(a.fields, "max_length", Int(512));
    CommonFields(g, d, env);
    var g1 := OpenAICommon(g, d, env).value;
    assert OpenAIApplied(g, fmt, env) == ChatApplied(g1, a.fields, ToolPlan(g1, env));
    var r := ChatApplied(g1, a.fields, ToolPlan(g1, env)).value;
    CommonFieldsNotChatWritten();
    ChatKeeps(g1, a.fields, ToolPlan(g1, env), "max_length");
    assert "max_length" in g1;
    assert r["max_length"] == g1["max_length"] == Int(ToInt(env.parsers, TokenSource(g, d)).value);
    assert d == DefaultBudget(g, fmt, env);
  }

  /** A chat request whose adapter has no `get` raises AttributeError. */
  lemma ChatNeedsDictAdapter(g: Params, fmt: int, env: Env)
    requires fmt == OpenAIChat || fmt == OllamaChat
    requires !RequestAdapter(g, env).Dict?
    ensures OpenAIApplied(g, fmt, env) == Err(AttributeError)
  {
  }

  // ---------------------------------------------------------------- format 5

  /** Format 5 cannot fail: one image (the request's `image`, default `""`), 42 tokens, and
      the caption prompt between the adapter's templates. */
  lemma InterrogateFixed(g: Params, env: Env)
    ensures var r := InterrogateApplied(g, env);
      r["images"] == List([Get(g, "image", Str(""))]) && r["max_length"] == Int(42)
      && (env.adapter.None? ==> r["prompt"] == Str("### Instruction:" + CaptionText + "### Response:"))
      && Preserves(g, r, InterrogateWrites)
  {
  }

  /** What the f-string shows for the adapter's template `key`: the default when the key
      is absent, a string as it is, any other value as `str()` writes it. */
  predicate ShowsTemplate(a: Params, key: string, default: string, env: Env, text: string) {
    if key !in a then text == default
    else if a[key].Str? then text == a[key].s
    else text == env.pyStr(a[key])
  }

  /** Format 5's caption prompt sits between the user and assistant starts, each taken on its
      own from the adapter when the adapter sets it and from its default otherwise. */
  lemma InterrogateCaption(g: Params, env: Env, user: string, assistant: string)
    requires ShowsTemplate(GlobalAdapter(env), "user_start", "### Instruction:", env, user)
    requires ShowsTemplate(GlobalAdapter(env), "assistant_start", "### Response:", env, assistant)
    ensures var r := InterrogateApplied(g, env);
      "prompt" in r && r["prompt"] == Str(user + CaptionText + assistant)
  {
  }

  // ---------------------------------------------------------------- chat rendering

  /** Two renderings one after the other. */
  function Join(p: Piece, q: Piece): Piece {
    Piece(p.text + q.text, p.images + q.images, p.injected || q.injected)
  }

  /** `a` then `b`, the first exception winning. */
  function Then(a: Result<Piece>, b: Result<Piece>): Result<Piece> {
    match a
    case Err(e) => Err(e)
    case Ok(x) => (match b case Err(e) => Err(e) case Ok(y) => Ok(Join(x, y)))
  }

  /** Reference rendering: message `i` joined with the rendering of everything after it. */
  function RenderFrom(msgs: seq<Value>, i: nat, t: Templates, plan: Result<Option<string>>): Result<Piece>
    requires i <= |msgs|
    decreases |msgs| - i
  {
    if i == |msgs| then Ok(Empty)
    else Then(RenderMessage(msgs[i], i + 1 == |msgs|, t, plan), RenderFrom(msgs, i + 1, t, plan))
  }

  lemma ThenAssoc(a: Result<Piece>, b: Result<Piece>, c: Result<Piece>)
    ensures Then(Then(a, b), c) == Then(a, Then(b, c))
  {
    if a.Ok? && b.Ok? && c.Ok? {
      assert Join(Join(a.value, b.value), c.value) == Join(a.value, Join(b.value, c.value));
    }
  }

  lemma PrefixStep(msgs: seq<Value>, k: nat, t: Templates, plan: Result<Option<string>>)
    requires k < |msgs|
    ensures RenderPrefix(msgs, k + 1, t, plan)
      == Then(RenderPrefix(msgs, k, t, plan), RenderMessage(msgs[k], k + 1 == |msgs|, t, plan))
  {
  }

  lemma {:induction false} PrefixThenFrom(msgs: seq<Value>, k: nat, t: Templates, plan: Result<Option<string>>)
    requires k <= |msgs|
    ensures RenderPrefix(msgs, |msgs|, t, plan) == Then(RenderPrefix(msgs, k, t, plan), RenderFrom(msgs, k, t, plan))
    decreases |msgs| - k
  {
    if k == |msgs| {
      match RenderPrefix(msgs, k, t, plan)
      case Ok(a) => assert Join(a, Empty) == a;
      case Err(_) =>
    } else {
      PrefixThenFrom(msgs, k + 1, t, plan);
      PrefixStep(msgs, k, t, plan);
      ThenAssoc(RenderPrefix(msgs, k, t, plan), RenderMessage(msgs[k], k + 1 == |msgs|, t, plan), RenderFrom(msgs, k + 1, t, plan));
    }
  }

  /** The message loop renders the messages in order and concatenates the renderings; the
      first message that raises ends it with that exception. */
  lemma RenderedInOrder(msgs: seq<Value>, t: Templates, plan: Result<Option<string>>)
    ensures RenderPrefix(msgs, |msgs|, t, plan) == RenderFrom(msgs, 0, t, plan)
  {
    PrefixThenFrom(msgs, 0, t, plan);
    match RenderFrom(msgs, 0, t, plan)
    case Ok(b) => assert Join(Empty, b) == b;
    case Err(_) =>
  }

  /** A message with a role the loop does not know contributes its content only. */
  lemma UnknownRoleAddsContentOnly(m: Value, isLast: bool, t: Templates, plan: Result<Option<string>>)
    requires m.Dict? && "role" in m.fields
    requires m.fields["role"] != Str("system") && m.fields["role"] != Str("user")
    requires m.fields["role"] != Str("assistant") && m.fields["role"] != Str("tool")
    ensures RenderMessage(m, isLast, t, plan) == RenderContent(Get(m.fields, "content", Null))
  {
    match RenderContent(Get(m.fields, "content", Null))
    case Ok(b) => assert "" + b.text + "" + "" == b.text;
    case Err(_) =>
  }

  /** The text a content item contributes: a `text` item's string. */
  function ItemText(item: Value): string {
    if item.Dict? && Get(item.fields, "type", Null) == Str("text") && Get(item.fields, "text", Null).Str?
    then item.fields["text"].s
    else ""
  }

  /** The image a content item contributes: what follows the first comma of a `data:image`
      URL. */
  function ItemImages(item: Value): seq<string> {
    if item.Dict? && Get(item.fields, "type", Null) == Str("image_url") then
      var iu := Get(item.fields, "image_url", Null);
      if iu.Dict? && Get(iu.fields, "url", Null).Str? && "data:image" <= iu.fields["url"].s
         && Find(iu.fields["url"].s, ",").Some?
      then [iu.fields["url"].s[Find(iu.fields["url"].s, ",").value + 1..]]
      else []
    else []
  }

  function TextOf(items: seq<Value>): string {
    if items == [] then "" else TextOf(items[..|items| - 1]) + ItemText(items[|items| - 1])
  }

  function ImagesOf(items: seq<Value>): seq<string> {
    if items == [] then [] else ImagesOf(items[..|items| - 1]) + ItemImages(items[|items| - 1])
  }

  /** One item contributes exactly its text or its image. */
  lemma ItemRendered(item: Value)
    requires RenderItem(item).Ok?
    ensures RenderItem(item).value.text == ItemText(item)
    ensures RenderItem(item).value.images == ItemImages(item)
  {
  }

  /** A list content contributes the texts of its `text` items and the images of its
      `image_url` items, each in item order. */
  lemma {:induction false} ItemsRendered(items: seq<Value>, k: nat)
    requires k <= |items| && RenderItems(items, k).Ok?
    ensures RenderItems(items, k).value.text == TextOf(items[..k])
    ensures RenderItems(items, k).value.images == ImagesOf(items[..k])
  {
    if k > 0 {
      ItemsRendered(items, k - 1);
      ItemRendered(items[k - 1]);
      assert items[..k][..k - 1] == items[..k - 1];
    }
  }

  /** The roles the loop gives templates to. */
  predicate KnownRole(role: Value) {
    role == Str("system") || role == Str("user") || role == Str("assistant") || role == Str("tool")
  }

  /** The text a message's `content` contributes: nothing when it is falsy (missing, `None`,
      empty), a string verbatim, the text items of a list, nothing for any other value. */
  function ContentText(c: Value): string {
    if !Truthy(c) then ""
    else match c
      case Str(s) => s
      case List(xs) => TextOf(xs)
      case _ => ""
  }

  /** The images a message's `content` contributes: those of a non-empty list's items. */
  function ContentImages(c: Value): seq<string> {
    if !Truthy(c) then []
    else match c
      case List(xs) => ImagesOf(xs)
      case _ => []
  }

  /** A content that renders contributes exactly `ContentText` and `ContentImages`. */
  lemma ContentRendered(c: Value)
    requires RenderContent(c).Ok?
    ensures RenderContent(c) == Ok(Piece(ContentText(c), ContentImages(c), false))
  {
    if Truthy(c) && c.List? {
      ItemsRendered(c.items, |c.items|);
      assert c.items[..|c.items|] == c.items;
    }
  }

  /** A message with a known role and string templates, where no tools are injected, is its
      role's start, the text of its content and its role's end; a content that raises makes
      the message raise the same. */
  lemma KnownRoleRendered(m: Value, isLast: bool, t: Templates, plan: Result<Option<string>>,
                          start: string, end: string)
    requires m.Dict? && "role" in m.fields && KnownRole(m.fields["role"])
    requires RoleStart(m.fields["role"], t) == Str(start) && RoleEnd(m.fields["role"], t) == Str(end)
    requires m.fields["role"] == Str("user") && isLast ==> plan == Ok(None)
    ensures var c := Get(m.fields, "content", Null);
      (RenderContent(c).Err? ==> RenderMessage(m, isLast, t, plan) == Err(RenderContent(c).error))
      && (RenderContent(c).Ok? ==>
            RenderMessage(m, isLast, t, plan) == Ok(Piece(start + ContentText(c) + end, ContentImages(c), false)))
  {
    var c := Get(m.fields, "content", Null);
    if RenderContent(c).Ok? {
      ContentRendered(c);
      assert start + ContentText(c) + "" + end == start + ContentText(c) + end;
    }
  }

  /** A `data:image` URL yields everything after its first comma (later commas included)
      as the image, and no text. */
  lemma DataUrlPayload(kind: string, payload: string)
    requires ',' !in "data:image" + kind
    ensures ImagePayload(Dict(map["url" := Str("data:image" + kind + "," + payload)]))
      == Ok(Piece("", [payload], false))
  {
    var s := "data:image" + kind + "," + payload;
    assert s == ("data:image" + kind) + [','] + payload;
    FindAfterPrefix("data:image" + kind, ',', payload);
    assert s[|"data:image" + kind| + 1..] == payload;
    assert AfterFirst(s, ",") == Some(payload);
    assert "data:image" <= s;
    var u := map["url" := Str(s)];
    assert "url" in u;
    assert Truthy(Dict(u)) && Truthy(u["url"]);
  }

  // ---------------------------------------------------------------- tool injection

  /** The last message is a dict whose `role` is `"user"`. */
  predicate LastIsUser(msgs: seq<Value>) {
    |msgs| > 0 && msgs[|msgs| - 1].Dict? && Get(msgs[|msgs| - 1].fields, "role", Null) == Str("user")
  }

  /** The request asks for tools: a non-empty `tools` and a `tool_choice` that is not None. */
  predicate ToolsRequested(g: Params) {
    Truthy(Get(g, "tools", List([]))) && Get(g, "tool_choice", Null) != Null
  }

  /** The tool text exists exactly when tools are requested with a sized `tools`; a truthy
      `tools` without a length raises TypeError. */
  lemma ToolPlanCases(g: Params, env: Env)
    ensures ToolPlan(g, env).Err? <==> Truthy(Get(g, "tools", List([]))) && Len(Get(g, "tools", List([]))).None?
    ensures ToolPlan(g, env).Err? ==> ToolPlan(g, env).error == TypeError
    ensures ToolPlan(g, env).Ok? ==> (ToolPlan(g, env).value.Some? <==> ToolsRequested(g))
  {
  }

  /** The tool text, when tools are requested with a sized `tools`, is the serialised
      `tools` followed by the formatting instruction `tool_choice` selects. */
  lemma ToolText(g: Params, env: Env)
    requires ToolsRequested(g) && Len(Get(g, "tools", List([]))).Some?
    ensures "tool_choice" in g
    ensures ToolPlan(g, env)
      == Ok(Some(env.jsonDumps(Get(g, "tools", List([]))) + ToolInstruction(g["tool_choice"], env)))
  {
  }

  /** The last message, when it is a user message with string templates: user start, the
      text of its content, the tool text when there is some, then user end.  A content that
      raises raises first; then the exception of the tool plan, if any. */
  lemma LastUserRendered(m: Value, t: Templates, plan: Result<Option<string>>, start: string, end: string)
    requires m.Dict? && "role" in m.fields && m.fields["role"] == Str("user")
    requires t.userStart == Str(start) && t.userEnd == Str(end)
    ensures var c := Get(m.fields, "content", Null);
      (RenderContent(c).Err? ==> RenderMessage(m, true, t, plan) == Err(RenderContent(c).error))
      && (RenderContent(c).Ok? && plan.Err? ==> RenderMessage(m, true, t, plan) == Err(plan.error))
      && (RenderContent(c).Ok? && plan.Ok? && plan.value.Some? ==>
            RenderMessage(m, true, t, plan)
              == Ok(Piece(start + ContentText(c) + plan.value.value + end, ContentImages(c), true)))
      && (RenderContent(c).Ok? && plan == Ok(None) ==>
            RenderMessage(m, true, t, plan) == Ok(Piece(start + ContentText(c) + end, ContentImages(c), false)))
  {
    var c := Get(m.fields, "content", Null);
    if RenderContent(c).Ok? {
      ContentRendered(c);
      assert start + ContentText(c) + "" + end == start + ContentText(c) + end;
    }
  }

  /** No message before the last can inject tools. */
  lemma {:induction false} EarlierMessagesInjectNothing(msgs: seq<Value>, k: nat, t: Templates, plan: Result<Option<string>>)
    requires k < |msgs| && RenderPrefix(msgs, k, t, plan).Ok?
    ensures !RenderPrefix(msgs, k, t, plan).value.injected
  {
    if k > 0 {
      EarlierMessagesInjectNothing(msgs, k - 1, t, plan);
    }
  }

  /** Tools are injected exactly when the last message is a user message and there is tool
      text. */
  lemma InjectedIffLastUser(msgs: seq<Value>, t: Templates, plan: Result<Option<string>>)
    requires RenderPrefix(msgs, |msgs|, t, plan).Ok?
    ensures RenderPrefix(msgs, |msgs|, t, plan).value.injected
      <==> LastIsUser(msgs) && plan.Ok? && plan.value.Some?
  {
    if |msgs| > 0 {
      EarlierMessagesInjectNothing(msgs, |msgs| - 1, t, plan);
    }
  }

  /** The JSON instruction: generic unless `tool_choice` names a function through a dict
      `function` entry (any other shape falls back to the generic one, as the swallowed
      exception does). */
  lemma InstructionChoice(choice: Value, env: Env, name: string)
    ensures !(choice.Dict? && "function" in choice.fields && choice.fields["function"].Dict?) ==>
      ToolInstruction(choice, env) == GenericInstructionLead + env.jsonDumps(ResponseTemplate(GenericFunctionName))
    ensures choice == Dict(map["function" := Dict(map["name" := Str(name)])]) ==>
      ToolInstruction(choice, env)
        == SpecificInstructionLead + name + SpecificInstructionTail + env.jsonDumps(ResponseTemplate(name))
  {
    if choice == Dict(map["function" := Dict(map["name" := Str(name)])]) {
      assert "function" in choice.fields && "name" in choice.fields["function"].fields;
    }
  }

  // ---------------------------------------------------------------- the chat stage

  /** `WithTools` writes only its three keys. */
  lemma WithToolsKeeps(g: Params, k: string)
    requires k !in {"temperature", "using_openai_tools", "grammar"}
    ensures SameAt(g, WithTools(g), k)
  {
  }

  /** Formats 4 and 7: `prompt` is the rendered messages followed by the assistant start,
      `images` the extracted images when there are any, and `trim_stop` is set. */
  lemma ChatPrompt(g: Params, a: Params, plan: Result<Option<string>>)
    requires ChatApplied(g, a, plan).Ok?
    ensures MessageList(Get(g, "messages", List([]))).Ok?
    ensures var msgs, t := MessageList(Get(g, "messages", List([]))).value, ChatTemplates(a);
      RenderFrom(msgs, 0, t, plan).Ok? && t.assistantStart.Str?
    ensures var msgs, t := MessageList(Get(g, "messages", List([]))).value, ChatTemplates(a);
      var p, r := RenderFrom(msgs, 0, t, plan).value, ChatApplied(g, a, plan).value;
      "prompt" in r && r["prompt"] == Str(p.text + t.assistantStart.s)
      && (p.images != [] ==> "images" in r && r["images"] == StrList(p.images))
      && (p.images == [] ==> SameAt(g, r, "images"))
      && "trim_stop" in r && r["trim_stop"] == Bool(true)
  {
    var t := ChatTemplates(a);
    var p, g3 := ChatParts(g, a, plan);
    RenderedInOrder(MessageList(Get(g, "messages", List([]))).value, t, plan);
    RenderedFacts(g, p, t.assistantStart.s);
    RenderKeysNotStopKeys();
    StopsMergedKeeps(g3, t, "prompt");
    StopsMergedKeeps(g3, t, "images");
    assert "prompt" != "trim_stop" && "images" != "trim_stop";
  }

  /** The chat stage before the stop merge, with the rendered messages `p`. */
  function Rendered(g: Params, p: Piece, close: string): Params {
    var g1 := if p.injected then WithTools(g) else g;
    var g2 := g1["prompt" := Str(p.text + close)];
    if |p.images| > 0 then g2["images" := StrList(p.images)] else g2
  }

  /** A chat message with a string content. */
  function ChatMessage(role: string, content: string): Value {
    Dict(map["role" := Str(role), "content" := Str(content)])
  }

  /** A system message then a user message, with string templates and no tools, render to
      system start, system text, system end, user start, user text and user end. */
  lemma SystemThenUserRendered(sys: string, user: string, t: Templates)
    requires t.systemStart.Str? && t.systemEnd.Str? && t.userStart.Str? && t.userEnd.Str?
    ensures RenderFrom([ChatMessage("system", sys), ChatMessage("user", user)], 0, t, Ok(None))
      == Ok(Piece(t.systemStart.s + sys + t.systemEnd.s + t.userStart.s + user + t.userEnd.s, [], false))
  {
    var m0, m1 := ChatMessage("system", sys), ChatMessage("user", user);
    var msgs := [m0, m1];
    assert m0.fields["role"] == Str("system") && Get(m0.fields, "content", Null) == Str(sys);
    assert m1.fields["role"] == Str("user") && Get(m1.fields, "content", Null) == Str(user);
    KnownRoleRendered(m0, false, t, Ok(None), t.systemStart.s, t.systemEnd.s);
    KnownRoleRendered(m1, true, t, Ok(None), t.userStart.s, t.userEnd.s);
    var p0 := Piece(t.systemStart.s + sys + t.systemEnd.s, [], false);
    var p1 := Piece(t.userStart.s + user + t.userEnd.s, [], false);
    assert RenderFrom(msgs, 2, t, Ok(None)) == Ok(Empty);
    assert RenderFrom(msgs, 1, t, Ok(None)) == Ok(Join(p1, Empty));
    assert RenderFrom(msgs, 0, t, Ok(None)) == Ok(Join(p0, Join(p1, Empty)));
    assert Join(p0, Join(p1, Empty)).text == p0.text + (p1.text + "");
    assert p0.text + (p1.text + "")
      == t.systemStart.s + sys + t.systemEnd.s + t.userStart.s + user + t.userEnd.s;
    assert Join(p0, Join(p1, Empty)).images == [] + ([] + []) == [];
  }

  /** Formats 4 and 7 with a system message then a user message, string templates and no
      tools: the prompt is system start, system text, system end, user start, user text,
      user end and assistant start, in that order. */
  lemma SystemThenUser(g: Params, a: Params, sys: string, user: string)
    requires Get(g, "messages", List([])) == List([ChatMessage("system", sys), ChatMessage("user", user)])
    requires var t := ChatTemplates(a);
      t.systemStart.Str? && t.systemEnd.Str? && t.userStart.Str? && t.userEnd.Str?
    requires ChatApplied(g, a, Ok(None)).Ok?
    ensures var t, r := ChatTemplates(a), ChatApplied(g, a, Ok(None)).value;
      t.assistantStart.Str? && "prompt" in r
      && r["prompt"] == Str(t.systemStart.s + sys + t.systemEnd.s
                            + t.userStart.s + user + t.userEnd.s + t.assistantStart.s)
  {
    var t := ChatTemplates(a);
    ChatPrompt(g, a, Ok(None));
    SystemThenUserRendered(sys, user, t);
  }

  /** The chat stage as its three parts: rendering, the stop merge, `trim_stop`. */
  lemma ChatParts(g: Params, a: Params, plan: Result<Option<string>>) returns (p: Piece, g3: Params)
    requires ChatApplied(g, a, plan).Ok?
    ensures var t, msgs := ChatTemplates(a), MessageList(Get(g, "messages", List([])));
      msgs.Ok? && RenderPrefix(msgs.value, |msgs.value|, t, plan) == Ok(p) && t.assistantStart.Str?
      && g3 == Rendered(g, p, t.assistantStart.s)
      && ChatStopsMerged(g3, t).Ok?
      && ChatApplied(g, a, plan).value == ChatStopsMerged(g3, t).value["trim_stop" := Bool(true)]
  {
    var t := ChatTemplates(a);
    var msgs := MessageList(Get(g, "messages", List([]))).value;
    p := RenderPrefix(msgs, |msgs|, t, plan).value;
    g3 := Rendered(g, p, t.assistantStart.s);
  }

  /** What rendering writes: `prompt`, `images` when there are any, the tool fields when
      tools were injected, and nothing else. */
  lemma RenderedFacts(g: Params, p: Piece, close: string)
    ensures var r := Rendered(g, p, close);
      "prompt" in r && r["prompt"] == Str(p.text + close)
      && (p.images != [] ==> "images" in r && r["images"] == StrList(p.images))
      && (p.images == [] ==> SameAt(g, r, "images"))
      && (p.injected ==>
            "temperature" in r && r["temperature"] == Float(0.2)
            && "using_openai_tools" in r && r["using_openai_tools"] == Bool(true)
            && "grammar" in r && r["grammar"] == Str(JsonArrGrammar))
      && (!p.injected ==>
            SameAt(g, r, "temperature") && SameAt(g, r, "using_openai_tools") && SameAt(g, r, "grammar"))
      && SameAt(g, r, "stop_sequence") && SameAt(g, r, "stop")
  {
    var g1 := if p.injected then WithTools(g) else g;
    ImagesKeyDistinct();
    RenderKeysNotStopKeys();
    ToolKeysDistinct();
    WithToolsKeeps(g, "images");
    WithToolsKeeps(g, "prompt");
    WithToolsKeeps(g, "stop_sequence");
    WithToolsKeeps(g, "stop");
    if p.injected {
      WithToolsSets(g);
    }
  }

  lemma WithToolsSets(g: Params)
    ensures var r := WithTools(g);
      "temperature" in r && r["temperature"] == Float(0.2)
      && "using_openai_tools" in r && r["using_openai_tools"] == Bool(true)
      && "grammar" in r && r["grammar"] == Str(JsonArrGrammar)
  {
    assert "temperature" != "using_openai_tools" && "temperature" != "grammar" && "using_openai_tools" != "grammar";
  }

  /** Formats 4 and 7 switch to tool calling (temperature 0.2, `using_openai_tools`, the
      JSON-array grammar) exactly when the last message is a user message and there is tool
      text; otherwise those three keys are left as they were. */
  lemma ChatTools(g: Params, a: Params, plan: Result<Option<string>>)
    requires ChatApplied(g, a, plan).Ok?
    ensures MessageList(Get(g, "messages", List([]))).Ok?
    ensures var msgs, r := MessageList(Get(g, "messages", List([]))).value, ChatApplied(g, a, plan).value;
      var injected := LastIsUser(msgs) && plan.Ok? && plan.value.Some?;
      (injected ==>
         "temperature" in r && r["temperature"] == Float(0.2)
         && "using_openai_tools" in r && r["using_openai_tools"] == Bool(true)
         && "grammar" in r && r["grammar"] == Str(JsonArrGrammar))
      && (!injected ==>
         SameAt(g, r, "temperature") && SameAt(g, r, "using_openai_tools") && SameAt(g, r, "grammar"))
  {
    var t := ChatTemplates(a);
    var p, g3 := ChatParts(g, a, plan);
    InjectedIffLastUser(MessageList(Get(g, "messages", List([]))).value, t, plan);
    RenderedFacts(g, p, t.assistantStart.s);
    RenderKeysNotStopKeys();
    StopsMergedKeeps(g3, t, "temperature");
    StopsMergedKeeps(g3, t, "using_openai_tools");
    StopsMergedKeeps(g3, t, "grammar");
    assert "temperature" != "trim_stop" && "using_openai_tools" != "trim_stop" && "grammar" != "trim_stop";
  }

  // ---------------------------------------------------------------- chat stop sequences

  /** The list elements of a value that `len()` found empty or that is a list. */
  function ItemsOf(v: Value): seq<Value> {
    if v.List? then v.items else []
  }

  /** The stop merge: both stripped templates after the sequence already there (an empty
      one is replaced, not extended), and `stop` grows with it when it is that same list. */
  lemma StopsMerged(g: Params, t: Templates)
    requires ChatStopsMerged(g, t).Ok?
    ensures var ss, r := Get(g, "stop_sequence", List([])), ChatStopsMerged(g, t).value;
      (ss.List? || Len(ss) == Some(0)) && t.userStart.Str? && t.assistantStart.Str?
      && var ext := List(ItemsOf(ss) + [Str(Strip(t.userStart.s)), Str(Strip(t.assistantStart.s))]);
      "stop_sequence" in r && r["stop_sequence"] == ext
      && (StopAliased(g) && ItemsOf(ss) != [] ==> "stop" in r && r["stop"] == ext)
      && (!(StopAliased(g) && ItemsOf(ss) != []) ==> SameAt(g, r, "stop"))
  {
    var ss := Get(g, "stop_sequence", List([]));
    var r := ChatStopsMerged(g, t).value;
    var u := StripOperand(t.userStart).value;
    var a := StripOperand(t.assistantStart).value;
    var ext := List(ItemsOf(ss) + [Str(u), Str(a)]);
    if Len(ss).value == 0 {
      assert ItemsOf(ss) == [];
      assert r == g["stop_sequence" := List([Str(u), Str(a)])];
      assert "stop" != "stop_sequence";
      assert SameAt(g, r, "stop");
    } else {
      var g1 := g["stop_sequence" := ext];
      assert r == if StopAliased(g) then g1["stop" := ext] else g1;
      assert "stop" != "stop_sequence";
    }
  }

  /** The same merge seen from the whole chat stage. */
  lemma ChatStops(g: Params, a: Params, plan: Result<Option<string>>)
    requires ChatApplied(g, a, plan).Ok?
    ensures var ss, r, t := Get(g, "stop_sequence", List([])), ChatApplied(g, a, plan).value, ChatTemplates(a);
      (ss.List? || Len(ss) == Some(0)) && t.userStart.Str? && t.assistantStart.Str?
      && var ext := List(ItemsOf(ss) + [Str(Strip(t.userStart.s)), Str(Strip(t.assistantStart.s))]);
      "stop_sequence" in r && r["stop_sequence"] == ext
      && (StopAliased(g) && ItemsOf(ss) != [] ==> "stop" in r && r["stop"] == ext)
      && (!(StopAliased(g) && ItemsOf(ss) != []) ==> SameAt(g, r, "stop"))
  {
    var p, g3 := ChatParts(g, a, plan);
    RenderedKeepsStops(g, p, ChatTemplates(a).assistantStart.s);
    StopsThenTrim(g, g3, ChatTemplates(a));
  }

  lemma RenderedKeepsStops(g: Params, p: Piece, close: string)
    ensures SameAt(g, Rendered(g, p, close), "stop_sequence") && SameAt(g, Rendered(g, p, close), "stop")
  {
    RenderKeysNotStopKeys();
    ToolKeysDistinct();
    WithToolsKeeps(g, "stop_sequence");
    WithToolsKeeps(g, "stop");
  }

  /** The stop merge on a state that agrees with `g` at both stop keys, followed by
      setting `trim_stop`. */
  lemma StopsThenTrim(g: Params, g3: Params, t: Templates)
    requires SameAt(g, g3, "stop_sequence") && SameAt(g, g3, "stop") && ChatStopsMerged(g3, t).Ok?
    ensures var ss, r := Get(g, "stop_sequence", List([])), ChatStopsMerged(g3, t).value["trim_stop" := Bool(true)];
      (ss.List? || Len(ss) == Some(0)) && t.userStart.Str? && t.assistantStart.Str?
      && var ext := List(ItemsOf(ss) + [Str(Strip(t.userStart.s)), Str(Strip(t.assistantStart.s))]);
      "stop_sequence" in r && r["stop_sequence"] == ext
      && (StopAliased(g) && ItemsOf(ss) != [] ==> "stop" in r && r["stop"] == ext)
      && (!(StopAliased(g) && ItemsOf(ss) != []) ==> SameAt(g, r, "stop"))
  {
    assert Get(g3, "stop_sequence", List([])) == Get(g, "stop_sequence", List([]));
    assert StopAliased(g3) == StopAliased(g);
    StopsMerged(g3, t);
    assert "stop_sequence" != "trim_stop" && "stop" != "trim_stop";
  }

  /** `stop` is a non-empty list, so `stop_sequence` is that very list. */
  predicate StopShared(g: Params) {
    "stop" in g && g["stop"].List? && g["stop"].items != []
  }

  /** Formats 4 and 7: `stop_sequence` is the normalised `stop` followed by the stripped
      user and assistant starts; a non-empty `stop` list receives the same two entries, and
      any other `stop` is left alone. */
  lemma ChatStopSequence(g: Params, fmt: int, env: Env)
    requires fmt == OpenAIChat || fmt == OllamaChat
    requires OpenAIApplied(g, fmt, env).Ok?
    ensures RequestAdapter(g, env).Dict?
      && var t, r := ChatTemplates(RequestAdapter(g, env).fields), OpenAIApplied(g, fmt, env).value;
      t.userStart.Str? && t.assistantStart.Str?
      && var ext := List(NormalisedStop(g).items + [Str(Strip(t.userStart.s)), Str(Strip(t.assistantStart.s))]);
      "stop_sequence" in r && r["stop_sequence"] == ext
      && (StopShared(g) ==> "stop" in r && r["stop"] == ext)
      && (!StopShared(g) ==> SameAt(g, r, "stop"))
  {
    var a, g1 := ChatRequest(g, fmt, env);
    CommonStop(g, Get(a, "max_length", Int(512)), env);
    ChatStops(g1, a, ToolPlan(g1, env));
    assert StopAliased(g1) && ItemsOf(NormalisedStop(g)) != [] <==> StopShared(g);
  }

  /** A successful chat request: the adapter is a dict and the chat stage runs on the
      common fields. */
  lemma ChatRequest(g: Params, fmt: int, env: Env) returns (a: Params, g1: Params)
    requires fmt == OpenAIChat || fmt == OllamaChat
    requires OpenAIApplied(g, fmt, env).Ok?
    ensures RequestAdapter(g, env) == Dict(a)
    ensures OpenAICommon(g, Get(a, "max_length", Int(512)), env) == Ok(g1)
    ensures OpenAIApplied(g, fmt, env) == ChatApplied(g1, a, ToolPlan(g1, env))
  {
    a := RequestAdapter(g, env).fields;
    g1 := OpenAICommon(g, Get(a, "max_length", Int(512)), env).value;
  }

  /** The common stage sets `stop_sequence` to the normalised `stop` and leaves `stop`. */
  lemma CommonStop(g: Params, d: Value, env: Env)
    requires OpenAICommon(g, d, env).Ok?
    ensures var r := OpenAICommon(g, d, env).value;
      "stop_sequence" in r && r["stop_sequence"] == NormalisedStop(g) && SameAt(g, r, "stop")
  {
    assert "stop" !in {"max_length", "presence_penalty", "stop_sequence", "sampler_seed", "mirostat"};
  }

  // ---------------------------------------------------------------- key facts

  // Solver aids: the lemmas below model nothing in the source.  They state that some
  // dictionary keys differ, so that the larger proofs need not reason about string
  // literals themselves.

  /** The keys of the common stage are outside every dialect's writes. */
  lemma CommonKeysNotRewritten(fmt: int)
    ensures "rep_pen" !in FormatWrites(fmt)
    ensures "ban_eos_token" !in FormatWrites(fmt)
    ensures "use_default_badwordsids" !in FormatWrites(fmt)
  {
    if fmt == Basic {
    } else if fmt == OpenAICompletion {
    } else if fmt == OpenAIChat || fmt == OllamaChat {
      assert "rep_pen" !in ChatWrites && "ban_eos_token" !in ChatWrites && "use_default_badwordsids" !in ChatWrites;
    } else if fmt == Interrogate {
    } else if fmt == OllamaGenerate {
    }
  }

  /** The common OpenAI fields other than `stop_sequence` are outside the chat stage's writes. */
  lemma CommonFieldsNotChatWritten()
    ensures "max_length" !in ChatWrites && "presence_penalty" !in ChatWrites
    ensures "sampler_seed" !in ChatWrites && "mirostat" !in ChatWrites
  {
  }

  /** The keys the message rendering writes are not stop keys. */
  lemma RenderKeysNotStopKeys()
    ensures "prompt" !in {"stop_sequence", "stop"} && "images" !in {"stop_sequence", "stop"}
    ensures "temperature" !in {"stop_sequence", "stop"} && "using_openai_tools" !in {"stop_sequence", "stop"}
    ensures "grammar" !in {"stop_sequence", "stop"}
  {
  }

  lemma ImagesKeyDistinct()
    ensures "images" !in {"temperature", "using_openai_tools", "grammar"} && "images" != "prompt"
  {
  }

  lemma ToolKeysDistinct()
    ensures "prompt" !in {"temperature", "using_openai_tools", "grammar"}
    ensures "stop_sequence" !in {"temperature", "using_openai_tools", "grammar"}
    ensures "stop" !in {"temperature", "using_openai_tools", "grammar"}
  {
  }

  lemma StopKeysDistinct()
    ensures "stop_sequence" !in {"temperature", "using_openai_tools", "grammar", "prompt", "images", "trim_stop"}
    ensures "stop" !in {"temperature", "using_openai_tools", "grammar", "prompt", "images", "trim_stop"}
    ensures "stop" !in OpenAIWrites
  {
  }
}
